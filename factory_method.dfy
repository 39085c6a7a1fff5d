/** The factory-method script: each concrete creator creates its own kind of
    robot, and the client only calls `createRobot` and `work`. */
module FactoryMethod {

  /** The concrete creators. */
  datatype RobotFactory = ElectronicAssemblerFactory | EngineRepairerFactory

  /** The concrete products. */
  datatype Robot = ElectronicAssembler | EngineRepairer

  /** `createRobot`: each creator makes its own kind of robot. */
  function CreateRobot(f: RobotFactory): (r: Robot)
    ensures r.ElectronicAssembler? <==> f.ElectronicAssemblerFactory?
  {
    match f
    case ElectronicAssemblerFactory => ElectronicAssembler
    case EngineRepairerFactory => EngineRepairer
  }

  /** `work`: what each robot reports; only the assembler reports assembling. */
  function Work(r: Robot): (s: string)
    ensures s == "組立て中" <==> r.ElectronicAssembler?
  {
    match r
    case ElectronicAssembler => "組立て中"
    case EngineRepairer => "修理中"
  }

  /** Each creator decides the product: the two creators make different
      robots, which report different work, and every robot comes from a
      creator. */
  lemma CreatorDecidesProduct(f1: RobotFactory, f2: RobotFactory, r: Robot)
    ensures f1 != f2 <==> Work(CreateRobot(f1)) != Work(CreateRobot(f2))
    ensures exists f :: CreateRobot(f) == r
  {
    assert "組立て中" != "修理中" by { assert |"組立て中"| != |"修理中"|; }
    var f := if r == ElectronicAssembler then ElectronicAssemblerFactory else EngineRepairerFactory;
    assert CreateRobot(f) == r;
  }

  /** What the script prints: the assembler's work, then the repairer's. */
  function Script(): seq<string> {
    [Work(CreateRobot(ElectronicAssemblerFactory)), Work(CreateRobot(EngineRepairerFactory))]
  }

  lemma ScriptPrints()
    ensures Script() == ["組立て中", "修理中"]
  {
  }
}
