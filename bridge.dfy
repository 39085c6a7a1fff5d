/** The Bridge command: a circle (the abstraction) delegates its drawing to a
    drawing API (the implementation) that chooses the colour. */
module Bridge {
  import opened LeafCommand
  import Text

  /** The two drawing implementations. */
  datatype DrawApi = RedCircle | GreenCircle

  /** A circle keeps its coordinates, its radius and its implementation. */
  datatype Shape = Circle(x: int, y: int, radius: int, drawApi: DrawApi)

  /** The colour word each implementation writes. */
  function Color(api: DrawApi): string {
    match api
    case RedCircle => "red"
    case GreenCircle => "green"
  }

  /** The part of a drawn line after the colour: radius, then x, then y. */
  function Geometry(radius: int, x: int, y: int): string {
    ", radius: " + Text.IntToString(radius) + ", x: " + Text.IntToString(x) + ", y: " + Text.IntToString(y) + " ]"
  }

  /** The start of every drawn line, up to the colour word. */
  const Header: string := "Drawing Circle[ color: "

  /** `drawCircle(radius, x, y)`: the line the implementation prints, its
      own colour word after the header and then its three arguments. */
  function DrawCircle(api: DrawApi, radius: int, x: int, y: int): (line: string)
    ensures |line| == |Header| + |Color(api)| + |Geometry(radius, x, y)|
    ensures line[..|Header| + |Color(api)|] == Header + Color(api)
    ensures line[|Header| + |Color(api)|..] == Geometry(radius, x, y)
  {
    Header + Color(api) + Geometry(radius, x, y)
  }

  /** `draw`: the circle, built from (x, y, radius), hands its radius, x and
      y, in that order, to its implementation, whose colour word it prints. */
  function Draw(s: Shape): (line: string)
    ensures |line| == |Header| + |Color(s.drawApi)| + |Geometry(s.radius, s.x, s.y)|
    ensures line[..|Header| + |Color(s.drawApi)|] == Header + Color(s.drawApi)
    ensures line[|Header| + |Color(s.drawApi)|..] == Geometry(s.radius, s.x, s.y)
  {
    DrawCircle(s.drawApi, s.radius, s.x, s.y)
  }

  /** The abstraction never looks at the colour: swapping the implementation
      of a circle changes only the colour word of its line, and the two
      implementations always print different lines. */
  lemma SwappingImplementationChangesOnlyColor(x: int, y: int, radius: int)
    ensures Draw(Circle(x, y, radius, RedCircle)) == "Drawing Circle[ color: red" + Geometry(radius, x, y)
    ensures Draw(Circle(x, y, radius, GreenCircle)) == "Drawing Circle[ color: green" + Geometry(radius, x, y)
    ensures Draw(Circle(x, y, radius, RedCircle)) != Draw(Circle(x, y, radius, GreenCircle))
  {
    var red := Draw(Circle(x, y, radius, RedCircle));
    var green := Draw(Circle(x, y, radius, GreenCircle));
    var header := "Drawing Circle[ color: ";
    assert "Drawing Circle[ color: red" == header + "red";
    assert "Drawing Circle[ color: green" == header + "green";
    assert red[|header|] == 'r';
    assert green[|header|] == 'g';
  }

  /** What `exec` prints: a red and a green circle at (100, 100), radius 10. */
  function Exec(): seq<string> {
    [Draw(Circle(100, 100, 10, RedCircle)), Draw(Circle(100, 100, 10, GreenCircle))]
  }

  lemma ExecPrints()
    ensures Exec() == ["Drawing Circle[ color: red, radius: 10, x: 100, y: 100 ]",
                       "Drawing Circle[ color: green, radius: 10, x: 100, y: 100 ]"]
  {
    DemoLine(RedCircle);
    DemoLine(GreenCircle);
    RedLine();
    GreenLine();
  }

  lemma RedLine()
    ensures "Drawing Circle[ color: " + "red" + ", radius: 10, x: 100, y: 100 ]"
            == "Drawing Circle[ color: red, radius: 10, x: 100, y: 100 ]"
  {
    assert "Drawing Circle[ color: " + "red" == "Drawing Circle[ color: red";
  }

  lemma GreenLine()
    ensures "Drawing Circle[ color: " + "green" + ", radius: 10, x: 100, y: 100 ]"
            == "Drawing Circle[ color: green, radius: 10, x: 100, y: 100 ]"
  {
    assert "Drawing Circle[ color: " + "green" == "Drawing Circle[ color: green";
  }

  /** Either demonstration circle, with its colour left open. */
  lemma DemoLine(api: DrawApi)
    ensures Draw(Circle(100, 100, 10, api)) == "Drawing Circle[ color: " + Color(api) + ", radius: 10, x: 100, y: 100 ]"
  {
    DemoGeometry();
  }

  /** The geometry part of both demonstration lines. */
  lemma DemoGeometry()
    ensures Geometry(10, 100, 100) == ", radius: 10, x: 100, y: 100 ]"
  {
    Text.TenAndHundred();
    assert ", radius: " + "10" + ", x: " == ", radius: 10, x: ";
    assert ", radius: 10, x: " + "100" + ", y: " == ", radius: 10, x: 100, y: ";
    assert ", radius: 10, x: 100, y: " + "100" + " ]" == ", radius: 10, x: 100, y: 100 ]";
  }

  const DescriptionText: string := "[description] Bridge"
  const ExampleCodeText: string := "[example code] Bridge"

  /** The flow chart is not written yet: always the empty string. */
  function FlowChart(): string {
    ""
  }

  function Texts(): LeafTexts {
    LeafTexts(DescriptionText, FlowChart(), ExampleCodeText, Returns(Exec()))
  }

  /** `run`: the output-selection loop on this command's texts and demonstration. */
  method Run(outputs: seq<OutputChoice>) returns (r: LeafResult)
    ensures r == LeafOutput(outputs, Texts())
  {
    r := HandleOutputs(outputs, Texts());
  }
}
