/** The names the command line works with: the three categories of the
    main menu and the design patterns of the category menus. */
module Patterns {
  import opened Wrappers

  datatype Category = Creational | Structural | Behavioral

  /** The answer string that names a category. */
  function CategoryName(c: Category): string {
    match c
    case Creational => "creational"
    case Structural => "structural"
    case Behavioral => "behavioral"
  }

  datatype Pattern =
    | FactoryMethod | AbstractFactory | Builder | Prototype
    | Adapter | Bridge | Composite | Decorator | Facade | Flyweight | Proxy
    | ChainOfResponsibility | Command | Interpreter | Iterator | Mediator
    | Memento | Observer | State | Strategy | TemplateMethod | Visitor

  /** The answer string that names a pattern; reading it back gives the
      pattern. */
  function Name(p: Pattern): (n: string)
    ensures FromName(n) == Some(p)
  {
    match p
    case FactoryMethod => "factory-method"
    case AbstractFactory => "abstract-factory"
    case Builder => "builder"
    case Prototype => "prototype"
    case Adapter => "adapter"
    case Bridge => "bridge"
    case Composite => "composite"
    case Decorator => "decorator"
    case Facade => "facade"
    case Flyweight => "flyweight"
    case Proxy => "proxy"
    case ChainOfResponsibility => "chain-of-responsibility"
    case Command => "command"
    case Interpreter => "interpreter"
    case Iterator => "iterator"
    case Mediator => "mediator"
    case Memento => "memento"
    case Observer => "observer"
    case State => "state"
    case Strategy => "strategy"
    case TemplateMethod => "template-method"
    case Visitor => "visitor"
  }

  /** The pattern an answer string names, if any. */
  function FromName(s: string): Option<Pattern> {
    match s
    case "factory-method" => Some(FactoryMethod)
    case "abstract-factory" => Some(AbstractFactory)
    case "builder" => Some(Builder)
    case "prototype" => Some(Prototype)
    case "adapter" => Some(Adapter)
    case "bridge" => Some(Bridge)
    case "composite" => Some(Composite)
    case "decorator" => Some(Decorator)
    case "facade" => Some(Facade)
    case "flyweight" => Some(Flyweight)
    case "proxy" => Some(Proxy)
    case "chain-of-responsibility" => Some(ChainOfResponsibility)
    case "command" => Some(Command)
    case "interpreter" => Some(Interpreter)
    case "iterator" => Some(Iterator)
    case "mediator" => Some(Mediator)
    case "memento" => Some(Memento)
    case "observer" => Some(Observer)
    case "state" => Some(State)
    case "strategy" => Some(Strategy)
    case "template-method" => Some(TemplateMethod)
    case "visitor" => Some(Visitor)
    case _ => None
  }

  /** A pattern is found only for its own name. */
  lemma FromNameFindsOnlyOwnName(s: string)
    ensures FromName(s).Some? ==> Name(FromName(s).value) == s
  {
  }

  /** No two patterns share a name. */
  lemma NameIsInjective(p: Pattern, q: Pattern)
    ensures Name(p) == Name(q) <==> p == q
  {
  }
}
