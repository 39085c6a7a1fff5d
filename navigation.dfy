/** How the three category menus divide the patterns between them, and how
    that division matches the help tables. */
module Navigation {
  import opened Wrappers
  import opened Patterns
  import opened Menus
  import HelpCommand
  import CreationalCommand
  import StructuralCommand
  import BehavioralCommand
  import MainCommand

  /** The category menu the main menu opens for `c`. */
  function CategoryMenu(c: Category, answer: string): MenuAction {
    match c
    case Creational => CreationalCommand.Handler(answer)
    case Structural => StructuralCommand.Handler(answer)
    case Behavioral => BehavioralCommand.Handler(answer)
  }

  function Listed(c: Category): seq<Pattern> {
    match c
    case Creational => CreationalCommand.Runs
    case Structural => StructuralCommand.Runs
    case Behavioral => BehavioralCommand.Runs
  }

  /** The category whose menu lists `p`, if any. */
  function Home(p: Pattern): Option<Category> {
    match p
    case FactoryMethod | AbstractFactory | Builder | Prototype => Some(Creational)
    case ChainOfResponsibility | Command | Interpreter | Iterator | Mediator | Memento | Observer | State => Some(Structural)
    case Adapter | Bridge | Composite | Decorator | Facade | Flyweight | Proxy => Some(Behavioral)
    case Strategy | TemplateMethod | Visitor => None
  }

  /** A menu lists a pattern exactly when it is that pattern's home. */
  lemma ListedAtHome(p: Pattern, c: Category)
    ensures p in Listed(c) <==> Home(p) == Some(c)
  {
    match c {
      case Creational => CreationalListedAtHome(p);
      case Structural => StructuralListedAtHome(p);
      case Behavioral => BehavioralListedAtHome(p);
    }
  }

  lemma CreationalListedAtHome(p: Pattern)
    ensures p in CreationalCommand.Runs <==> Home(p) == Some(Creational)
  {
  }

  lemma StructuralListedAtHome(p: Pattern)
    ensures p in StructuralCommand.Runs <==> Home(p) == Some(Structural)
  {
  }

  lemma BehavioralListedAtHome(p: Pattern)
    ensures p in BehavioralCommand.Runs <==> Home(p) == Some(Behavioral)
  {
  }

  /** A pattern some menu runs. */
  predicate Reachable(p: Pattern) {
    exists c :: p in Listed(c)
  }

  /** Each pattern is listed by at most one category menu; exactly three are
      listed by none. */
  lemma MenusPartitionThePatterns(p: Pattern, c: Category, d: Category)
    ensures p in Listed(c) && p in Listed(d) ==> c == d
    ensures !Reachable(p) <==> p == Strategy || p == TemplateMethod || p == Visitor
  {
    ListedAtHome(p, c);
    ListedAtHome(p, d);
    if Home(p).Some? {
      ListedAtHome(p, Home(p).value);
    } else {
      forall e ensures p !in Listed(e) {
        ListedAtHome(p, e);
      }
    }
  }

  /** Two answers, one to the main menu and one to the category menu it
      opens, run pattern `p` exactly when they name `p`'s category and `p`. */
  lemma TwoAnswersRunAPattern(first: string, second: string, c: Category, p: Pattern)
    requires MainCommand.Handler(first) == OpenCategory(c)
    ensures CategoryMenu(c, second) == RunPattern(p) <==> p in Listed(c) && second == Name(p)
    ensures first == CategoryName(c)
  {
    match c {
      case Creational => CreationalCommand.EveryListedPatternIsReachable(p);
      case Structural => StructuralCommand.EveryListedPatternIsReachable(p);
      case Behavioral => BehavioralCommand.EveryListedPatternIsReachable(p);
    }
  }

  /** A category menu that runs no pattern shows its category's help, and
      that help always has a text. */
  lemma CategoryMenuHelpHasText(c: Category, answer: string)
    ensures !CategoryMenu(c, answer).RunPattern? ==> CategoryMenu(c, answer) == ShowHelp(c)
    ensures Printed(ShowHelp(c)) != ["undefined"]
  {
    MenuHelpIsNeverUndefined(c);
  }

  /** The medium help table has an entry for exactly the patterns a menu runs. */
  lemma MediumHelpCoversReachablePatterns(p: Pattern)
    ensures HelpCommand.MediumMessage(p).Some? <==> Reachable(p)
  {
    MenusPartitionThePatterns(p, Creational, Creational);
  }
}
