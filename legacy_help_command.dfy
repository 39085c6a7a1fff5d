/** The earlier help command: one table of three levels by three categories,
    looked up with optional chaining; `show` prints what was found. */
module LegacyHelpCommand {
  import opened Wrappers
  import Text
  import opened Patterns
  import Current = HelpCommand

  datatype MessageCategory = Large | Medium | Small

  /** The table row of a level, or `undefined` for a level it lacks. */
  function Row(context: MessageCategory): Option<map<Category, string>> {
    match context
    case Large => Some(map[
      Creational := Current.CreationalDesc,
      Structural := "Large Structural Design Patternの説明...",
      Behavioral := "Large Behavioral Design Patternの説明..."])
    case Medium => Some(map[
      Creational := "Medium Creational Design Patternの説明...",
      Structural := "Medium Structural Design Patternの説明...",
      Behavioral := "Medium Behavioral Design Patternの説明..."])
    case Small => Some(map[
      Creational := "Small Creational Design Patternの説明...",
      Structural := "Small Structural Design Patternの説明...",
      Behavioral := "Small Behavioral Design Patternの説明..."])
  }

  /** `helpMessagesMap.get(context)?.[subCategory]`: a text exactly when the
      level has a row and the row has the category, and then the row's text. */
  function Lookup(context: MessageCategory, sub: Category): (r: Option<string>)
    ensures r.Some? <==> Row(context).Some? && sub in Row(context).value
    ensures r.Some? ==> r.value == Row(context).value[sub]
  {
    match Row(context)
    case None => None
    case Some(row) => if sub in row then Some(row[sub]) else None
  }

  /** Every level has every category, so this command always finds a text. */
  lemma LookupIsTotal(context: MessageCategory, sub: Category)
    ensures Lookup(context, sub).Some?
    ensures Lookup(context, sub).value == RowText(context, sub)
  {
    match context {
      case Large => assert sub in Row(Large).value;
      case Medium => assert sub in Row(Medium).value;
      case Small => assert sub in Row(Small).value;
    }
  }

  /** The text at a level and category, as the table lists it. */
  function RowText(context: MessageCategory, sub: Category): string {
    match context
    case Large => Current.LargeMessage(sub)
    case Medium => (match sub
      case Creational => "Medium Creational Design Patternの説明..."
      case Structural => "Medium Structural Design Patternの説明..."
      case Behavioral => "Medium Behavioral Design Patternの説明...")
    case Small => (match sub
      case Creational => "Small Creational Design Patternの説明..."
      case Structural => "Small Structural Design Patternの説明..."
      case Behavioral => "Small Behavioral Design Patternの説明...")
  }

  /** No text of the table is the word `undefined`. */
  lemma RowTextIsNotUndefined(context: MessageCategory, sub: Category)
    ensures RowText(context, sub) != "undefined"
  {
    if context == Large && sub == Creational {
      Current.CreationalDescIsNotUndefined();
    }
  }

  /** This command never prints `undefined`, and its large level says what
      the current help command's large table says. */
  lemma NeverPrintsUndefined(context: MessageCategory, sub: Category)
    ensures Text.Render(Lookup(context, sub)) != "undefined"
    ensures context == Large ==>
      Lookup(context, sub) == Current.Lookup(Current.Large, Current.CategoryKey(sub))
  {
    LookupIsTotal(context, sub);
    RowTextIsNotUndefined(context, sub);
  }

  /** A help command: its content is fixed when it is built. */
  class HelpCommand {
    const content: Option<string>

    constructor (context: MessageCategory, sub: Category)
      ensures content == Lookup(context, sub)
    {
      content := Lookup(context, sub);
    }

    /** `show`: prints the content. */
    method Show() returns (printed: seq<string>)
      ensures printed == [Text.Render(content)]
    {
      printed := [Text.Render(content)];
    }
  }
}
