/** The help command: a two-level table of help texts, looked up once when
    the command is built; `show` prints the text found, or `undefined` when
    the table has no entry. */
module HelpCommand {
  import opened Wrappers
  import opened Patterns
  import Text

  /** The first level of the table. */
  datatype MessageCategory = Large | Medium

  /** The second-level key: a category name or a pattern name. */
  datatype SubCategory = CategoryKey(category: Category) | PatternKey(pattern: Pattern)

  /** The help text of the creational category. */
  const CreationalDesc: string :=
    "Creational（生成に関する）デザインパターンは、オブジェクトの生成メカニズムに関するパターン。この種のパターンは、オブジェクトの生成をより柔軟にし、より効果的に制御する方法を提供します。具体的には、システムが依存するオブジェクトの具体的なクラスを直接指定せずに、オブジェクトの作成を行います。"

  /** The creational text is not the word `undefined`. */
  lemma CreationalDescIsNotUndefined()
    ensures CreationalDesc != "undefined"
  {
  }

  /** The large table: one text per category. */
  function LargeMessage(c: Category): string {
    match c
    case Creational => CreationalDesc
    case Structural => "Large Structural Design Patternの説明..."
    case Behavioral => "Large Behavioral Design Patternの説明..."
  }

  const MediumBehavioral: string := "Medium Behavioral Design Patternの説明..."

  /** The medium table: one text per listed pattern; strategy,
      template-method and visitor are not listed. */
  function MediumMessage(p: Pattern): (m: Option<string>)
    ensures m.None? <==> p in {Strategy, TemplateMethod, Visitor}
  {
    match p
    case FactoryMethod => Some("Medium Creational Design Patternの説明...")
    case AbstractFactory => Some("Medium Structural Design Patternの説明...")
    case Strategy => None
    case TemplateMethod => None
    case Visitor => None
    case _ => Some(MediumBehavioral)
  }

  /** The constructor's lookup: the large table answers category names, the
      medium table pattern names; any other pairing finds nothing. */
  function Lookup(context: MessageCategory, sub: SubCategory): (r: Option<string>)
    ensures r.Some? ==> (context == Large <==> sub.CategoryKey?)
    ensures context == Large && sub.CategoryKey? ==> r == Some(LargeMessage(sub.category))
    ensures context == Medium && sub.PatternKey? ==> r == MediumMessage(sub.pattern)
  {
    match (context, sub)
    case (Large, CategoryKey(c)) => Some(LargeMessage(c))
    case (Medium, PatternKey(p)) => MediumMessage(p)
    case _ => None
  }

  /** Which lookups find a text: every category in the large table, every
      pattern but strategy, template-method and visitor in the medium
      table, and nothing across the two levels. */
  lemma LookupFindsText(context: MessageCategory, sub: SubCategory)
    ensures Lookup(context, sub).Some? <==>
      (context == Large && sub.CategoryKey?) ||
      (context == Medium && sub.PatternKey? && sub.pattern !in {Strategy, TemplateMethod, Visitor})
  {
  }

  /** No help text is the word `undefined`, so `show` prints `undefined`
      exactly when the lookup found nothing. */
  lemma ShowPrintsUndefinedIffMissing(context: MessageCategory, sub: SubCategory)
    ensures Text.Render(Lookup(context, sub)) == "undefined" <==> Lookup(context, sub).None?
  {
    if context == Large && sub == CategoryKey(Creational) {
      CreationalDescIsNotUndefined();
    }
  }

  /** A help command: its content is fixed when it is built. */
  class HelpCommand {
    const content: Option<string>

    constructor (context: MessageCategory, sub: SubCategory)
      ensures content == Lookup(context, sub)
    {
      content := Lookup(context, sub);
    }

    /** `show`: prints the content, `undefined` when there is none. */
    method Show() returns (printed: seq<string>)
      ensures printed == [Text.Render(content)]
    {
      printed := [Text.Render(content)];
    }
  }
}
