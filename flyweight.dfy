/** The Flyweight command: a factory that shares one immutable text style per
    `color-fontSize-fontFamily` key. */
module Flyweight {
  import opened LeafCommand
  import Text

  /** An immutable style; objects are compared by identity, as `===` does. */
  class TextStyle {
    const color: string
    const fontSize: int
    const fontFamily: string

    constructor (color: string, fontSize: int, fontFamily: string)
      ensures this.color == color && this.fontSize == fontSize && this.fontFamily == fontFamily
    {
      this.color := color;
      this.fontSize := fontSize;
      this.fontFamily := fontFamily;
    }

    /** The line `applyStyle` prints. */
    function ApplyStyle(): string {
      "Applying style: " + color + ", " + Text.IntToString(fontSize) + "px, " + fontFamily
    }
  }

  /** The cache key of a style request: the colour, a dash, the size in
      decimal, a dash and the font family. */
  function StyleKey(color: string, fontSize: int, fontFamily: string): (key: string)
    ensures |key| == |color| + |Text.IntToString(fontSize)| + |fontFamily| + 2
    ensures key[..|color|] == color && key[|color|] == '-'
    ensures key[|key| - |fontFamily|..] == fontFamily && key[|key| - |fontFamily| - 1] == '-'
    ensures key[|color| + 1..|key| - |fontFamily| - 1] == Text.IntToString(fontSize)
  {
    color + "-" + Text.IntToString(fontSize) + "-" + fontFamily
  }

  class TextStyleFactory {
    var styles: map<string, TextStyle>

    constructor ()
      ensures styles == map[]
    {
      styles := map[];
    }

    /** Returns the cached style for the request's key, creating and storing a
        new one only when the key is absent. */
    method GetStyle(color: string, fontSize: int, fontFamily: string) returns (style: TextStyle)
      modifies this
      ensures var key := StyleKey(color, fontSize, fontFamily);
              key in styles && styles[key] == style
      ensures var key := StyleKey(color, fontSize, fontFamily);
              key in old(styles) ==> styles == old(styles)
      ensures var key := StyleKey(color, fontSize, fontFamily);
              key !in old(styles) ==>
                fresh(style) && styles == old(styles)[key := style] &&
                style.color == color && style.fontSize == fontSize && style.fontFamily == fontFamily
      ensures |styles| <= |old(styles)| + 1
    {
      var key := StyleKey(color, fontSize, fontFamily);
      if key !in styles {
        var created := new TextStyle(color, fontSize, fontFamily);
        styles := styles[key := created];
      }
      style := styles[key];
    }
  }

  /** Two consecutive requests with equal keys share one instance. */
  method EqualKeysShareInstance(factory: TextStyleFactory, c1: string, s1: int, f1: string, c2: string, s2: int, f2: string)
    returns (first: TextStyle, second: TextStyle)
    requires StyleKey(c1, s1, f1) == StyleKey(c2, s2, f2)
    modifies factory
    ensures first == second
  {
    first := factory.GetStyle(c1, s1, f1);
    second := factory.GetStyle(c2, s2, f2);
  }

  /** The key is not injective once a string holds '-': two different requests
      share one key. */
  lemma KeyIsNotInjective()
    ensures ("red-16", 1, "Arial") != ("red", 16, "1-Arial")
    ensures StyleKey("red-16", 1, "Arial") == StyleKey("red", 16, "1-Arial")
  {
    assert Text.IntToString(1) == "1";
    IntToString16();
    assert "red-16" != "red" by { assert |"red-16"| != |"red"|; }
  }

  /** So the shared style need not carry the arguments of the later request. */
  method CollidingKeyReturnsEarlierStyle() returns (style: TextStyle)
    ensures style.color == "red-16" && style.fontSize == 1
  {
    var factory := new TextStyleFactory();
    var first := factory.GetStyle("red-16", 1, "Arial");
    KeyIsNotInjective();
    style := factory.GetStyle("red", 16, "1-Arial");
  }

  /** What `exec` prints: the two identity checks, then the two styles. */
  method Exec() returns (printed: seq<string>)
    ensures printed == ["true", "false",
                        "Applying style: red, 16px, Arial",
                        "Applying style: blue, 20px, Times New Roman"]
  {
    var factory := new TextStyleFactory();
    var style1 := factory.GetStyle("red", 16, "Arial");
    var style2 := factory.GetStyle("blue", 20, "Times New Roman");
    var style3 := factory.GetStyle("red", 16, "Arial");
    printed := [BoolToString(style1 == style3), BoolToString(style1 == style2)];
    printed := printed + [style1.ApplyStyle(), style2.ApplyStyle()];
    RedStyleLine();
    BlueStyleLine();
  }

  /** How `console.log` prints a boolean. */
  function BoolToString(b: bool): string {
    if b then "true" else "false"
  }

  lemma RedStyleLine()
    ensures "Applying style: " + "red" + ", " + Text.IntToString(16) + "px, " + "Arial"
            == "Applying style: red, 16px, Arial"
  {
    IntToString16();
  }

  lemma BlueStyleLine()
    ensures "Applying style: " + "blue" + ", " + Text.IntToString(20) + "px, " + "Times New Roman"
            == "Applying style: blue, 20px, Times New Roman"
  {
    IntToString20();
  }

  lemma IntToString16()
    ensures Text.IntToString(16) == "16"
  {
    assert Text.NatToString(16) == Text.NatToString(1) + [Text.Digit(6)];
  }

  lemma IntToString20()
    ensures Text.IntToString(20) == "20"
  {
    assert Text.NatToString(20) == Text.NatToString(2) + [Text.Digit(0)];
  }

  const DescriptionText: string := "[description] Flyweight"
  const ExampleCodeText: string := "[example code] Flyweight"

  /** The flow chart is not written yet: always the empty string. */
  function FlowChart(): string {
    ""
  }

  /** The demonstration's output as a value (established by `Exec`). */
  const DemoLines: seq<string> := ["true", "false",
                                   "Applying style: red, 16px, Arial",
                                   "Applying style: blue, 20px, Times New Roman"]

  function Texts(): LeafTexts {
    LeafTexts(DescriptionText, FlowChart(), ExampleCodeText, Returns(DemoLines))
  }

  /** `handler`: the output-selection loop, running the demonstration's objects. */
  method Run(outputs: seq<OutputChoice>) returns (r: LeafResult)
    ensures r == LeafOutput(outputs, Texts())
  {
    var demo := Exec();
    r := HandleOutputs(outputs, LeafTexts(DescriptionText, FlowChart(), ExampleCodeText, Returns(demo)));
  }
}
