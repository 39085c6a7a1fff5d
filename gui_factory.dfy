/** The abstract-factory example: two concrete factories, each creating a
    button and a window of one platform, and a client that builds a GUI from
    whichever factory it is given. */
module GuiFactory {

  /** The concrete factories. */
  datatype GUIFactory = WindowsFactory | MacFactory

  /** The concrete products. */
  datatype Button = WindowsButton | MacButton
  datatype PcWindow = WindowsWindow | MacWindow

  /** `createButton`: each factory makes its own platform's button. */
  function CreateButton(f: GUIFactory): (b: Button)
    ensures b.WindowsButton? <==> f.WindowsFactory?
  {
    match f
    case WindowsFactory => WindowsButton
    case MacFactory => MacButton
  }

  /** `createWindow`: each factory makes its own platform's window. */
  function CreateWindow(f: GUIFactory): (w: PcWindow)
    ensures w.WindowsWindow? <==> f.WindowsFactory?
  {
    match f
    case WindowsFactory => WindowsWindow
    case MacFactory => MacWindow
  }

  /** `click`: the line a button prints. */
  function Click(b: Button): string {
    match b
    case WindowsButton => "Windows Button clicked"
    case MacButton => "Mac Button clicked"
  }

  /** `open`: the line a window prints. */
  function Open(w: PcWindow): string {
    match w
    case WindowsWindow => "Windows Window opened"
    case MacWindow => "Mac Window opened"
  }

  /** A button and a window that belong to the same platform. */
  predicate SameFamily(b: Button, w: PcWindow) {
    b.WindowsButton? <==> w.WindowsWindow?
  }

  /** `buildGUI`: create the button, create the window, click, then open;
      the two products it uses are of one family. */
  function BuildGUI(f: GUIFactory): (lines: seq<string>)
    ensures |lines| == 2 && lines[0] == Click(CreateButton(f)) && lines[1] == Open(CreateWindow(f))
    ensures SameFamily(CreateButton(f), CreateWindow(f))
  {
    var button := CreateButton(f);
    var window := CreateWindow(f);
    [Click(button), Open(window)]
  }

  /** A factory never mixes platforms, and every matching pair of products
      comes from exactly one factory: the factory is the family. */
  lemma FactoryProductsAreOneFamily(b: Button, w: PcWindow)
    ensures forall f :: SameFamily(CreateButton(f), CreateWindow(f))
    ensures SameFamily(b, w) <==> exists f :: CreateButton(f) == b && CreateWindow(f) == w
  {
    if SameFamily(b, w) {
      var f := if b.WindowsButton? then WindowsFactory else MacFactory;
      assert CreateButton(f) == b && CreateWindow(f) == w;
    }
  }

  /** The client code never names a platform, yet both of its lines name the
      factory's platform; different factories give different GUIs. */
  lemma BuildGUIFollowsFactory(f: GUIFactory)
    ensures |BuildGUI(f)| == 2
    ensures f == WindowsFactory <==> BuildGUI(f) == ["Windows Button clicked", "Windows Window opened"]
    ensures f == MacFactory <==> BuildGUI(f) == ["Mac Button clicked", "Mac Window opened"]
  {
    var windows := BuildGUI(WindowsFactory);
    var mac := BuildGUI(MacFactory);
    assert windows[0][0] != mac[0][0];
  }

  /** The factory the script picks from a draw of `Math.random()`. */
  function ChooseFactory(random: real): (f: GUIFactory)
    ensures f == WindowsFactory <==> random < 0.5
  {
    if random < 0.5 then WindowsFactory else MacFactory
  }

  /** What the script prints for a given draw. */
  function Script(random: real): seq<string> {
    BuildGUI(ChooseFactory(random))
  }

  /** Draws below one half print the Windows GUI, all others the Mac GUI. */
  lemma ScriptPrints(random: real)
    ensures random < 0.5 ==> Script(random) == ["Windows Button clicked", "Windows Window opened"]
    ensures random >= 0.5 ==> Script(random) == ["Mac Button clicked", "Mac Window opened"]
  {
  }
}
