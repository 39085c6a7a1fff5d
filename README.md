# Design-pattern teaching CLI, modelled in Dafny

The program is an interactive command line for learning the Gang-of-Four
design patterns. A main menu offers three categories. Each category menu
offers a list of patterns. Each pattern command then offers a checkbox list
of outputs: `help`, `exec`, `description`, `flow-chart` and `example-code`.
Choosing `exec` runs a small demonstration of the pattern that prints to the
console.

This project models that program's logic and proves properties of it:

- **The output-selection loop** shared by every pattern command
  (`LeafCommand`). `help` and `exec` print at once. The three text outputs
  are buffered and printed after the loop. A demonstration that recurses
  until the call stack overflows, such as the mediator's, drops the buffer.
- **Each pattern's demonstration**, one module per pattern. Each one models
  the demonstration's objects: decorator wrapping, the flyweight cache, the
  observer list, the iterator cursor, the memento caretaker, the interpreter's
  expression tree, the chain of handlers, the composite tree, the state
  toggle, the builder's parts list, the prototype clone, and the delegation in
  facade, bridge, proxy, adapter, command, strategy, visitor and template
  method. Each module also pins down the exact lines its `exec` prints.
  Objects the source updates in place are classes whose methods state the new
  state. Objects only built and queried are datatypes.
- **The standalone creational scripts**: abstract factory, factory method and
  builder.
- **The menus**: the main menu, the three category menus and the two earlier
  category menus. Each maps an answer string to what it runs.
- **The help tables**, current and earlier, which are partial maps from
  (level, key) to text.
- **The stage configuration**: the `STAGE` environment variable check in
  `BaseEnv` and in the `EnvVar` property decorator, and the getter that
  decorator defines.

Console output is a returned `seq<string>`, one element per `console.log`
call. A thrown error is the `Failure` case of a `Result`. JavaScript's
`undefined` is `None`. Answers to prompts and environment variables are
parameters.

A few behaviours of the code are easy to miss; the model follows the
code:

- The main menu's fallback for an answer it does not list only writes a
  debug log. It shows no help.
- The menu titled "structural" lists chain of responsibility, command,
  interpreter, iterator, mediator, memento, observer and state. The one
  titled "behavioral" lists adapter, bridge, composite, decorator, facade,
  flyweight and proxy. Strategy, template method and visitor have commands,
  but no menu lists them.
- The memento demonstration prints `undefined`, because it logs the result
  of `restoreFromMemento`, which returns nothing.
- The mediator demonstration does not finish. Each colleague's action
  triggers the other's, so the calls nest until the call stack overflows. The
  `RangeError` escapes the loop and `run`, and the buffered texts are lost.

## Model

| member | source | states |
|---|---|---|
| LeafCommand.HandleOutputs | src/design/behavioral/facade/index.ts:47-66 | The loop's result is `LeafOutput`. `help` and `exec` print at once, in order. `description`, `flow-chart` and `example-code` are printed after the loop, in selection order. An `exec` whose demonstration recurses without bound ends the command there. |
| LeafCommand.Flush | src/design/behavioral/facade/index.ts:66 | After the loop, the buffered texts are printed once each, in buffer order, after everything already printed. |
| LeafCommand.ImmediateTraceAppend | src/design/behavioral/facade/index.ts:49-56 | Walking two selections one after the other prints at once what each prints, in that order. |
| LeafCommand.FirstIndex | src/design/behavioral/facade/index.ts:53-56 | The position it returns holds the first `exec`, and no earlier position holds one. |
| LeafCommand.BufferedChoices | src/design/behavioral/facade/index.ts:57-63 | Only `description`, `flow-chart` and `example-code` are buffered. |
| LeafCommand.BufferFollowsSelectionOrder | src/design/behavioral/facade/index.ts:57-66 | The k-th buffered line is the text of the k-th buffered choice. The buffer holds one line per buffered choice. |
| LeafCommand.HelpAndExecNeverBuffered | src/design/behavioral/facade/index.ts:50-63 | `help` and `exec` add nothing to the buffer. The buffered choices print nothing at once. |
| LeafCommand.HelpPrintedBeforeBuffer | src/design/behavioral/facade/index.ts:49-66 | The `help` line comes out before every buffered text, wherever `help` stands in the selection. |
| LeafCommand.EmptySelectionPrintsNothing | src/design/behavioral/facade/index.ts:49-66 | An empty selection prints nothing with `console.log`. When `STAGE` is `local`, the unmodelled debug line of the answers still reaches the terminal. |
| LeafCommand.HelpOnlyPrintsFixedLine | src/design/behavioral/facade/index.ts:50-52 | `help` prints only its fixed line. It never consults a help table. |
| LeafCommand.ExecOnlyRunsDemoOnce | src/design/behavioral/facade/index.ts:53-56 | `exec` prints its fixed line and then the demonstration's output, once. |
| LeafCommand.DescriptionThenExampleCode | src/design/behavioral/facade/index.ts:57-66 | Buffered texts come out in selection order after the loop. |
| LeafCommand.DivergenceDropsBuffer | src/design/structural/mediator/index.ts:49-66 | When the demonstration recurses without bound, the output is the immediate lines up to `exec` and then the repeated cycle. The buffer is never printed. |
| Facade.Lines | src/design/behavioral/facade/index.ts:154-180 | One line per subsystem call, in call order. |
| Facade.ListenToRadio | src/design/behavioral/facade/index.ts:198-202 | The radio request switches the amplifier on first and sets volume 5 last. It tunes to the requested station, to no other station, and never plays a CD or switches the amplifier off. |
| Facade.ListenToCD | src/design/behavioral/facade/index.ts:204-208 | The CD request switches the amplifier on first and sets volume 5 last. It plays the requested CD, no other CD, and never tunes the radio or switches the amplifier off. |
| Facade.TurnOff | src/design/behavioral/facade/index.ts:210-212 | `turnOff` switches the amplifier off and makes no other call. |
| Facade.ListeningRequestsShareTheirFrame | src/design/behavioral/facade/index.ts:198-212 | Both listening requests switch the amplifier on first and set volume 5 last. They differ only in the middle call, the tuner or the CD player. `turnOff` only switches the amplifier off. |
| Facade.ExecPrints | src/design/behavioral/facade/index.ts:215-219 | The demonstration prints its eight lines in order. |
| Facade.Run | src/design/behavioral/facade/index.ts:42-67 | `run` is the shared loop on the facade's texts and demonstration. |
| Flyweight.TextStyle.constructor | src/design/behavioral/flyweight/index.ts:139-143 | The fields hold the given color, size and family. |
| Flyweight.TextStyleFactory.constructor | src/design/behavioral/flyweight/index.ts:151 | The cache starts empty. |
| Flyweight.StyleKey | src/design/behavioral/flyweight/index.ts:154 | The cache key is the color, `-`, the size in decimal, `-` and the family: each part can be read back from its place in the key. |
| Flyweight.TextStyleFactory.GetStyle | src/design/behavioral/flyweight/index.ts:153-159 | Afterwards the key maps to the returned style. A cached key leaves the cache unchanged. A new key adds exactly one fresh style with the requested attributes. |
| Flyweight.EqualKeysShareInstance | src/design/behavioral/flyweight/index.ts:153-159 | Two consecutive requests with equal keys return the same object. |
| Flyweight.KeyIsNotInjective | src/design/behavioral/flyweight/index.ts:154 | Different attribute triples can produce the same `color-size-family` key. |
| Flyweight.CollidingKeyReturnsEarlierStyle | src/design/behavioral/flyweight/index.ts:154-158 | When keys collide, the later request gets the style created for the earlier attributes. |
| Flyweight.Exec | src/design/behavioral/flyweight/index.ts:162-172 | The demonstration prints `true`, `false`, then the red and the blue style lines. |
| Flyweight.Run | src/design/behavioral/flyweight/index.ts:47-70 | `handler` is the shared loop on the flyweight's texts and demonstration. |
| Decorator.Closing | src/design/behavioral/decorator/index.ts:144-154 | The closing part is exactly n `)` characters. |
| Decorator.Operation | src/design/behavioral/decorator/index.ts:128-154 | The bare component prints `ConcreteComponent`, and it is the only component that does. Each decorator adds exactly 20 characters: its name, `(` and `)`. |
| Decorator.OperationShape | src/design/behavioral/decorator/index.ts:128-154 | `operation` is the decorator names, each followed by `(`, outermost first, then `ConcreteComponent`, then one `)` per decorator. |
| Decorator.BalancedParentheses | src/design/behavioral/decorator/index.ts:144-154 | The result holds as many `(` as `)`, each equal to the number of decorators. |
| Decorator.ExecPrints | src/design/behavioral/decorator/index.ts:156-163 | The demonstration prints the bare component, then with A, then with B around A. |
| Decorator.Run | src/design/behavioral/decorator/index.ts:42-67 | `run` is the shared loop on the decorator's texts and demonstration. |
| Bridge.SwappingImplementationChangesOnlyColor | src/design/behavioral/bridge/index.ts:138-176 | The same circle drawn through the red and the green implementation differs only in the color name. The two lines differ. |
| Bridge.DrawCircle | src/design/behavioral/bridge/index.ts:138-148 | An implementation prints `Drawing Circle[ color: `, its own color name, then the radius, x and y it was given, in that order. |
| Bridge.Draw | src/design/behavioral/bridge/index.ts:174-176 | A circle prints its implementation's color name, then its own radius, x and y, in that order, whatever order the constructor took them in. |
| Bridge.DemoLine | src/design/behavioral/bridge/index.ts:174-176 | Both demonstration circles, at (100, 100) with radius 10, print their implementation's color name, then `radius: 10, x: 100, y: 100`. |
| Bridge.ExecPrints | src/design/behavioral/bridge/index.ts:179-183 | The demonstration prints the red circle line, then the green one. |
| Bridge.Run | src/design/behavioral/bridge/index.ts:39-64 | `run` is the shared loop on the bridge's texts and demonstration. |
| Command.Execute | src/design/structural/command/index.ts:168-190 | Executing prints one line. It is `Light is ON` exactly for the turn-on command and `Light is OFF` exactly for the turn-off command. |
| Command.PressButton | src/design/structural/command/index.ts:199-201 | Pressing the button prints exactly what executing the stored command prints, and what no other command prints. |
| Command.PressAll | src/design/structural/command/index.ts:199-210 | Pressing several remotes prints one line per press, in press order, each the light line of that remote's command. |
| Command.ExecPrints | src/design/structural/command/index.ts:204-210 | The demonstration prints `Light is ON` then `Light is OFF`. |
| Command.Run | src/design/structural/command/index.ts:42-67 | `run` is the shared loop on the command pattern's texts and demonstration. |
| Proxy.RefusedAccessNeverReachesSubject | src/design/behavioral/proxy/index.ts:152-157 | A refused access check prints only its own line and never reaches the real subject. |
| Proxy.CheckAccess | src/design/behavioral/proxy/index.ts:159-162 | The access check always grants access, after printing its one checking line. |
| Proxy.Request | src/design/behavioral/proxy/index.ts:139-157 | The real subject prints its one handling line. A proxy prints the checking line first and the logging line last, around at least one line. |
| Proxy.ProxyRequest | src/design/behavioral/proxy/index.ts:152-157 | The check's lines always come first. A refused check prints nothing more. A granted one adds at least two lines, the last of them the logging line. `ProxyFramesRequest` gives the exact output. |
| Proxy.ProxyFramesRequest | src/design/behavioral/proxy/index.ts:152-166 | Through the proxy, the subject's output appears once. The access-check line comes before it and the log line after it. |
| Proxy.NestedProxiesForwardOnce | src/design/behavioral/proxy/index.ts:145-166 | n nested proxies print 2n+1 lines. The real subject's line appears exactly once. |
| Proxy.ExecPrints | src/design/behavioral/proxy/index.ts:169-175 | The demonstration prints its six lines in order. |
| Proxy.Run | src/design/behavioral/proxy/index.ts:48-71 | `handler` is the shared loop on the proxy's texts and demonstration. |
| GuiFactory.FactoryProductsAreOneFamily | design/creational/abstract-factory/index.ts:49-71 | Every factory creates a button and a window of one platform. A matching pair comes from a factory, and a mixed pair from none. |
| GuiFactory.CreateButton | design/creational/abstract-factory/index.ts:49-71 | A factory creates the Windows button exactly when it is the Windows factory. |
| GuiFactory.CreateWindow | design/creational/abstract-factory/index.ts:49-71 | A factory creates the Windows window exactly when it is the Windows factory. |
| GuiFactory.BuildGUI | design/creational/abstract-factory/index.ts:74-80 | `buildGUI` prints the factory's button click, then its window open, and the two come from one platform. |
| GuiFactory.BuildGUIFollowsFactory | design/creational/abstract-factory/index.ts:74-80 | `buildGUI` prints two lines. They are the Windows pair exactly for the Windows factory and the Mac pair exactly for the Mac factory. |
| GuiFactory.ChooseFactory | design/creational/abstract-factory/index.ts:82 | The script picks the Windows factory exactly when the draw is below 0.5. |
| GuiFactory.ScriptPrints | design/creational/abstract-factory/index.ts:82-83 | The script prints the Windows pair for a draw below 0.5 and the Mac pair otherwise, never a mix. |
| AbstractFactory.ExecPrintsDrawnPlatform | src/design/creational/abstract-factory/index.ts:157-166 | Choosing `exec` prints the selection line, then the GUI of the platform the draw selects. |
| AbstractFactory.Run | src/design/creational/abstract-factory/index.ts:42-67 | `run` is the shared loop on the abstract factory's texts and its demonstration for the draw. |
| Mediator.ConcreteMediator.constructor | src/design/structural/mediator/index.ts:118-121 | Both colleague slots start empty. |
| Mediator.ConcreteMediator.SetColleagueA | src/design/structural/mediator/index.ts:123-125 | Fills slot A and leaves slot B. |
| Mediator.ConcreteMediator.SetColleagueB | src/design/structural/mediator/index.ts:127-129 | Fills slot B and leaves slot A. |
| Mediator.ConcreteMediator.Notify | src/design/structural/mediator/index.ts:131-138 | `ActionA` reaches B exactly when B's slot is filled. `ActionB` reaches A exactly when A's slot is filled. Any other event reaches nobody. |
| Mediator.ConcreteMediator.Action | src/design/structural/mediator/index.ts:103-138 | Up to a call-depth bound, an action prints at most that many lines, its own line first. An action that has not ended by the bound has printed exactly that many. |
| Mediator.ActionEndsWithoutPartner | src/design/structural/mediator/index.ts:103-114 | With the other slot empty, an action prints its own line and ends. |
| Mediator.ActionsAlternate | src/design/structural/mediator/index.ts:103-138 | With both slots filled, an action does not end for any bound on the call depth. The k-th line belongs to the starter for even k and to the other colleague for odd k. |
| Mediator.ActionStep | src/design/structural/mediator/index.ts:104-107 | With both slots filled, a colleague's action prints its line and hands over to the other. |
| Mediator.Exec | src/design/structural/mediator/index.ts:142-149 | The demonstration's first call prints A and B lines alternately, starting with A, and has not ended after any number of lines. |
| Mediator.Run | src/design/structural/mediator/index.ts:42-67 | `run` is the shared loop. It finishes exactly when `exec` is not chosen. |
| Visitor.AcceptDispatchesOnElement | src/design/structural/visitor/index.ts:95-131 | `accept` prints the visitor's `Visiting` line for the element's own class, then that element's own operation. |
| Visitor.Accept | src/design/structural/visitor/index.ts:95-108 | `accept` prints two lines. The second is the element's own operation. |
| Visitor.VisitConcreteElementA | src/design/structural/visitor/index.ts:123-126 | Visiting A prints `Visiting ConcreteElementA`, then A's own operation. |
| Visitor.VisitConcreteElementB | src/design/structural/visitor/index.ts:128-131 | Visiting B prints `Visiting ConcreteElementB`, then B's own operation. |
| Visitor.AcceptAllPairsVisitWithOperation | src/design/structural/visitor/index.ts:96-131 | Visiting n elements prints 2n lines. Lines 2k and 2k+1 are the visit and operation lines of the k-th element. |
| Visitor.ExecPrints | src/design/structural/visitor/index.ts:135-140 | The demonstration prints the A pair, then the B pair. |
| Visitor.Run | src/design/structural/visitor/index.ts:48-71 | `handler` is the shared loop on the visitor's texts and demonstration. |
| TemplateMethod.SkeletonIsFixed | src/design/structural/template-method/index.ts:92-131 | Every beverage runs four steps. Steps 1 and 3 are the shared boiling and pouring. Two beverages differ exactly when steps 2 and 4 differ. |
| TemplateMethod.FinalProcedure | src/design/structural/template-method/index.ts:92-97 | Four steps: boiling, the beverage's brew, pouring, then the beverage's condiments. |
| TemplateMethod.ExecPrints | src/design/structural/template-method/index.ts:134-138 | The demonstration prints coffee's four steps, then tea's. |
| TemplateMethod.Run | src/design/structural/template-method/index.ts:48-71 | `handler` is the shared loop on the template method's texts and demonstration. |
| Adapter.AdapterKeepsMessage | src/design/behavioral/adapter/index.ts:114-133 | The adapter prints one line: the old printer's prefix followed by the message, unchanged. |
| Adapter.PrintOld | src/design/behavioral/adapter/index.ts:115-117 | The old printer prints its prefix followed by the message, unchanged and nothing after it. |
| Adapter.Print | src/design/behavioral/adapter/index.ts:131-133 | The adapter prints exactly one line, the old printer's line for the same message. |
| Adapter.AdapterIsInjective | src/design/behavioral/adapter/index.ts:131-133 | Two messages print the same line exactly when they are equal. |
| Adapter.ExecPrints | src/design/behavioral/adapter/index.ts:136-139 | The demonstration prints the old method's line for `Hello, World!`. |
| Adapter.Run | src/design/behavioral/adapter/index.ts:47-70 | `handler` is the shared loop on the adapter's texts and demonstration. |
| Memento.Originator.constructor | src/design/structural/memento/index.ts:97 | The state starts as `null`. |
| Memento.Originator.SetState | src/design/structural/memento/index.ts:99-101 | Sets the state. |
| Memento.Originator.SaveToMemento | src/design/structural/memento/index.ts:103-106 | Throws `Not found state` exactly when the state is falsy (null or empty). Otherwise the memento holds the current state. |
| Memento.Originator.RestoreFromMemento | src/design/structural/memento/index.ts:108-110 | The state becomes the memento's state. The method returns nothing, which `exec` prints as `undefined`. |
| Memento.Caretaker.constructor | src/design/structural/memento/index.ts:119 | The list starts empty. |
| Memento.Caretaker.AddMemento | src/design/structural/memento/index.ts:121-123 | Appends the memento at the end. |
| Memento.Caretaker.GetMemento | src/design/structural/memento/index.ts:125-127 | Yields the memento at the index exactly when the index is in range, and `undefined` otherwise. |
| Memento.SaveChangeRestore | src/design/structural/memento/index.ts:99-110 | Saving, changing and restoring brings back the saved state. |
| Memento.AddThenGet | src/design/structural/memento/index.ts:121-127 | Adding a memento keeps every earlier index and puts the new one at the end. |
| Memento.Exec | src/design/structural/memento/index.ts:131-142 | The demonstration prints `undefined` while the originator's state is back to `State1`. |
| Memento.Run | src/design/structural/memento/index.ts:42-67 | `run` is the shared loop on the memento's texts and demonstration. |
| Observer.ConcreteObserver.constructor | src/design/structural/observer/index.ts:124-129 | The observer keeps its name. |
| Observer.ConcreteObserver.Update | src/design/structural/observer/index.ts:131-133 | The line starts with the observer's name and ends with the message, with ` received message: ` between them. |
| Observer.RemoveFirst | src/design/structural/observer/index.ts:103-110 | Removing a present observer shortens the list by one; an absent one leaves its length. No observer is added. |
| Observer.Broadcast | src/design/structural/observer/index.ts:117-121 | Notifying prints one line per attached observer, in attach order. |
| Observer.RemoveFirstRemovesOneCopy | src/design/structural/observer/index.ts:103-110 | `detach` removes one occurrence of a present observer and leaves an absent one's list unchanged. |
| Observer.RemoveFirstAt | src/design/structural/observer/index.ts:103-110 | `detach` removes the first occurrence, at the index `indexOf` finds. |
| Observer.DetachUndoesAttach | src/design/structural/observer/index.ts:99-110 | Detaching an observer just attached, and not attached before, restores the list. |
| Observer.IndexOf | src/design/structural/observer/index.ts:105 | Returns -1 exactly when the observer is absent. Otherwise it returns the first index holding it. |
| Observer.ConcreteSubject.constructor | src/design/structural/observer/index.ts:95-97 | No observers and an empty message. |
| Observer.ConcreteSubject.Attach | src/design/structural/observer/index.ts:99-101 | Appends the observer. |
| Observer.ConcreteSubject.Detach | src/design/structural/observer/index.ts:103-110 | Removes the first occurrence, if any. |
| Observer.ConcreteSubject.Notify | src/design/structural/observer/index.ts:117-121 | Prints the broadcast of the current message to the current observers. |
| Observer.ConcreteSubject.SetMessage | src/design/structural/observer/index.ts:112-115 | Stores the message, then notifies every observer of it. |
| Observer.DetachedObserverHearsNothing | src/design/structural/observer/index.ts:103-121 | In a list without duplicates, a detached observer is gone and the broadcast loses exactly its line: the observers before and after it still print theirs, in the same order. |
| Observer.Exec | src/design/structural/observer/index.ts:137-147 | The demonstration prints the two observers' lines for `Hello, Observers!`. |
| Observer.Run | src/design/structural/observer/index.ts:42-67 | `run` is the shared loop on the observer's texts and demonstration. |
| Interpreter.Lookup | src/design/structural/interpreter/index.ts:129-131 | A variable reads its value from the context, or 0 when it is missing. |
| Interpreter.Interpret | src/design/structural/interpreter/index.ts:95-131 | In a context where every variable of the expression reads 0, the value is the sum of its numbers. |
| Interpreter.InterpretReadsOnlyFreeVars | src/design/structural/interpreter/index.ts:95-131 | Two contexts that agree on the expression's variables give the same value. |
| Interpreter.Close | src/design/structural/interpreter/index.ts:95-131 | Substituting the context's values leaves no variables. |
| Interpreter.ClosingPreservesValue | src/design/structural/interpreter/index.ts:95-131 | The closed expression has, in any context, the value the original has in its own. |
| Interpreter.AddCommutes | src/design/structural/interpreter/index.ts:117-119 | Swapping the operands of an addition does not change its value. |
| Interpreter.ExecPrints | src/design/structural/interpreter/index.ts:135-140 | The demonstration prints `12`. |
| Interpreter.Run | src/design/structural/interpreter/index.ts:47-70 | `handler` is the shared loop on the interpreter's texts and demonstration. |
| ChainOfResponsibility.SetNext | src/design/structural/chain-of-responsibility/index.ts:90-93 | Links the handler to the next one and returns the next one. |
| ChainOfResponsibility.FirstHandler | src/design/structural/chain-of-responsibility/index.ts:102-120 | The first handler in the chain that accepts the request. None exactly when no handler accepts it. |
| ChainOfResponsibility.HandledByFirstMatching | src/design/structural/chain-of-responsibility/index.ts:95-120 | A request is answered by the first accepting handler along the chain, or by nobody. |
| ChainOfResponsibility.Handle | src/design/structural/chain-of-responsibility/index.ts:102-120 | A request prints at most one line. A handler that accepts the request prints its own line. Nothing is printed exactly when no handler along the chain accepts the request. |
| ChainOfResponsibility.ExecPrints | src/design/structural/chain-of-responsibility/index.ts:123-130 | The demonstration prints A's line and B's line. `requestC` prints nothing. |
| ChainOfResponsibility.Run | src/design/structural/chain-of-responsibility/index.ts:47-70 | `handler` is the shared loop on the chain's texts and demonstration. |
| Composite.Add | src/design/behavioral/composite/index.ts:133-135 | Appends the child at the end of the composite's children. |
| Composite.Operation | src/design/behavioral/composite/index.ts:124-142 | Prints the tree in pre-order: a composite's line, then each child's output in order. |
| Composite.Preorder | src/design/behavioral/composite/index.ts:124-142 | A node's output starts with its own line, the leaf line or the composite line. A leaf prints only that line. |
| Composite.OperateChildren | src/design/behavioral/composite/index.ts:139-141 | The loop over the children prints each child's whole output, one child after another in insertion order. |
| Composite.OneLinePerNode | src/design/behavioral/composite/index.ts:124-142 | One line per node. The first line is the root's. |
| Composite.AddAppendsChildOutput | src/design/behavioral/composite/index.ts:133-142 | After adding a child, the composite's output is the old output followed by the child's. |
| Composite.Exec | src/design/behavioral/composite/index.ts:145-153 | The demonstration prints the leaf's line, the composite's line and its two leaves' lines. |
| Composite.Run | src/design/behavioral/composite/index.ts:39-64 | `run` is the shared loop on the composite's texts and demonstration. |
| Iterator.ConcreteAggregate.constructor | src/design/structural/iterator/index.ts:116 | No items. |
| Iterator.ConcreteAggregate.AddItem | src/design/structural/iterator/index.ts:118-120 | Appends the item. |
| Iterator.ConcreteAggregate.GetItem | src/design/structural/iterator/index.ts:126-128 | The item at the index exactly when the index is in range, and `undefined` otherwise. |
| Iterator.ConcreteAggregate.CreateIterator | src/design/structural/iterator/index.ts:122-124 | A fresh cursor over this aggregate at index 0. |
| Iterator.ConcreteIterator.constructor | src/design/structural/iterator/index.ts:96-102 | The cursor starts at 0. |
| Iterator.ConcreteIterator.HasNext | src/design/structural/iterator/index.ts:104-106 | There is a next item exactly when the aggregate holds an item at the cursor. |
| Iterator.ConcreteIterator.Next | src/design/structural/iterator/index.ts:108-112 | Returns the item at the cursor and advances the cursor by one. |
| Iterator.Drain | src/design/structural/iterator/index.ts:142-144 | The `hasNext`/`next` loop yields the items from the cursor to the end, in order. |
| Iterator.IteratorSeesLaterItems | src/design/structural/iterator/index.ts:104-128 | The cursor reads the aggregate live, so items added after creation are seen. |
| Iterator.DrainFromStart | src/design/structural/iterator/index.ts:141-144 | A fresh cursor yields exactly the aggregate's items. |
| Iterator.Render | src/design/structural/iterator/index.ts:143 | One printed line per item, the item in decimal. |
| Iterator.Exec | src/design/structural/iterator/index.ts:135-144 | The demonstration prints 1, 2, 3, 4. |
| Iterator.Run | src/design/structural/iterator/index.ts:42-67 | `run` is the shared loop on the iterator's texts and demonstration. |
| Strategy.StrategiesAreDistinguishable | src/design/structural/strategy/index.ts:94-105 | The two strategies print different lines for any amount. |
| Strategy.Pay | src/design/structural/strategy/index.ts:94-105 | A payment line starts with `Paid ` and the amount in decimal and ends with the strategy's method name, with ` using ` between them. |
| Strategy.PaymentContext.constructor | src/design/structural/strategy/index.ts:111-113 | Stores the given strategy. |
| Strategy.PaymentContext.ExecutePayment | src/design/structural/strategy/index.ts:115-117 | Prints what the current strategy prints for the amount. |
| Strategy.PaymentContext.SetStrategy | src/design/structural/strategy/index.ts:119-121 | Replaces the strategy. |
| Strategy.SwitchStrategy | src/design/structural/strategy/index.ts:115-121 | A payment after switching uses the new strategy. The one before uses the old strategy. |
| Strategy.Exec | src/design/structural/strategy/index.ts:125-129 | The demonstration prints the credit-card line for 100, then the PayPal line for 200. |
| Strategy.Run | src/design/structural/strategy/index.ts:48-71 | `handler` is the shared loop on the strategy's texts and demonstration. |
| State.Next | src/design/structural/state/index.ts:121-125 | A request always moves to the other state. |
| State.Handle | src/design/structural/state/index.ts:92-104 | The handling line is `Handling in State ` followed by the state's letter, `A` or `B`. |
| State.After | src/design/structural/state/index.ts:118-126 | After n requests the state is the starting one exactly when n is even. |
| State.Context.constructor | src/design/structural/state/index.ts:110-112 | Starts in state A. |
| State.Context.SetState | src/design/structural/state/index.ts:114-116 | Replaces the state. |
| State.Context.Request | src/design/structural/state/index.ts:118-126 | Prints the current state's line, then toggles the state. |
| State.Context.RequestMany | src/design/structural/state/index.ts:118-126 | n requests print the lines of alternating states and leave the state toggled n times. |
| State.RequestsAlternate | src/design/structural/state/index.ts:118-126 | Consecutive requests print different lines. |
| State.Exec | src/design/structural/state/index.ts:130-132 | The demonstration prints A's line, then B's. |
| State.Run | src/design/structural/state/index.ts:47-70 | `handler` is the shared loop on the state pattern's texts and demonstration. |
| Prototype.ConcretePrototype.constructor | src/design/creational/prototype/index.ts:89-94 | Holds the given data. |
| Prototype.ConcretePrototype.SetData | src/design/creational/prototype/index.ts:96-98 | Replaces the data. |
| Prototype.ConcretePrototype.Clone | src/design/creational/prototype/index.ts:105-108 | A fresh object with the same data. |
| Prototype.CloneIsIndependent | src/design/creational/prototype/index.ts:116-121 | Changing the clone's data leaves the original's unchanged. |
| Prototype.Exec | src/design/creational/prototype/index.ts:112-121 | The demonstration prints the original's data, the clone's, the clone's new data and the original's unchanged data. |
| Prototype.Run | src/design/creational/prototype/index.ts:39-64 | `run` is the shared loop on the prototype's texts and demonstration. |
| FactoryMethod.CreatorDecidesProduct | src/design/creational/factory-method/index.ts:24-61 | Two factories' robots work differently exactly when the factories differ. Every robot comes from some factory. |
| FactoryMethod.CreateRobot | src/design/creational/factory-method/index.ts:46-61 | The assembler factory makes the assembler, and only it does. |
| FactoryMethod.Work | src/design/creational/factory-method/index.ts:24-39 | A robot reports `組立て中` exactly when it is the assembler. |
| FactoryMethod.ScriptPrints | src/design/creational/factory-method/index.ts:67-73 | The script prints `組立て中` then `修理中`. |
| Builder.Product.constructor | src/design/creational/builder/index.ts:2 | No parts. |
| Builder.Product.Add | src/design/creational/builder/index.ts:4-6 | Appends the part at the end. |
| Builder.Product.ListParts | src/design/creational/builder/index.ts:8-10 | The line is `Product parts: ` then the parts joined with `, `. With no parts it is the label alone. Otherwise the first part follows the label and the line ends with the last part. |
| Text.JoinEnds | src/design/creational/builder/index.ts:9 | A non-empty join starts with its first part and ends with its last. |
| Builder.ConcreteBuilder.constructor | src/design/creational/builder/index.ts:21 | A fresh product with no parts. |
| Builder.ConcreteBuilder.BuildPartA | src/design/creational/builder/index.ts:23-25 | Appends `PartA` to the product. |
| Builder.ConcreteBuilder.BuildPartB | src/design/creational/builder/index.ts:27-29 | Appends `PartB`. |
| Builder.ConcreteBuilder.BuildPartC | src/design/creational/builder/index.ts:31-33 | Appends `PartC`. |
| Builder.ConcreteBuilder.GetResult | src/design/creational/builder/index.ts:35-37 | Returns the builder's own product, not a copy. |
| Builder.Director.constructor | src/design/creational/builder/index.ts:43-45 | Keeps the builder. |
| Builder.Director.AllPartProduct | src/design/creational/builder/index.ts:47-51 | Appends `PartA`, `PartB`, `PartC` in that order. |
| Builder.Director.OnePartProduct | src/design/creational/builder/index.ts:53-55 | Appends only `PartA`. |
| Builder.ResultIsShared | src/design/creational/builder/index.ts:35-55 | Directing the same builder twice accumulates both runs' parts in the one product. |
| Builder.JoinParts | src/design/creational/builder/index.ts:8-10 | Joining with `, ` gives the listed part strings. |
| Builder.Script | src/design/creational/builder/index.ts:59-70 | The script prints the three-part product, then the one-part product. |
| HelpCommand.LookupFindsText | src/command/help/help.command.ts:42-95 | The current table has a text exactly for the three large categories and the nineteen listed patterns at the medium level. |
| HelpCommand.Lookup | src/command/help/help.command.ts:77-95 | A text found at the large level is for a category and at the medium level for a pattern. The large level gives the category's text; the medium level gives the pattern's entry, if any. |
| HelpCommand.MediumMessage | src/command/help/help.command.ts:51-74 | The medium table has no entry exactly for strategy, template method and visitor. |
| Text.Render | src/command/help/help.command.ts:97-99 | A present text prints as itself. The line is `undefined` exactly when the content is missing or is that word. |
| HelpCommand.ShowPrintsUndefinedIffMissing | src/command/help/help.command.ts:92-99 | `show` prints `undefined` exactly when the lookup found nothing. |
| HelpCommand.HelpCommand.constructor | src/command/help/help.command.ts:77-95 | The content is the table's entry for the level and key, if any. |
| HelpCommand.HelpCommand.Show | src/command/help/help.command.ts:97-99 | Prints the content once, as `undefined` when absent. |
| LegacyHelpCommand.LookupIsTotal | src/command/help.command.ts:15-46 | Every level has every category, so the lookup always finds a text, and that text is the table's entry. |
| LegacyHelpCommand.Lookup | src/command/help.command.ts:42-52 | A text is found exactly when the level has a table and the table has the category; it is that table's entry. |
| LegacyHelpCommand.NeverPrintsUndefined | src/command/help.command.ts:15-56 | `show` never prints `undefined`. The large level gives the same text as the current help command's large table. |
| LegacyHelpCommand.HelpCommand.constructor | src/command/help.command.ts:42-52 | The content is the table's entry for the level and category. |
| LegacyHelpCommand.HelpCommand.Show | src/command/help.command.ts:54-56 | Prints the content once. |
| Patterns.Name | src/command/help/help.command.ts:12-32 | Reading a pattern's answer string back gives that pattern. |
| Patterns.NameIsInjective | src/command/help/help.command.ts:12-32 | Two patterns share an answer string only if they are the same pattern. |
| Patterns.FromNameFindsOnlyOwnName | src/command/help/help.command.ts:12-32 | An answer string read as a pattern is that pattern's own name. |
| Menus.Dispatch | src/command/design/structural.command.ts:71-96 | An answer selects a pattern exactly when it is one of the listed names. The selected pattern is listed and carries that name. |
| Menus.Printed | src/command/design/structural.command.ts:97-102 | An action prints at most one line. Opening a category, running a pattern and doing nothing print nothing; printing a line prints exactly that line. |
| Menus.DispatchFindsListedPattern | src/command/design/structural.command.ts:71-96 | A pattern's own name selects that pattern exactly when the menu lists it. |
| Menus.NoPatternIsNamedHelp | src/command/design/structural.command.ts:97-99 | No pattern's answer string is `help`, so the `help` case never hides a pattern. |
| Menus.MenuHelpIsNeverUndefined | src/command/design/structural.command.ts:97-102 | The large help a menu shows, current or earlier, is never `undefined`. |
| MainCommand.Handler | src/command/main.command.ts:47-68 | A listed category opens its menu, and only then. `help` prints the fixed line, and only `help` does. An unlisted answer does nothing. |
| MainCommand.EveryCategoryIsReachable | src/command/main.command.ts:13-17 | Each category's name opens it. The default `help` is offered and prints the fixed line. |
| MainCommand.Run | src/command/main.command.ts:39-45 | Once the configuration has loaded, the debug reads cannot throw: the stage read is the one `STAGE` names, and `VERSION` reads the value it had at load. The handler's action follows. |
| MainCommand.Program | src/command/main.command.ts:4-45 | Importing the configuration fails exactly when the stage getter would, before any prompt. The error is the decorator's lower-case message, never the getter's; an unset `STAGE` gives `process.env.stage undefined`. Otherwise `run` dispatches the answer and keeps the loaded `VERSION`. |
| MainCommand.FailureIsIndependentOfAnswer | src/command/main.command.ts:4 | Whether, and how, the program fails at load depends only on `STAGE`, never on the answer or on `VERSION`. |
| CreationalCommand.Handler | src/command/design/creational.command.ts:50-68 | Each listed pattern name runs that pattern, and only a listed name does. `help` and every other answer show the large creational help. |
| CreationalCommand.EveryListedPatternIsReachable | src/command/design/creational.command.ts:12-62 | A pattern runs from its own name exactly when the menu lists it (choices at lines 32-38, switch at lines 50-62). The default `help` (lines 12-16) is offered and shows the help. |
| StructuralCommand.Handler | src/command/design/structural.command.ts:71-104 | Each listed pattern name runs that pattern, and only a listed name does. `help` and every other answer show the large structural help. |
| StructuralCommand.EveryListedPatternIsReachable | src/command/design/structural.command.ts:50-60 | A pattern runs from its own name exactly when the menu lists it. The default is offered and shows the help. |
| BehavioralCommand.Handler | src/command/design/behavioral.command.ts:52-82 | Each listed pattern name runs that pattern, and only a listed name does. `help` and every other answer show the large behavioral help. |
| BehavioralCommand.EveryListedPatternIsReachable | src/command/design/behavioral.command.ts:12-41 | A pattern runs from its own name exactly when the menu lists it. The default is offered and shows the help. |
| LegacyBehavioralCommand.Handler | src/command/behavioral.command.ts:46-64 | Only `adapter` runs a command. `abstract-factory`, `builder` and `prototype` do nothing. `help` and unlisted answers show the earlier large behavioral help. |
| LegacyBehavioralCommand.OnlyAdapterRuns | src/command/behavioral.command.ts:29-56 | The default is offered and shows the help. No answer runs a pattern other than the adapter. |
| LegacyCreationalCommand.Handler | src/command/creational.command.ts:39-53 | Only `factory-method` runs a command. `help` prints the fixed line. Every other answer, listed or not, does nothing. |
| LegacyCreationalCommand.HelpIsTheOnlyPrintingAnswer | src/command/creational.command.ts:28-53 | The default is offered and prints the fixed line. No other answer prints anything. |
| Navigation.ListedAtHome | src/command/design/structural.command.ts:50-60 | A menu lists a pattern exactly when that menu is the pattern's home. |
| Navigation.MenusPartitionThePatterns | src/command/design/creational.command.ts:32-38 | No pattern is listed by two menus: this list, the one at src/command/design/structural.command.ts:50-60 and the one at src/command/design/behavioral.command.ts:32-41. Exactly strategy, template method and visitor are listed by none. |
| Navigation.TwoAnswersRunAPattern | src/command/main.command.ts:48-60 | An answer that opens a category, followed by an answer to that category's menu, runs a pattern exactly when the second answer names a pattern that menu lists. |
| Navigation.CategoryMenuHelpHasText | src/command/design/behavioral.command.ts:75-80 | An answer that runs nothing shows the category's help, and that help has a text. |
| Navigation.MediumHelpCoversReachablePatterns | src/command/help/help.command.ts:51-74 | The medium help table has an entry exactly for the patterns some menu runs. |
| BaseEnv.Stage | src/configs/_base.config.ts:17-25 | Throws `process.env.STAGE undefined` exactly when `STAGE` is unset. An accepted value is a stage's name, read as that stage. A set value naming no stage throws the invalid-stage message. |
| BaseEnv.StageRoundTrip | src/configs/_base.config.ts:4-24 | Every stage's name is accepted and read back as that stage. |
| BaseEnv.ExactlyOneStageTestHolds | src/configs/_base.config.ts:27-37 | With a valid stage, exactly one of `isProd`, `isDev`, `isLocal` holds, the one naming the value. Otherwise all three throw the getter's error. |
| BaseEnv.IsProd | src/configs/_base.config.ts:27-29 | Throws exactly when the stage getter throws, with its error. Otherwise it holds exactly when `STAGE` is `prod`. |
| BaseEnv.IsDev | src/configs/_base.config.ts:31-33 | Throws exactly when the stage getter throws, with its error. Otherwise it holds exactly when `STAGE` is `dev`. |
| BaseEnv.IsLocal | src/configs/_base.config.ts:35-37 | Throws exactly when the stage getter throws, with its error. Otherwise it holds exactly when `STAGE` is `local`. |
| EnvDecorator.EnvVar | src/decorator/env.decorator.ts:9-33 | Applying the decorator succeeds exactly when `STAGE` names a stage, and fixes that stage. It throws the lower-case `stage` messages otherwise. |
| EnvDecorator.EnvVarAgreesWithStage | src/decorator/env.decorator.ts:10-15 | The decorator accepts the same values as the stage getter and fixes the same stage. Its error messages differ from the getter's. |
| EnvDecorator.Get | src/decorator/env.decorator.ts:20-22 | The option for the fixed stage when defined, else the default when defined, else `undefined`. |
| EnvDecorator.Set | src/decorator/env.decorator.ts:19 | An assignment leaves what the getter returns unchanged. |
| EnvDecorator.AssignmentsAreIgnored | src/decorator/env.decorator.ts:19 | Any number of assignments leave what the getter returns unchanged. |
| EnvDecorator.LoadEnvironment | src/configs/env.config.ts:5-6 | Loading `Environment` fails exactly when the stage getter would, with the decorator's lower-case messages and never the getter's. Once loaded, the getter reads the stage the decorator fixed, and `VERSION` reads the value `VERSION` had at load. |

## Left out

- Prompting: the `inquirer` prompts are not modelled. Each answer is a parameter of the handler that receives it.
- Logging and styling: debug logs, `chalk` styling and `i18next` messages are not modelled, and the styled texts are opaque constants. The logger's level is `debug` only when `STAGE` is `local` (src/libs/logger.ts:16), and its transport writes to the terminal. So in that stage the real output has extra debug lines between the modelled `console.log` lines. Examples are the stage and `VERSION` lines of the main menu and each command's answers line. In the other stages debug lines are not written.
- Pattern texts: the `description` and `example-code` bodies are long styled string literals. Each is a placeholder constant; only their order in the output is modelled. `flow-chart` is the empty string, as in the source.
- Random draw: `Math.random()` in the abstract-factory demonstration and script is a `real` parameter.
- Mediator.Exec: the demonstration's calls nest until the JavaScript call stack overflows with a `RangeError`. The model treats that as divergence: it yields the first `fuel` lines for every fuel and proves they alternate. The stack depth, and so the exact number of lines printed, is not modelled. The second call at line 150 is never reached, so it is not modelled.
- LeafCommand.DivergenceDropsBuffer: the stack overflow is modelled as divergence. The uncaught `RangeError`, and the unhandled promise rejection it leaves, are not modelled; the proven part is that nothing after `exec` and no buffered text is printed.
- Mediator.ConcreteMediator: each colleague slot is a boolean saying whether it is filled. The colleague objects themselves carry no state that reaches the output.
- Aliasing in linked demos: the chain of responsibility and the composite are modelled as values. Cycles and shared children, which the demonstrations never build, are not captured.
- Numbers: JavaScript numbers are `int`. Fractions, `NaN` and float rounding are not modelled. Amounts and sizes print through a decimal rendering of integers.
- Object identity in the flyweight demo: `style1 === style3` is modelled as reference equality of the objects the cache returns.
- Menu targets: `RunPattern(p)`, and every Navigation row built on it, means that the menu dispatches to `p`'s command. The arguments passed to that command's constructor are not modelled, and some of them do not match the constructor they call. As written, the following calls do not run the pattern's loop, and a type checker rejects their arity:
  - `new Bridge(this.p, this.logger)` and `new Composite(this.p, this.logger)` in the behavioral menu (src/command/design/behavioral.command.ts:58, :61), and `new Prototype(this.p, this.logger)` in the creational menu (src/command/design/creational.command.ts:61), call constructors that take only `(logger)` (src/design/behavioral/bridge/index.ts:20). The prompt function becomes the logger, so as plain JavaScript the prompt is asked and then `this.logger.debug` throws a `TypeError`.
  - `new Proxy(this.p, this.logger)` (src/command/design/behavioral.command.ts:73) calls a constructor that takes `(p, c, logger)` (src/design/behavioral/proxy/index.ts:20-24). The logger becomes the `chalk` instance, so `this.c.bold` throws a `TypeError` in the constructor.
  - The earlier behavioral menu's `new Adapter(this.logger)` (src/command/behavioral.command.ts:49) calls a constructor that takes `(p, logger)` (src/design/behavioral/adapter/index.ts:20-23). The logger becomes the prompt function, so `this.p(this.question)` throws a `TypeError`.
- Earlier creational menu: `factory-method` imports a `FactoryMethod` command class that is not part of this model. The standalone factory-method script stands in for it.
- Help content: `CREATIONAL_DESC` lives in src/configs/constructor.config.ts. It appears as a constant with its text.
- Main menu: the stage and `VERSION` debug lines reach the terminal only when `STAGE` is `local`. They are not modelled as output, so in that stage the real output has two extra lines. The model keeps the stage and `VERSION` they read.
- Module loading: importing the configuration is the program's first step. Any other module-level code that runs before it is not modelled.
