/** The Iterator command: an aggregate of numbers and an iterator over it
    that keeps an index into the live aggregate. */
module Iterator {
  import opened LeafCommand
  import opened Wrappers
  import Text

  class ConcreteAggregate {
    var items: seq<int>

    constructor ()
      ensures items == []
    {
      items := [];
    }

    method AddItem(item: int)
      modifies this
      ensures items == old(items) + [item]
    {
      items := items + [item];
    }

    /** `getItem`: the item at `index`, or `undefined` (None) outside the list. */
    function GetItem(index: int): (r: Option<int>)
      reads this
      ensures r.Some? <==> 0 <= index < |items|
      ensures r.Some? ==> r.value == items[index]
    {
      if 0 <= index < |items| then Some(items[index]) else None
    }

    /** `createIterator`: a new iterator on this aggregate, at index 0. */
    method CreateIterator() returns (it: ConcreteIterator)
      ensures fresh(it) && it.aggregate == this && it.index == 0
    {
      it := new ConcreteIterator(this);
    }
  }

  class ConcreteIterator {
    const aggregate: ConcreteAggregate
    var index: nat

    constructor (aggregate: ConcreteAggregate)
      ensures this.aggregate == aggregate && index == 0
    {
      this.aggregate := aggregate;
      index := 0;
    }

    /** `hasNext`: compares with the aggregate's length at the time of the
        call, so it holds exactly when `next` would return an item rather
        than `undefined`. */
    function HasNext(): (b: bool)
      reads this, aggregate
      ensures b <==> aggregate.GetItem(index).Some?
    {
      index < |aggregate.items|
    }

    /** `next`: the item at the index (`undefined` past the end), then the
        index moves on by one in either case. */
    method Next() returns (r: Option<int>)
      modifies this
      ensures index == old(index) + 1
      ensures r == aggregate.GetItem(old(index))
    {
      r := aggregate.GetItem(index);
      index := index + 1;
    }
  }

  /** `while (iterator.hasNext()) console.log(iterator.next())`: the items
      from the iterator's position to the end, in order. */
  method Drain(it: ConcreteIterator) returns (values: seq<int>)
    modifies it
    ensures old(it.index) <= |it.aggregate.items| ==>
      values == it.aggregate.items[old(it.index)..] && it.index == |it.aggregate.items|
    ensures old(it.index) > |it.aggregate.items| ==> values == [] && it.index == old(it.index)
  {
    values := [];
    ghost var start := it.index;
    while it.HasNext()
      invariant start <= |it.aggregate.items| ==> start <= it.index <= |it.aggregate.items|
      invariant start <= |it.aggregate.items| ==> values == it.aggregate.items[start..it.index]
      invariant start > |it.aggregate.items| ==> values == [] && it.index == start
      decreases |it.aggregate.items| - it.index
    {
      var v := it.Next();
      values := values + [v.value];
    }
  }

  /** The iterator reads the live aggregate: an item added after the
      iterator was created is still visited. */
  method IteratorSeesLaterItems(item: int) returns (values: seq<int>)
    ensures values == [item]
  {
    var aggregate := new ConcreteAggregate();
    var it := aggregate.CreateIterator();
    aggregate.AddItem(item);
    values := Drain(it);
  }

  /** Draining from the start visits every item exactly once, in order. */
  method DrainFromStart(aggregate: ConcreteAggregate) returns (values: seq<int>)
    ensures values == aggregate.items
  {
    var it := aggregate.CreateIterator();
    values := Drain(it);
  }

  /** How `console.log` prints each number. */
  function Render(values: seq<int>): (lines: seq<string>)
    ensures |lines| == |values|
    ensures forall k :: 0 <= k < |values| ==> lines[k] == Text.IntToString(values[k])
  {
    if |values| == 0 then [] else [Text.IntToString(values[0])] + Render(values[1..])
  }

  /** What `exec` prints: 1 to 4 added, then drained. */
  method Exec() returns (printed: seq<string>)
    ensures printed == ["1", "2", "3", "4"]
  {
    var aggregate := new ConcreteAggregate();
    aggregate.AddItem(1);
    aggregate.AddItem(2);
    aggregate.AddItem(3);
    aggregate.AddItem(4);
    var values := DrainFromStart(aggregate);
    printed := Render(values);
  }

  const DescriptionText: string := "[description] Iterator"
  const ExampleCodeText: string := "[example code] Iterator"

  /** The flow chart is not written yet: always the empty string. */
  function FlowChart(): string {
    ""
  }

  /** The demonstration's output as a value (established by `Exec`). */
  const DemoLines: seq<string> := ["1", "2", "3", "4"]

  function Texts(): LeafTexts {
    LeafTexts(DescriptionText, FlowChart(), ExampleCodeText, Returns(DemoLines))
  }

  /** `run`: the output-selection loop, running the demonstration's objects. */
  method Run(outputs: seq<OutputChoice>) returns (r: LeafResult)
    ensures r == LeafOutput(outputs, Texts())
  {
    var demo := Exec();
    r := HandleOutputs(outputs, LeafTexts(DescriptionText, FlowChart(), ExampleCodeText, Returns(demo)));
  }
}
