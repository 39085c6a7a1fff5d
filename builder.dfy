/** The builder script: a director drives a builder through a fixed series
    of steps, and the builder's product lists the parts it received. */
module Builder {
  import Text

  class Product {
    var parts: seq<string>

    constructor ()
      ensures parts == []
    {
      parts := [];
    }

    method Add(part: string)
      modifies this
      ensures parts == old(parts) + [part]
    {
      parts := parts + [part];
    }

    /** `listParts`: the line it prints, the fixed label and then the parts
        from the first added to the last. */
    function ListParts(): (line: string)
      reads this
      ensures |line| == 15 + |Text.Join(parts, ", ")| && line[..15] == "Product parts: "
      ensures parts == [] ==> line == "Product parts: "
      ensures parts != [] ==> |line| >= 15 + |parts[0]| && line[15..15 + |parts[0]|] == parts[0]
      ensures parts != [] ==> line[|line| - |parts[|parts| - 1]|..] == parts[|parts| - 1]
    {
      Text.JoinEnds(parts, ", ");
      "Product parts: " + Text.Join(parts, ", ")
    }
  }

  class ConcreteBuilder {
    /** The one product this builder fills; `getResult` returns it itself. */
    const product: Product

    constructor ()
      ensures fresh(product) && product.parts == []
    {
      product := new Product();
    }

    method BuildPartA()
      modifies product
      ensures product.parts == old(product.parts) + ["PartA"]
    {
      product.Add("PartA");
    }

    method BuildPartB()
      modifies product
      ensures product.parts == old(product.parts) + ["PartB"]
    {
      product.Add("PartB");
    }

    method BuildPartC()
      modifies product
      ensures product.parts == old(product.parts) + ["PartC"]
    {
      product.Add("PartC");
    }

    method GetResult() returns (p: Product)
      ensures p == product
    {
      p := product;
    }
  }

  class Director {
    const builder: ConcreteBuilder

    constructor (builder: ConcreteBuilder)
      ensures this.builder == builder
    {
      this.builder := builder;
    }

    /** `allPartProduct`: parts A, B and C, in that order. */
    method AllPartProduct()
      modifies builder.product
      ensures builder.product.parts == old(builder.product.parts) + ["PartA", "PartB", "PartC"]
    {
      builder.BuildPartA();
      builder.BuildPartB();
      builder.BuildPartC();
    }

    /** `onePartProduct`: part A only. */
    method OnePartProduct()
      modifies builder.product
      ensures builder.product.parts == old(builder.product.parts) + ["PartA"]
    {
      builder.BuildPartA();
    }
  }

  /** `getResult` hands out the builder's own product, not a copy: a result
      taken before more steps shows those steps too. */
  method ResultIsShared() returns (parts: seq<string>)
    ensures parts == ["PartA", "PartA", "PartB", "PartC"]
  {
    var builder := new ConcreteBuilder();
    var director := new Director(builder);
    director.OnePartProduct();
    var early := builder.GetResult();
    director.AllPartProduct();
    parts := early.parts;
  }

  /** Joining puts the separator exactly between neighbours. */
  lemma JoinParts()
    ensures Text.Join(["PartA"], ", ") == "PartA"
    ensures Text.Join(["PartA", "PartB", "PartC"], ", ") == "PartA, PartB, PartC"
  {
    Text.JoinSnoc(["PartA"], "PartB", ", ");
    Text.JoinSnoc(["PartA", "PartB"], "PartC", ", ");
    assert ["PartA"] + ["PartB"] == ["PartA", "PartB"];
    assert ["PartA", "PartB"] + ["PartC"] == ["PartA", "PartB", "PartC"];
    assert "PartA" + ", " + "PartB" == "PartA, PartB";
    assert "PartA, PartB" + ", " + "PartC" == "PartA, PartB, PartC";
  }

  /** What the script prints: the full product, then the one-part product. */
  method Script() returns (printed: seq<string>)
    ensures printed == ["Product parts: PartA, PartB, PartC", "Product parts: PartA"]
  {
    var builder := new ConcreteBuilder();
    var director := new Director(builder);
    director.AllPartProduct();
    var product := builder.GetResult();
    assert product.parts == ["PartA", "PartB", "PartC"];
    JoinParts();
    FullProductLine();
    printed := [product.ListParts()];

    var builder2 := new ConcreteBuilder();
    var director2 := new Director(builder2);
    director2.OnePartProduct();
    var product2 := builder2.GetResult();
    assert product2.parts == ["PartA"];
    assert "Product parts: " + "PartA" == "Product parts: PartA";
    printed := printed + [product2.ListParts()];
  }

  lemma FullProductLine()
    ensures "Product parts: " + "PartA, PartB, PartC" == "Product parts: PartA, PartB, PartC"
  {
  }
}
