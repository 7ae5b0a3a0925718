/** The fluent builder of generic data trees (`DataElementBuilder.RootBuilder`). Each call
    returns the builder itself in Java; here it returns the builder holding the extended tree. */
module DataElementBuilder {
  import opened Wrappers
  import opened DataElements
  import opened Text
  import opened Seqs

  datatype RootBuilder = RootBuilder(element: DataElement)

  /** `root(name)`. */
  function Root(name: string): RootBuilder {
    RootBuilder(Named(name))
  }

  /** `addValue(name, value)`: adds a new leaf child; the value may be null. */
  function AddValue(b: RootBuilder, name: string, value: Option<string>): RootBuilder {
    RootBuilder(AddChild(b.element, WithValue(name, value)))
  }

  /** `addChild(dataElement)`: adds an already built subtree. */
  function AddSubtree(b: RootBuilder, e: DataElement): RootBuilder {
    RootBuilder(AddChild(b.element, e))
  }

  /** `build()`: the root node itself. */
  function Build(b: RootBuilder): DataElement {
    b.element
  }

  /** One call of a builder chain. */
  datatype Step = ValueStep(name: string, value: Option<string>) | SubtreeStep(subtree: DataElement)

  function Apply(b: RootBuilder, step: Step): RootBuilder {
    match step
    case ValueStep(n, v) => AddValue(b, n, v)
    case SubtreeStep(e) => AddSubtree(b, e)
  }

  /** The child a step contributes. */
  function StepChild(step: Step): DataElement {
    match step
    case ValueStep(n, v) => WithValue(n, v)
    case SubtreeStep(e) => e
  }

  function StepChildren(steps: seq<Step>): (cs: seq<DataElement>)
    ensures |cs| == |steps|
  {
    if |steps| == 0 then [] else [StepChild(steps[0])] + StepChildren(steps[1..])
  }

  /** A chain of calls, applied left to right. */
  function Chain(b: RootBuilder, steps: seq<Step>): RootBuilder
    decreases |steps|
  {
    if |steps| == 0 then b else Chain(Apply(b, steps[0]), steps[1..])
  }

  /** Every call appends exactly one child after the existing ones and touches nothing else. */
  lemma StepAppendsOne(b: RootBuilder, step: Step)
    ensures Build(Apply(b, step)) == Build(b).(children := Build(b).children + [StepChild(step)])
    ensures step.ValueStep? ==> StepChild(step) == DataElement(step.name, step.value, [])
  {
  }

  /** A chain of calls keeps the root's name and value and appends one child per call,
      in call order, after the children already present. */
  lemma {:induction false} ChainAppends(b: RootBuilder, steps: seq<Step>)
    ensures Build(Chain(b, steps)).name == Build(b).name
    ensures Build(Chain(b, steps)).value == Build(b).value
    ensures Build(Chain(b, steps)).children == Build(b).children + StepChildren(steps)
    decreases |steps|
  {
    if |steps| > 0 {
      StepAppendsOne(b, steps[0]);
      ChainAppends(Apply(b, steps[0]), steps[1..]);
      assert StepChildren(steps) == [StepChild(steps[0])] + StepChildren(steps[1..]);
    }
  }

  /** `root(name)` followed by a chain of calls and `build()`: a valueless root whose
      children are exactly the calls' children, in call order. */
  lemma ChainFromRoot(name: string, steps: seq<Step>)
    ensures Build(Chain(Root(name), steps)) == DataElement(name, None, StepChildren(steps))
  {
    ChainAppends(Root(name), steps);
  }

  // The data-element dump example: a root with two values and a nested address subtree.

  const X := DataElement("x", Some("10"), [])
  const Y := DataElement("y", Some("10"), [])
  const GEOLOCATION := DataElement("geolocation", None, [X, Y])
  const CITY := DataElement("city", Some("Oslo"), [])
  const POSTCODE := DataElement("postcode", Some("0657"), [])
  const ADDRESS := DataElement("address", None, [CITY, POSTCODE, GEOLOCATION])
  const NAME := DataElement("name", Some("Rune"), [])
  const SEX := DataElement("sex", Some("Male"), [])
  const EXAMPLE := DataElement("root", None, [NAME, SEX, ADDRESS])

  /** The builder chains of the example produce the example tree. */
  lemma ExampleBuilt()
    ensures Build(Chain(Root("geolocation"), [ValueStep("x", Some("10")), ValueStep("y", Some("10"))])) == GEOLOCATION
    ensures Build(Chain(Root("address"), [ValueStep("city", Some("Oslo")), ValueStep("postcode", Some("0657")),
                                          SubtreeStep(GEOLOCATION)])) == ADDRESS
    ensures Build(Chain(Root("root"), [ValueStep("name", Some("Rune")), ValueStep("sex", Some("Male")),
                                       SubtreeStep(ADDRESS)])) == EXAMPLE
  {
    var s1 := [ValueStep("x", Some("10")), ValueStep("y", Some("10"))];
    ChainFromRoot("geolocation", s1);
    assert StepChildren(s1) == [X, Y] by { assert s1[1..][1..] == []; }
    var s2 := [ValueStep("city", Some("Oslo")), ValueStep("postcode", Some("0657")), SubtreeStep(GEOLOCATION)];
    ChainFromRoot("address", s2);
    ThreeSteps(s2);
    var s3 := [ValueStep("name", Some("Rune")), ValueStep("sex", Some("Male")), SubtreeStep(ADDRESS)];
    ChainFromRoot("root", s3);
    ThreeSteps(s3);
  }

  lemma ThreeSteps(steps: seq<Step>)
    requires |steps| == 3
    ensures StepChildren(steps) == [StepChild(steps[0]), StepChild(steps[1]), StepChild(steps[2])]
  {
    assert steps[1..][1..][1..] == [];
    assert StepChildren(steps[2..]) == [StepChild(steps[2])] by { assert steps[1..][1..] == steps[2..]; }
  }

  /** The data-element dump example renders one line per node, in pre-order, with the
      indentation of each node's depth (see `Text.IndentExamples` for the indentation text). */
  lemma DumpExample()
    ensures DumpLines(EXAMPLE, 0) ==
      [ "root value:null\n",
        Indent(1) + "name value:Rune\n",
        Indent(1) + "sex value:Male\n",
        Indent(1) + "address value:null\n",
        Indent(2) + "city value:Oslo\n",
        Indent(2) + "postcode value:0657\n",
        Indent(2) + "geolocation value:null\n",
        Indent(3) + "x value:10\n",
        Indent(3) + "y value:10\n" ]
  {
    var head := "root value:null\n";
    assert Describe(EXAMPLE) == "root value:null" by { assert OptText(EXAMPLE.value) == "null"; }
    assert Describe(NAME) == "name value:Rune" by { assert OptText(NAME.value) == "Rune"; }
    assert Describe(SEX) == "sex value:Male" by { assert OptText(SEX.value) == "Male"; }
    assert Indent(0) == "";
    assert DumpLines(EXAMPLE, 0) == [head] + DumpLines(NAME, 1) + DumpLines(SEX, 1) + DumpLines(ADDRESS, 1) by {
      Node3(EXAMPLE, 0, head, DumpLines(NAME, 1), DumpLines(SEX, 1), DumpLines(ADDRESS, 1));
    }
    LeafLine(NAME, 1, Indent(1) + "name value:Rune\n");
    LeafLine(SEX, 1, Indent(1) + "sex value:Male\n");
    AddressLines();
  }

  lemma AddressLines()
    ensures DumpLines(ADDRESS, 1) ==
      [ Indent(1) + "address value:null\n",
        Indent(2) + "city value:Oslo\n",
        Indent(2) + "postcode value:0657\n",
        Indent(2) + "geolocation value:null\n",
        Indent(3) + "x value:10\n",
        Indent(3) + "y value:10\n" ]
  {
    var head := Indent(1) + "address value:null\n";
    assert Describe(ADDRESS) == "address value:null" by { assert OptText(ADDRESS.value) == "null"; }
    assert Describe(CITY) == "city value:Oslo" by { assert OptText(CITY.value) == "Oslo"; }
    assert Describe(POSTCODE) == "postcode value:0657" by { assert OptText(POSTCODE.value) == "0657"; }
    assert DumpLines(ADDRESS, 1) == [head] + DumpLines(CITY, 2) + DumpLines(POSTCODE, 2) + DumpLines(GEOLOCATION, 2) by {
      Node3(ADDRESS, 1, head, DumpLines(CITY, 2), DumpLines(POSTCODE, 2), DumpLines(GEOLOCATION, 2));
    }
    LeafLine(CITY, 2, Indent(2) + "city value:Oslo\n");
    LeafLine(POSTCODE, 2, Indent(2) + "postcode value:0657\n");
    GeolocationLines();
  }

  lemma GeolocationLines()
    ensures DumpLines(GEOLOCATION, 2) ==
      [Indent(2) + "geolocation value:null\n", Indent(3) + "x value:10\n", Indent(3) + "y value:10\n"]
  {
    assert Describe(X) == "x value:10" by { assert OptText(X.value) == "10"; }
    assert Describe(Y) == "y value:10" by { assert OptText(Y.value) == "10"; }
    assert Describe(GEOLOCATION) == "geolocation value:null" by { assert OptText(GEOLOCATION.value) == "null"; }
    LeafLine(X, 3, Indent(3) + "x value:10\n");
    LeafLine(Y, 3, Indent(3) + "y value:10\n");
    Node2(GEOLOCATION, 2, Indent(2) + "geolocation value:null\n", DumpLines(X, 3), DumpLines(Y, 3));
  }

  lemma LeafLine(e: DataElement, depth: nat, line: string)
    requires e.children == []
    requires line == Indent(depth) + Describe(e) + "\n"
    ensures DumpLines(e, depth) == [line]
  {
    assert DumpLinesAll(e.children, depth + 1) == [];
  }

  lemma Node2(e: DataElement, depth: nat, line: string, a: seq<string>, b: seq<string>)
    requires |e.children| == 2
    requires line == Indent(depth) + Describe(e) + "\n"
    requires DumpLines(e.children[0], depth + 1) == a
    requires DumpLines(e.children[1], depth + 1) == b
    ensures DumpLines(e, depth) == [line] + a + b
  {
    assert e.children[1..][1..] == [];
    assert DumpLinesAll(e.children[1..], depth + 1) == b;
  }

  lemma Node3(e: DataElement, depth: nat, line: string, a: seq<string>, b: seq<string>, c: seq<string>)
    requires |e.children| == 3
    requires line == Indent(depth) + Describe(e) + "\n"
    requires DumpLines(e.children[0], depth + 1) == a
    requires DumpLines(e.children[1], depth + 1) == b
    requires DumpLines(e.children[2], depth + 1) == c
    ensures DumpLines(e, depth) == [line] + a + b + c
  {
    assert e.children[1..][1..] == e.children[2..];
    assert e.children[2..][1..] == [];
    assert DumpLinesAll(e.children[2..], depth + 1) == c;
    assert DumpLinesAll(e.children[1..], depth + 1) == b + c;
  }
}
