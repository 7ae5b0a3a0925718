/** Worked conversions, after `SchemaAwareElementTest.checkOptionalAndNullableSchema`: a data
    leaf becomes an element leaf, and the three-string element tree over the schema of
    `SchemaExamples` becomes the expected record. */
module RecordExamples {
  import opened Wrappers
  import opened Avro
  import opened DataElements
  import opened SchemaBuddy
  import opened SchemaAwareElement
  import opened SchemaExamples
  import opened DataElementBuilder
  import SchemaParser

  const MANDATORY_ELEMENT := Element("mandatory", Some("v1"), MANDATORY_NODE, [])
  const OPTIONAL_ELEMENT := Element("optional", Some("v2"), OPTIONAL_NODE, [])
  const NULLABLE_ELEMENT := Element("nullable", None, NULLABLE_NODE, [])
  const FLAGS_ELEMENT := Element("root", None, FLAGS_TREE, [MANDATORY_ELEMENT, OPTIONAL_ELEMENT, NULLABLE_ELEMENT])

  /** The expected record: the missing value of the mandatory `nullable` field becomes the
      text "null", the others keep their text. */
  const FLAGS_RECORD := RecordValue(map["mandatory" := StringValue("v1"), "optional" := StringValue("v2"),
                                        "nullable" := StringValue("null")])

  /** The test's data tree: `root("root")` with three string values, the last one null. */
  const MANDATORY_DATA := DataElement("mandatory", Some("v1"), [])
  const OPTIONAL_DATA := DataElement("optional", Some("v2"), [])
  const NULLABLE_DATA := DataElement("nullable", None, [])
  const FLAGS_DATA := DataElement("root", None, [MANDATORY_DATA, OPTIONAL_DATA, NULLABLE_DATA])

  /** The test's builder chain yields that data tree. */
  lemma FlagsDataBuilt()
    ensures Build(Chain(Root("root"), [ValueStep("mandatory", Some("v1")), ValueStep("optional", Some("v2")),
                                       ValueStep("nullable", None)])) == FLAGS_DATA
  {
    var steps := [ValueStep("mandatory", Some("v1")), ValueStep("optional", Some("v2")), ValueStep("nullable", None)];
    ChainFromRoot("root", steps);
    ThreeSteps(steps);
  }

  // Phase one: data tree to element tree

  /** A data leaf becomes an element leaf under whatever schema node it is given. */
  lemma LeafElement(c: DataElement, sc: Node)
    requires c.children == []
    ensures ToElement(c, sc) == Ok(Element(c.name, c.value, sc, []))
  {
    var none: seq<Element> := [];
    NoArrayNames(c.children, sc);
    assert MapPlain(c, 0, sc) == Ok(none);
    assert MapArrays(c, ArrayNames(c.children, sc), sc) == Ok(none);
    assert none + none == none;
  }

  /** Data children none of which names an array field gather no arrays. */
  lemma NoArrayNames(cs: seq<DataElement>, s: Node)
    requires forall i :: 0 <= i < |cs| ==> !IsArrayChild(s, cs[i].name)
    ensures ArrayNames(cs, s) == []
  {
  }

  /** The schema child a name looks up, when there is one. */
  function FieldNode(s: Node, name: string): Node {
    match GetChild(s, name)
    case Ok(n) => n
    case Err(_) => s
  }

  /** The leaf elements of data leaves, each under the schema child of its name. */
  function LeafElements(cs: seq<DataElement>, s: Node): (r: seq<Element>)
    ensures |r| == |cs|
  {
    if |cs| == 0 then []
    else [Element(cs[0].name, cs[0].value, FieldNode(s, cs[0].name), [])] + LeafElements(cs[1..], s)
  }

  /** Data leaves that all name non-array schema fields map, from the `k`-th on, to their leaf
      elements, whichever branch of the loop builds them. */
  lemma {:induction false} LeafChildren(d: DataElement, k: nat, s: Node)
    requires k <= |d.children|
    requires forall i :: 0 <= i < |d.children| ==> d.children[i].children == []
    requires forall i :: 0 <= i < |d.children| ==> GetChild(s, d.children[i].name).Ok? && !IsArrayChild(s, d.children[i].name)
    ensures MapPlain(d, k, s) == Ok(LeafElements(d.children[k..], s))
    decreases |d.children| - k
  {
    if k < |d.children| {
      var c := d.children[k];
      LeafElement(c, GetChild(s, c.name).value);
      LeafChildren(d, k + 1, s);
      assert d.children[k..][1..] == d.children[k + 1..];
    } else {
      assert d.children[k..] == [];
    }
  }

  /** A data node whose children are leaves naming non-array schema fields becomes the
      element of their leaf elements. */
  lemma LeafParent(d: DataElement, s: Node)
    requires forall i :: 0 <= i < |d.children| ==> d.children[i].children == []
    requires forall i :: 0 <= i < |d.children| ==> GetChild(s, d.children[i].name).Ok? && !IsArrayChild(s, d.children[i].name)
    ensures ToElement(d, s) == Ok(Element(d.name, d.value, s, LeafElements(d.children, s)))
  {
    var none: seq<Element> := [];
    LeafChildren(d, 0, s);
    assert d.children[0..] == d.children;
    NoArrayNames(d.children, s);
    assert MapArrays(d, ArrayNames(d.children, s), s) == Ok(none);
    assert LeafElements(d.children, s) + none == LeafElements(d.children, s);
  }

  /** The three lookups of the test's fields. */
  lemma FlagsLookups()
    ensures GetChild(FLAGS_TREE, "mandatory") == Ok(MANDATORY_NODE)
    ensures GetChild(FLAGS_TREE, "optional") == Ok(OPTIONAL_NODE)
    ensures GetChild(FLAGS_TREE, "nullable") == Ok(NULLABLE_NODE)
    ensures FieldNode(FLAGS_TREE, "mandatory") == MANDATORY_NODE
    ensures FieldNode(FLAGS_TREE, "optional") == OPTIONAL_NODE
    ensures FieldNode(FLAGS_TREE, "nullable") == NULLABLE_NODE
    ensures !IsArrayChild(FLAGS_TREE, "mandatory") && !IsArrayChild(FLAGS_TREE, "optional")
    ensures !IsArrayChild(FLAGS_TREE, "nullable")
  {
    var cs := FLAGS_TREE.children;
    GetChildAt(FLAGS_TREE, "mandatory", 0);
    GetChildAt(FLAGS_TREE, "optional", 1);
    GetChildAt(FLAGS_TREE, "nullable", 2);
  }

  /** A data node with three leaf children naming non-array schema fields becomes the
      element of the three matching leaf elements. */
  lemma ThreeLeafParent(d: DataElement, s: Node, c0: DataElement, c1: DataElement, c2: DataElement)
    requires d.children == [c0, c1, c2]
    requires c0.children == [] && c1.children == [] && c2.children == []
    requires GetChild(s, c0.name).Ok? && !IsArrayChild(s, c0.name)
    requires GetChild(s, c1.name).Ok? && !IsArrayChild(s, c1.name)
    requires GetChild(s, c2.name).Ok? && !IsArrayChild(s, c2.name)
    ensures ToElement(d, s) == Ok(Element(d.name, d.value, s, [
              Element(c0.name, c0.value, FieldNode(s, c0.name), []),
              Element(c1.name, c1.value, FieldNode(s, c1.name), []),
              Element(c2.name, c2.value, FieldNode(s, c2.name), [])]))
  {
    ThreeFit(d.children, s, c0, c1, c2);
    LeafParent(d, s);
    ThreeLeafElements(s, c0, c1, c2);
  }

  lemma ThreeFit(cs: seq<DataElement>, s: Node, c0: DataElement, c1: DataElement, c2: DataElement)
    requires cs == [c0, c1, c2]
    requires c0.children == [] && c1.children == [] && c2.children == []
    requires GetChild(s, c0.name).Ok? && !IsArrayChild(s, c0.name)
    requires GetChild(s, c1.name).Ok? && !IsArrayChild(s, c1.name)
    requires GetChild(s, c2.name).Ok? && !IsArrayChild(s, c2.name)
    ensures forall i :: 0 <= i < |cs| ==> cs[i].children == []
    ensures forall i :: 0 <= i < |cs| ==> GetChild(s, cs[i].name).Ok? && !IsArrayChild(s, cs[i].name)
  {
    forall i | 0 <= i < |cs|
      ensures cs[i].children == [] && GetChild(s, cs[i].name).Ok? && !IsArrayChild(s, cs[i].name)
    {
      if i == 0 { assert cs[i] == c0; } else if i == 1 { assert cs[i] == c1; } else { assert cs[i] == c2; }
    }
  }

  lemma ThreeLeafElements(s: Node, c0: DataElement, c1: DataElement, c2: DataElement)
    ensures LeafElements([c0, c1, c2], s) == [
              Element(c0.name, c0.value, FieldNode(s, c0.name), []),
              Element(c1.name, c1.value, FieldNode(s, c1.name), []),
              Element(c2.name, c2.value, FieldNode(s, c2.name), [])]
  {
    var none: seq<DataElement> := [];
    LeafElementsCons(s, c2, none);
    LeafElementsCons(s, c1, [c2]);
    LeafElementsCons(s, c0, [c1, c2]);
    assert [c2] + none == [c2] && [c1] + [c2] == [c1, c2] && [c0] + [c1, c2] == [c0, c1, c2];
  }

  lemma LeafElementsCons(s: Node, c: DataElement, cs: seq<DataElement>)
    ensures LeafElements([c] + cs, s) == [Element(c.name, c.value, FieldNode(s, c.name), [])] + LeafElements(cs, s)
  {
    assert ([c] + cs)[1..] == cs;
  }

  /** Phase one of the test: the data tree becomes the expected element tree. */
  lemma FlagsElement()
    ensures ToElement(FLAGS_DATA, FLAGS_TREE) == Ok(FLAGS_ELEMENT)
  {
    FlagsLookups();
    ThreeLeafParent(FLAGS_DATA, FLAGS_TREE, MANDATORY_DATA, OPTIONAL_DATA, NULLABLE_DATA);
  }

  // Phase two: element tree to record

  /** The test's expectation for the three string fields. */
  lemma FlagsAssigned()
    ensures ToRecord(FLAGS_ELEMENT) == Ok(FLAGS_RECORD)
  {
    var e := FLAGS_ELEMENT;
    var a1 := ("mandatory", StringValue("v1"));
    var a2 := ("optional", StringValue("v2"));
    var a3 := ("nullable", StringValue("null"));
    StringsAssign(e, e.children);
    var r := ChildAssignments(e, e.children).value;
    assert StringAssignment(MANDATORY_ELEMENT) == a1;
    assert StringAssignment(OPTIONAL_ELEMENT) == a2;
    assert StringAssignment(NULLABLE_ELEMENT) == a3;
    assert r == [a1, a2, a3];
    Assigned3(a1, a2, a3);
  }

  /** The test end to end: the schema parses to `FLAGS_TREE`, the builder chain yields
      `FLAGS_DATA`, and `toRecord(dataElement, schemaBuddy)` on the two gives the expected record. */
  lemma FlagsMaterialized()
    ensures SchemaParser.Parse(FLAGS_SCHEMA) == Ok(Some(FLAGS_TREE))
    ensures Build(Chain(Root("root"), [ValueStep("mandatory", Some("v1")), ValueStep("optional", Some("v2")),
                                       ValueStep("nullable", None)])) == FLAGS_DATA
    ensures Materialize(FLAGS_DATA, FLAGS_TREE) == Ok(FLAGS_RECORD)
  {
    FlagsParsed();
    FlagsDataBuilt();
    FlagsElement();
    FlagsAssigned();
  }

  /** Children that are all string leaves always convert. */
  lemma {:induction false} StringsAssign(p: Element, cs: seq<Element>)
    requires forall i :: 0 <= i < |cs| ==> cs[i].schema.Type() == STRING
    ensures ChildAssignments(p, cs).Ok?
    ensures forall i :: 0 <= i < |cs| ==> ChildAssignments(p, cs).value[i] == StringAssignment(cs[i])
    decreases |cs|
  {
    if |cs| > 0 {
      StringChild(p, cs[0]);
      StringsAssign(p, cs[1..]);
    }
    forall i | 0 <= i < |cs| ensures ChildAssignments(p, cs).value[i] == StringAssignment(cs[i]) {
      StringChild(p, cs[i]);
    }
  }

  /** What a string leaf contributes to its record: its text; a missing text becomes null
      for an optional field and the text "null" otherwise. */
  function StringAssignment(c: Element): (string, Value) {
    (c.name, if c.value.Some? then StringValue(c.value.value) else if c.schema.optional then NullValue else StringValue("null"))
  }

  /** A string leaf assigns its text; a missing text becomes "null" unless the field is optional. */
  lemma StringChild(parent: Element, c: Element)
    requires c.schema.Type() == STRING
    ensures ChildAssignment(parent, c) == Ok(StringAssignment(c))
  {
    assert c.schema.IsSimpleType();
  }

  /** Three assignments, applied in order. */
  lemma Assigned3(a1: (string, Value), a2: (string, Value), a3: (string, Value))
    ensures Assignments([a1, a2, a3]) == map[a1.0 := a1.1][a2.0 := a2.1][a3.0 := a3.1]
  {
    assert [a1][..0] == [];
    assert Assignments([a1]) == map[a1.0 := a1.1];
    assert [a1, a2][..1] == [a1];
    assert Assignments([a1, a2]) == map[a1.0 := a1.1][a2.0 := a2.1];
    assert [a1, a2, a3][..2] == [a1, a2];
  }
}
