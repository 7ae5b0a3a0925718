/** `SchemaAwareElement`: walks a generic data tree in step with the schema tree and then
    turns the result into a record.

    Phase one (`toSchemaAwareElement`) pairs every data node with its schema node. Data
    children whose schema child is an array are gathered by name into one array element,
    and those array elements are appended after the other children. Phase two (`toRecord`)
    turns the paired tree into field assignments, coercing each leaf by its schema type.

    Avro's `GenericRecordBuilder` is not modelled: a record is the map of the assignments made
    to it, a later assignment to the same name replacing an earlier one. */
module SchemaAwareElement {
  import opened Wrappers
  import opened Avro
  import opened Errors
  import opened Text
  import opened Seqs
  import opened Numbers
  import opened DataElements
  import opened SchemaBuddy

  /** A data node paired with its schema node. */
  datatype Element = Element(name: string, value: Option<string>, schema: Node, children: seq<Element>)

  /** What `GenericRecordBuilder.set` receives. */
  datatype Value =
    | NullValue
    | StringValue(text: string)
    | IntValue(i: int)
    | LongValue(l: int)
      /** `Double.parseDouble` of the text; the text itself is kept. */
    | DoubleValue(literal: string)
    | BooleanValue(b: bool)
    | EmptyMapValue
    | ListValue(items: seq<Value>)
    | RecordValue(fields: map<string, Value>)

  /** A Java string that may be null, as a value. */
  function Raw(v: Option<string>): (r: Value)
    ensures v.None? <==> r == NullValue
    ensures v.Some? ==> r == StringValue(v.value)
  {
    match v
    case None => NullValue
    case Some(s) => StringValue(s)
  }

  /** `toString()`: `name value:v schema(schema)`. */
  function Describe(e: Element): string {
    e.name + " value:" + OptText(e.value) + " schema(" + e.schema.Describe() + ")"
  }

  // ---------------------------------------------------------------------------------------
  // Phase one: pairing data with schema
  // ---------------------------------------------------------------------------------------

  /** The schema child a data child's name refers to is an array. */
  predicate IsArrayChild(s: Node, name: string) {
    GetChild(s, name).Ok? && GetChild(s, name).value.IsArrayType()
  }

  /** The names of the data children, in sibling order. */
  function Names(cs: seq<DataElement>): (r: seq<string>)
    ensures |r| == |cs| && forall i :: 0 <= i < |cs| ==> r[i] == cs[i].name
  {
    seq(|cs|, i requires 0 <= i < |cs| => cs[i].name)
  }

  /** The names of the data children that map to array fields, each once, in order of
      first appearance. (The Java code gathers them in a `HashMap`, whose iteration order
      is not specified.) */
  function ArrayNames(cs: seq<DataElement>, s: Node): (r: seq<string>)
    ensures forall i :: 0 <= i < |r| ==> IsArrayChild(s, r[i]) && r[i] in Names(cs)
    ensures forall i :: 0 <= i < |cs| && IsArrayChild(s, cs[i].name) ==> cs[i].name in r
    ensures forall i, j :: 0 <= i < j < |r| ==> r[i] != r[j]
  {
    var names := Names(cs);
    var arrays := Filter(names, n => IsArrayChild(s, n));
    assert forall i :: 0 <= i < |arrays| ==> IsArrayChild(s, arrays[i]) && arrays[i] in names;
    assert forall i :: 0 <= i < |cs| && IsArrayChild(s, cs[i].name) ==> names[i] in arrays;
    var r := Distinct(arrays);
    assert forall i :: 0 <= i < |r| ==> r[i] in arrays;
    r
  }

  /** The data children with a given name, in sibling order: the list an array field
      collects. */
  function Gather(cs: seq<DataElement>, name: string): (r: seq<DataElement>)
    ensures |r| <= |cs|
    ensures forall i :: 0 <= i < |r| ==> r[i] in cs && r[i].name == name
    ensures (exists i :: 0 <= i < |cs| && cs[i].name == name) ==> |r| > 0
  {
    Filter(cs, (c: DataElement) => c.name == name)
  }

  /** Each child of the name is gathered as often as it occurs, and nothing else. */
  lemma GatherCounts(cs: seq<DataElement>, name: string)
    ensures forall x :: multiset(Gather(cs, name))[x] == if x.name == name then multiset(cs)[x] else 0
  {
    FilterCounts(cs, (c: DataElement) => c.name == name);
  }

  /** Gathering keeps sibling order: the children of a prefix come before those of the rest. */
  lemma GatherAppend(a: seq<DataElement>, b: seq<DataElement>, name: string)
    ensures Gather(a + b, name) == Gather(a, name) + Gather(b, name)
  {
    FilterAppend(a, b, (c: DataElement) => c.name == name);
  }

  /** `toSchemaAwareElement`: the element of `d` under schema node `s`. Its children are
      the non-array children in data order, followed by one element per array field. */
  function ToElement(d: DataElement, s: Node): (r: Result<Element, Error>)
    ensures r.Ok? ==> r.value.name == d.name && r.value.value == d.value && r.value.schema == s
    ensures r.Ok? ==> forall i :: 0 <= i < |d.children| ==> GetChild(s, d.children[i].name).Ok?
    decreases d, 3
  {
    var plain :- MapPlain(d, 0, s);
    var arrays :- MapArrays(d, ArrayNames(d.children, s), s);
    Ok(Element(d.name, d.value, s, plain + arrays))
  }

  /** The loop of `recursivelyMapToSchemaAwareElementAndCollectArrayTypes`, from the `k`-th
      data child on: every data child is looked up in the schema (an unknown name fails);
      array children are left for later, the others become elements. A plain child becomes
      a bare leaf when the parent's own schema node is a simple type, and is mapped
      recursively otherwise. */
  function MapPlain(d: DataElement, k: nat, s: Node): (r: Result<seq<Element>, Error>)
    requires k <= |d.children|
    ensures r.Ok? ==> forall i :: k <= i < |d.children| ==> GetChild(s, d.children[i].name).Ok?
    decreases d, 2, |d.children| - k
  {
    if k == |d.children| then Ok([])
    else
      var c := d.children[k];
      var sc :- GetChild(s, c.name);
      if sc.IsArrayType() then MapPlain(d, k + 1, s)
      else
        var head :- if s.IsSimpleType() then Ok(Element(c.name, c.value, sc, [])) else ToElement(c, sc);
        var tail :- MapPlain(d, k + 1, s);
        Ok([head] + tail)
  }

  /** The data children that do not map to an array field, in order. */
  function NonArrayChildren(cs: seq<DataElement>, s: Node): seq<DataElement> {
    Filter(cs, (c: DataElement) => !IsArrayChild(s, c.name))
  }

  /** The `arrayTypes.forEach` loop: one array element per gathered name. */
  function MapArrays(d: DataElement, names: seq<string>, s: Node): (r: Result<seq<Element>, Error>)
    ensures r.Ok? ==> |r.value| == |names|
    ensures r.Ok? ==> forall i :: 0 <= i < |names| ==> r.value[i].name == names[i] && r.value[i].value.None?
    decreases d, 2, |names|
  {
    if |names| == 0 then Ok([])
    else
      var sc :- GetChild(s, names[0]);
      var head :- MapArray(d, s, sc, names[0]);
      var tail :- MapArrays(d, names[1..], s);
      Ok([head] + tail)
  }

  /** `recursivelyMapArrayElementsToSchemaAwareElement`: the array element of all data
      children named `name`. When the first of them has no value they are all mapped as
      records of the element schema; otherwise they all become leaves of it, keeping their
      values. */
  function MapArray(d: DataElement, s: Node, sc: Node, name: string): (r: Result<Element, Error>)
    ensures r.Ok? ==> r.value.name == name && r.value.value.None? && r.value.schema == sc
    ensures r.Ok? ==> |Gather(d.children, name)| > 0 && ArrayTypeSchema(At(sc, [s])).Ok?
    decreases d, 1
  {
    var elems := Gather(d.children, name);
    if |elems| == 0 then Err(IndexOutOfBounds(0, 0))
    else
      var es :- ArrayTypeSchema(At(sc, [s]));
      var items :- if elems[0].value.None? then MapRecords(d, name, 0, es) else Ok(Leaves(elems, es));
      Ok(Element(name, None, sc, items))
  }

  /** The record branch, from the `k`-th data child on: every child named `name` mapped
      under the element schema. */
  function MapRecords(d: DataElement, name: string, k: nat, es: Node): (r: Result<seq<Element>, Error>)
    requires k <= |d.children|
    decreases d, 0, |d.children| - k
  {
    if k == |d.children| then Ok([])
    else if d.children[k].name != name then MapRecords(d, name, k + 1, es)
    else
      var head :- ToElement(d.children[k], es);
      var tail :- MapRecords(d, name, k + 1, es);
      Ok([head] + tail)
  }

  /** The leaf branch: every gathered child keeps its name and value, with no children. */
  function Leaves(elems: seq<DataElement>, es: Node): (r: seq<Element>)
    ensures |r| == |elems|
    ensures forall i :: 0 <= i < |elems| ==> r[i] == Element(elems[i].name, elems[i].value, es, [])
  {
    seq(|elems|, i requires 0 <= i < |elems| => Element(elems[i].name, elems[i].value, es, []))
  }

  // ---------------------------------------------------------------------------------------
  // Phase two: building the record
  // ---------------------------------------------------------------------------------------

  /** `setSimpleType` without its error wrapping: the value assigned for a leaf of the given
      type, or the message of the exception the conversion throws. */
  function Coerce(t: Type, optional: bool, v: Option<string>): (r: Result<Value, string>)
    ensures t == INT ==> (r.Ok? <==> v.Some? && IsDecimal(v.value) && INT_MIN <= DecimalValue(v.value) <= INT_MAX)
    ensures t == LONG ==> (r.Ok? <==> v.Some? && IsDecimal(v.value) && LONG_MIN <= DecimalValue(v.value) <= LONG_MAX)
    ensures t == INT && r.Ok? ==> r.value == IntValue(DecimalValue(v.value))
    ensures t == LONG && r.Ok? ==> r.value == LongValue(DecimalValue(v.value))
    ensures t in {INT, LONG} && v.None? ==> r == Err(NULL_INPUT_MESSAGE)
    ensures t == DOUBLE ==> (r.Ok? <==> v.Some?)
    ensures t == MAP ==> r == Ok(EmptyMapValue)
    ensures t == BOOLEAN ==> r == Ok(BooleanValue(ParseBoolean(v)))
    ensures t == STRING ==> r.Ok? && (r.value == NullValue <==> optional && v.None?)
    ensures t == STRING && v.Some? ==> r == Ok(StringValue(v.value))
    ensures t !in {LONG, INT, DOUBLE, BOOLEAN, MAP, STRING} ==>
              r == Err(t.Constant() + " do not currently have a converter")
  {
    match t
    case LONG => var n :- ParseLong(v); Ok(LongValue(n))
    case INT => var n :- ParseInt(v); Ok(IntValue(n))
    // JDK 8's `parseDouble(null)` throws a `NullPointerException` whose message is null
    case DOUBLE => if v.None? then Err("null") else Ok(DoubleValue(v.value))
    case BOOLEAN => Ok(BooleanValue(ParseBoolean(v)))
    case MAP => Ok(EmptyMapValue)
    case STRING => if !optional && v.None? then Ok(StringValue("null")) else Ok(Raw(v))
    case _ => Err(t.Constant() + " do not currently have a converter")
  }

  /** `setSimpleType`: a failed conversion is rethrown with the element appended. */
  function SetSimple(t: Type, e: Element): (r: Result<Value, Error>)
    ensures r.Ok? <==> Coerce(t, e.schema.optional, e.value).Ok?
    ensures r.Ok? ==> r.value == Coerce(t, e.schema.optional, e.value).value
    ensures r.Err? ==> r.error == Conversion(Coerce(t, e.schema.optional, e.value).error
                                             + "\ndata:(" + Describe(e) + ")")
  {
    match Coerce(t, e.schema.optional, e.value)
    case Ok(v) => Ok(v)
    case Err(message) => Err(Conversion(message + "\ndata:(" + Describe(e) + ")"))
  }

  /** The record made by a sequence of `set` calls: the last assignment to a name wins. */
  function Assignments(asg: seq<(string, Value)>): (m: map<string, Value>)
    ensures forall k :: k in m <==> exists i :: 0 <= i < |asg| && asg[i].0 == k
  {
    if |asg| == 0 then map[]
    else Assignments(asg[..|asg| - 1])[asg[|asg| - 1].0 := asg[|asg| - 1].1]
  }

  /** `toRecord`: an element with a value assigns that value to its own name; otherwise
      every child makes one assignment, in order. */
  function ToRecord(e: Element): (r: Result<Value, Error>)
    ensures r.Ok? ==> r.value.RecordValue?
    ensures r.Ok? && e.value.Some? ==> r.value.fields.Keys == {e.name}
    ensures r.Ok? && e.value.None? ==>
              forall k :: k in r.value.fields <==> exists i :: 0 <= i < |e.children| && e.children[i].name == k
    decreases e, 2
  {
    if e.value.Some? then
      var v :- SetSimple(e.schema.Type(), e);
      Ok(RecordValue(map[e.name := v]))
    else
      var asg :- ChildAssignments(e, e.children);
      Ok(RecordValue(Assignments(asg)))
  }

  /** The assignments of `toRecord`'s loop over the children, in order. */
  function ChildAssignments(parent: Element, cs: seq<Element>): (r: Result<seq<(string, Value)>, Error>)
    ensures r.Ok? ==> |r.value| == |cs|
    ensures r.Ok? ==> forall i :: 0 <= i < |cs| ==> ChildAssignment(parent, cs[i]) == Ok(r.value[i])
    decreases cs, 1
  {
    if |cs| == 0 then Ok([])
    else
      var head :- ChildAssignment(parent, cs[0]);
      var tail :- ChildAssignments(parent, cs[1..]);
      Ok([head] + tail)
  }

  /** `getArrayType()`: the type of the array's element, where the missing `findChildren()`
      is read as the element child list. */
  function ArrayElementType(sc: Node): (r: Result<Type, Error>)
    ensures r.Ok? <==> |sc.children| > 0
    ensures r.Ok? ==> r.value == sc.children[0].Type()
  {
    if |sc.children| == 0 then Err(IndexOutOfBounds(0, 0)) else Ok(sc.children[0].Type())
  }

  /** One iteration of `toRecord`'s loop: an array child assigns a list (of records when the
      element type is a record, of the raw values otherwise), a simple child assigns its
      coerced value, and a record child assigns its own record. */
  function ChildAssignment(parent: Element, c: Element): (r: Result<(string, Value), Error>)
    ensures r.Ok? ==> r.value.0 == c.name
    ensures r.Ok? && c.schema.IsArrayType() ==> r.value.1.ListValue? && |r.value.1.items| == |c.children|
    ensures r.Ok? && c.schema.IsArrayType() && ArrayElementType(c.schema) == Ok(RECORD) ==>
              Records(c.children).Ok? && r.value.1 == ListValue(Records(c.children).value)
    ensures r.Ok? && c.schema.IsArrayType() && ArrayElementType(c.schema) != Ok(RECORD) ==>
              r.value.1 == ListValue(RawValues(c.children))
    ensures r.Ok? && c.schema.IsSimpleType() ==> SetSimple(c.schema.Type(), c) == Ok(r.value.1)
    ensures r.Ok? && c.schema.IsRecordType() ==> Ok(r.value.1) == ToRecord(c)
    decreases c, 3
  {
    if c.schema.IsArrayType() then
      var t :- ArrayElementType(c.schema);
      if t == RECORD then
        var es :- ArrayTypeSchema(At(c.schema, [parent.schema]));
        var records :- Records(c.children);
        Ok((c.name, ListValue(records)))
      else
        Ok((c.name, ListValue(RawValues(c.children))))
    else if c.schema.IsSimpleType() then
      var v :- SetSimple(c.schema.Type(), c);
      Ok((c.name, v))
    else
      var record :- ToRecord(c);
      Ok((c.name, record))
  }

  /** The items of a record array, each converted on its own. */
  function Records(cs: seq<Element>): (r: Result<seq<Value>, Error>)
    ensures r.Ok? ==> |r.value| == |cs| && forall i :: 0 <= i < |cs| ==> ToRecord(cs[i]) == Ok(r.value[i])
    decreases cs, 1
  {
    if |cs| == 0 then Ok([])
    else
      var head :- ToRecord(cs[0]);
      var tail :- Records(cs[1..]);
      Ok([head] + tail)
  }

  /** The items of a non-record array: the raw values, unconverted. */
  function RawValues(cs: seq<Element>): (r: seq<Value>)
    ensures |r| == |cs| && forall i :: 0 <= i < |cs| ==> r[i] == Raw(cs[i].value)
  {
    seq(|cs|, i requires 0 <= i < |cs| => Raw(cs[i].value))
  }

  /** The items of an array of simple values are set as the raw strings: a missing text stays
      null whatever the field's flags, unlike a simple field, which turns it into "null". */
  lemma RawArrayItems(parent: Element, c: Element, i: int)
    requires c.schema.IsArrayType() && |c.schema.children| > 0 && c.schema.children[0].Type() != RECORD
    requires 0 <= i < |c.children|
    ensures ChildAssignment(parent, c).Ok?
    ensures ChildAssignment(parent, c).value.1.items[i] == NullValue <==> c.children[i].value.None?
    ensures c.children[i].value.Some? ==>
              ChildAssignment(parent, c).value.1.items[i] == StringValue(c.children[i].value.value)
  {
  }

  /** `SchemaAwareElement.toRecord(dataElement, schemaBuddy)`. */
  function Materialize(d: DataElement, s: Node): (r: Result<Value, Error>)
    ensures r.Ok? ==> r.value.RecordValue?
    ensures r.Ok? ==> forall i :: 0 <= i < |d.children| ==> GetChild(s, d.children[i].name).Ok?
  {
    var e :- ToElement(d, s);
    ToRecord(e)
  }

  // ---------------------------------------------------------------------------------------
  // Properties
  // ---------------------------------------------------------------------------------------

  lemma NonArrayStep(d: DataElement, k: nat, s: Node)
    requires k < |d.children|
    ensures NonArrayChildren(d.children[k..], s) ==
              (if IsArrayChild(s, d.children[k].name) then [] else [d.children[k]]) + NonArrayChildren(d.children[k + 1..], s)
  {
    assert d.children[k..][1..] == d.children[k + 1..];
  }

  lemma GatherStep(d: DataElement, k: nat, name: string)
    requires k < |d.children|
    ensures Gather(d.children[k..], name) ==
              (if d.children[k].name == name then [d.children[k]] else []) + Gather(d.children[k + 1..], name)
  {
    assert d.children[k..][1..] == d.children[k + 1..];
  }

  lemma MapPlainStep(d: DataElement, k: nat, s: Node, es: seq<Element>)
    requires k < |d.children| && MapPlain(d, k, s) == Ok(es)
    ensures IsArrayChild(s, d.children[k].name) ==> MapPlain(d, k + 1, s) == Ok(es)
    ensures !IsArrayChild(s, d.children[k].name) ==>
              && |es| > 0 && MapPlain(d, k + 1, s) == Ok(es[1..])
              && es[0].name == d.children[k].name && es[0].value == d.children[k].value
              && GetChild(s, d.children[k].name) == Ok(es[0].schema)
              && (s.IsSimpleType() ==> es[0].children == [])
              && (!s.IsSimpleType() ==> ToElement(d.children[k], es[0].schema) == Ok(es[0]))
  {
  }

  /** `e` is the element made from the data child `c` below schema node `s`: it keeps the
      child's name and value, sits under the schema child of that name, and is a bare leaf
      below a simple-typed node or the recursively mapped child otherwise. */
  predicate PlainFit(s: Node, c: DataElement, e: Element) {
    && e.name == c.name && e.value == c.value
    && GetChild(s, c.name) == Ok(e.schema)
    && (s.IsSimpleType() ==> e.children == [])
    && (!s.IsSimpleType() ==> ToElement(c, e.schema) == Ok(e))
  }

  /** `es` are the elements made from the data children `cs`, one by one. */
  predicate PlainFits(s: Node, cs: seq<DataElement>, es: seq<Element>) {
    Pairwise(cs, es, (c, e) => PlainFit(s, c, e))
  }

  lemma PlainFitsCons(s: Node, c: DataElement, cs: seq<DataElement>, e: Element, es: seq<Element>)
    requires PlainFit(s, c, e) && PlainFits(s, cs, es)
    ensures PlainFits(s, [c] + cs, [e] + es)
  {
    PairwiseCons(c, cs, e, es, (c, e) => PlainFit(s, c, e));
  }

  /** The non-array children come out in data order, each fitted to its data child. */
  lemma {:induction false} PlainChildren(d: DataElement, k: nat, s: Node, es: seq<Element>)
    requires k <= |d.children| && MapPlain(d, k, s) == Ok(es)
    ensures PlainFits(s, NonArrayChildren(d.children[k..], s), es)
    decreases |d.children| - k
  {
    if k < |d.children| {
      NonArrayStep(d, k, s);
      MapPlainStep(d, k, s, es);
      var rest := NonArrayChildren(d.children[k + 1..], s);
      if IsArrayChild(s, d.children[k].name) {
        PlainChildren(d, k + 1, s, es);
      } else {
        PlainChildren(d, k + 1, s, es[1..]);
        PlainFitsCons(s, d.children[k], rest, es[0], es[1..]);
        assert [es[0]] + es[1..] == es;
      }
    } else {
      assert NonArrayChildren(d.children[k..], s) == [];
    }
  }

  lemma MapRecordsStep(d: DataElement, name: string, k: nat, es: Node, items: seq<Element>)
    requires k < |d.children| && MapRecords(d, name, k, es) == Ok(items)
    ensures d.children[k].name != name ==> MapRecords(d, name, k + 1, es) == Ok(items)
    ensures d.children[k].name == name ==>
              |items| > 0 && MapRecords(d, name, k + 1, es) == Ok(items[1..]) && ToElement(d.children[k], es) == Ok(items[0])
  {
  }

  /** `items` are the data children `g` each mapped under the element schema `es`. */
  predicate Converts(g: seq<DataElement>, es: Node, items: seq<Element>) {
    Pairwise(g, items, (c, e) => ToElement(c, es) == Ok(e))
  }

  lemma ConvertsCons(c: DataElement, g: seq<DataElement>, es: Node, e: Element, items: seq<Element>)
    requires ToElement(c, es) == Ok(e) && Converts(g, es, items)
    ensures Converts([c] + g, es, [e] + items)
  {
    PairwiseCons(c, g, e, items, (c, e) => ToElement(c, es) == Ok(e));
  }

  /** The record items of an array field: item `i` is the `i`-th data child of that name
      mapped under the element schema. */
  lemma {:induction false} RecordItems(d: DataElement, name: string, k: nat, es: Node, items: seq<Element>)
    requires k <= |d.children| && MapRecords(d, name, k, es) == Ok(items)
    ensures Converts(Gather(d.children[k..], name), es, items)
    decreases |d.children| - k
  {
    if k < |d.children| {
      GatherStep(d, k, name);
      MapRecordsStep(d, name, k, es, items);
      if d.children[k].name != name {
        RecordItems(d, name, k + 1, es, items);
      } else {
        RecordItems(d, name, k + 1, es, items[1..]);
        ConvertsCons(d.children[k], Gather(d.children[k + 1..], name), es, items[0], items[1..]);
        assert [items[0]] + items[1..] == items;
      }
    } else {
      assert Gather(d.children[k..], name) == [];
    }
  }

  /** An array field collects every data child of its name, in order, under the schema's
      single element child: as records when the first of them has no value, as leaves
      keeping their values otherwise. */
  lemma ArrayElement(d: DataElement, s: Node, sc: Node, name: string, a: Element)
    requires MapArray(d, s, sc, name) == Ok(a)
    ensures sc.IsArrayType() && |sc.children| == 1
    ensures |a.children| == |Gather(d.children, name)|
    ensures Gather(d.children, name)[0].value.None? ==> Converts(Gather(d.children, name), sc.children[0], a.children)
    ensures Gather(d.children, name)[0].value.Some? ==> a.children == Leaves(Gather(d.children, name), sc.children[0])
  {
    var elems := Gather(d.children, name);
    var es := sc.children[0];
    assert d.children[0..] == d.children;
    if elems[0].value.None? {
      RecordItems(d, name, 0, es, a.children);
    }
  }

  /** The array element made for one name: the array mapping of the schema child of that name. */
  predicate ArrayFits(d: DataElement, s: Node, n: string, a: Element) {
    GetChild(s, n).Ok? && MapArray(d, s, GetChild(s, n).value, n) == Ok(a)
  }

  /** What one fitting array element holds. */
  lemma ArrayFitsSize(d: DataElement, s: Node, n: string, a: Element)
    requires ArrayFits(d, s, n, a)
    ensures a.name == n && a.schema.IsArrayType() && |a.children| == |Gather(d.children, n)|
  {
    ArrayElement(d, s, GetChild(s, n).value, n, a);
  }

  /** The `arrayTypes.forEach` loop maps each collected name through its own schema child:
      the `i`-th array element is the array mapping of the `i`-th name. */
  lemma {:induction false} ArrayOfName(d: DataElement, names: seq<string>, s: Node, arrays: seq<Element>, i: int)
    requires MapArrays(d, names, s) == Ok(arrays) && 0 <= i < |names|
    ensures ArrayFits(d, s, names[i], arrays[i])
    decreases i
  {
    ArraysHead(d, names, s, arrays);
    if i > 0 {
      ArrayOfName(d, names[1..], s, arrays[1..], i - 1);
    }
  }

  /** One step of the `arrayTypes.forEach` loop. */
  lemma ArraysHead(d: DataElement, names: seq<string>, s: Node, arrays: seq<Element>)
    requires MapArrays(d, names, s) == Ok(arrays) && |names| > 0
    ensures ArrayFits(d, s, names[0], arrays[0]) && MapArrays(d, names[1..], s) == Ok(arrays[1..])
  {
  }

  /** After `toSchemaAwareElement`, the child element of an array field's name is that
      array, holding one item per data child of the name; no plain child shares the name. */
  lemma ArrayChildSize(d: DataElement, s: Node, e: Element, name: string)
    requires ToElement(d, s) == Ok(e)
    requires name in ArrayNames(d.children, s)
    ensures exists k :: 0 <= k < |e.children| && e.children[k].name == name
    ensures forall k :: 0 <= k < |e.children| && e.children[k].name == name ==>
              e.children[k].schema.IsArrayType() && |e.children[k].children| == |Gather(d.children, name)|
  {
    ArrayChildExists(d, s, e, name);
    forall k | 0 <= k < |e.children| && e.children[k].name == name
      ensures e.children[k].schema.IsArrayType() && |e.children[k].children| == |Gather(d.children, name)|
    {
      ArrayChildAt(d, s, e, k);
    }
  }

  /** Some child element carries each array field's name. */
  lemma ArrayChildExists(d: DataElement, s: Node, e: Element, name: string)
    requires ToElement(d, s) == Ok(e)
    requires name in ArrayNames(d.children, s)
    ensures exists k :: 0 <= k < |e.children| && e.children[k].name == name
  {
    ElementSplit(d, s, e);
    SplitHasName(d, s, MapPlain(d, 0, s).value, MapArrays(d, ArrayNames(d.children, s), s).value, name);
  }

  lemma SplitHasName(d: DataElement, s: Node, plain: seq<Element>, arrays: seq<Element>, name: string)
    requires MapArrays(d, ArrayNames(d.children, s), s) == Ok(arrays)
    requires name in ArrayNames(d.children, s)
    ensures exists k :: 0 <= k < |plain + arrays| && (plain + arrays)[k].name == name
  {
    var names := ArrayNames(d.children, s);
    var j :| 0 <= j < |names| && names[j] == name;
    assert (plain + arrays)[|plain| + j] == arrays[j];
  }

  /** A child element whose name is an array field's is that array element. */
  lemma ArrayChildAt(d: DataElement, s: Node, e: Element, k: int)
    requires ToElement(d, s) == Ok(e) && 0 <= k < |e.children|
    requires IsArrayChild(s, e.children[k].name)
    ensures e.children[k].schema.IsArrayType() && |e.children[k].children| == |Gather(d.children, e.children[k].name)|
  {
    ElementSplit(d, s, e);
    var plain := MapPlain(d, 0, s).value;
    var arrays := MapArrays(d, ArrayNames(d.children, s), s).value;
    PlainNoArrays(d, s, plain);
    ArraysSized(d, s, arrays);
    SplitChildAt(d, s, plain, arrays, k);
  }

  lemma SplitChildAt(d: DataElement, s: Node, plain: seq<Element>, arrays: seq<Element>, k: int)
    requires forall i :: 0 <= i < |plain| ==> !IsArrayChild(s, plain[i].name)
    requires forall i :: 0 <= i < |arrays| ==>
               arrays[i].schema.IsArrayType() && |arrays[i].children| == |Gather(d.children, arrays[i].name)|
    requires 0 <= k < |plain| + |arrays| && IsArrayChild(s, (plain + arrays)[k].name)
    ensures (plain + arrays)[k].schema.IsArrayType()
    ensures |(plain + arrays)[k].children| == |Gather(d.children, (plain + arrays)[k].name)|
  {
    if k < |plain| {
      assert false;
    } else {
      assert (plain + arrays)[k] == arrays[k - |plain|];
    }
  }

  /** Every array element holds an item per data child of its name. */
  lemma ArraysSized(d: DataElement, s: Node, arrays: seq<Element>)
    requires MapArrays(d, ArrayNames(d.children, s), s) == Ok(arrays)
    ensures forall i :: 0 <= i < |arrays| ==>
              arrays[i].schema.IsArrayType() && |arrays[i].children| == |Gather(d.children, arrays[i].name)|
  {
    forall i | 0 <= i < |arrays|
      ensures arrays[i].schema.IsArrayType() && |arrays[i].children| == |Gather(d.children, arrays[i].name)|
    {
      ArrayAt(d, s, arrays, i);
    }
  }

  /** The `i`-th array element holds an item per data child of its name. */
  lemma ArrayAt(d: DataElement, s: Node, arrays: seq<Element>, i: int)
    requires MapArrays(d, ArrayNames(d.children, s), s) == Ok(arrays) && 0 <= i < |arrays|
    ensures arrays[i].schema.IsArrayType() && |arrays[i].children| == |Gather(d.children, arrays[i].name)|
  {
    var names := ArrayNames(d.children, s);
    ArrayOfName(d, names, s, arrays, i);
    ArrayFitsSize(d, s, names[i], arrays[i]);
  }

  /** A plain child element never carries an array field's name. */
  lemma PlainNotArray(d: DataElement, s: Node, plain: seq<Element>, k: int)
    requires MapPlain(d, 0, s) == Ok(plain) && 0 <= k < |plain|
    ensures !IsArrayChild(s, plain[k].name)
  {
    PlainChildren(d, 0, s, plain);
    assert d.children[0..] == d.children;
    var cs := NonArrayChildren(d.children, s);
    assert plain[k].name == cs[k].name;
  }

  lemma PlainNoArrays(d: DataElement, s: Node, plain: seq<Element>)
    requires MapPlain(d, 0, s) == Ok(plain)
    ensures forall k :: 0 <= k < |plain| ==> !IsArrayChild(s, plain[k].name)
  {
    forall k | 0 <= k < |plain| ensures !IsArrayChild(s, plain[k].name) {
      PlainNotArray(d, s, plain, k);
    }
  }

  /** The names of some elements. */
  function ElementNames(es: seq<Element>): set<string> {
    set e | e in es :: e.name
  }

  /** The names of some data nodes. */
  function DataNames(cs: seq<DataElement>): set<string> {
    set c | c in cs :: c.name
  }

  lemma ElementSplit(d: DataElement, s: Node, e: Element)
    requires ToElement(d, s) == Ok(e)
    ensures MapPlain(d, 0, s).Ok? && MapArrays(d, ArrayNames(d.children, s), s).Ok?
    ensures e.children == MapPlain(d, 0, s).value + MapArrays(d, ArrayNames(d.children, s), s).value
  {
  }

  lemma PlainNames(s: Node, cs: seq<DataElement>, es: seq<Element>)
    requires PlainFits(s, cs, es)
    ensures ElementNames(es) == DataNames(cs)
  {
    forall n | n in ElementNames(es) ensures n in DataNames(cs) {
      var i :| 0 <= i < |es| && es[i].name == n;
      assert cs[i] in cs;
    }
    forall n | n in DataNames(cs) ensures n in ElementNames(es) {
      var i :| 0 <= i < |cs| && cs[i].name == n;
      assert es[i] in es;
    }
  }

  lemma ArrayElementNames(names: seq<string>, arrays: seq<Element>)
    requires |arrays| == |names| && forall i :: 0 <= i < |names| ==> arrays[i].name == names[i]
    ensures ElementNames(arrays) == set n | n in names
  {
    forall n | n in ElementNames(arrays) ensures n in names {
      var i :| 0 <= i < |arrays| && arrays[i].name == n;
    }
    forall n | n in names ensures n in ElementNames(arrays) {
      var i :| 0 <= i < |names| && names[i] == n;
      assert arrays[i] in arrays;
    }
  }

  /** Every data child name is either a non-array child's or an array field's. */
  lemma DataNamesSplit(cs: seq<DataElement>, s: Node)
    ensures DataNames(cs) == DataNames(NonArrayChildren(cs, s)) + set n | n in ArrayNames(cs, s)
  {
    var rest := NonArrayChildren(cs, s);
    var names := ArrayNames(cs, s);
    forall n | n in DataNames(cs) ensures n in DataNames(rest) || n in names {
      var j :| 0 <= j < |cs| && cs[j].name == n;
      if !IsArrayChild(s, n) {
        assert cs[j] in rest;
      }
    }
    forall n | n in DataNames(rest) ensures n in DataNames(cs) {
      var c :| c in rest && c.name == n;
      assert c in cs;
    }
    forall n | n in names ensures n in DataNames(cs) {
      var j :| 0 <= j < |cs| && Names(cs)[j] == n;
      assert cs[j] in cs;
    }
  }

  lemma ConcatNames(a: seq<Element>, b: seq<Element>)
    ensures ElementNames(a + b) == ElementNames(a) + ElementNames(b)
  {
    forall n | n in ElementNames(a + b) ensures n in ElementNames(a) || n in ElementNames(b) {
      var e :| e in a + b && e.name == n;
    }
    forall n | n in ElementNames(a) ensures n in ElementNames(a + b) {
      var e :| e in a && e.name == n;
      assert e in a + b;
    }
    forall n | n in ElementNames(b) ensures n in ElementNames(a + b) {
      var e :| e in b && e.name == n;
      assert e in a + b;
    }
  }

  /** The element of a data node has the same child names as the node: nothing is dropped
      and nothing is invented, only the array children are regrouped under one element per
      name. */
  lemma SameChildNames(d: DataElement, s: Node, e: Element)
    requires ToElement(d, s) == Ok(e)
    ensures ElementNames(e.children) == DataNames(d.children)
  {
    ElementSplit(d, s, e);
    var plain := MapPlain(d, 0, s).value;
    var names := ArrayNames(d.children, s);
    var arrays := MapArrays(d, names, s).value;
    assert d.children[0..] == d.children;
    PlainChildren(d, 0, s, plain);
    PlainNames(s, NonArrayChildren(d.children, s), plain);
    ArrayElementNames(names, arrays);
    DataNamesSplit(d.children, s);
    ConcatNames(plain, arrays);
  }

  /** A data child whose name the schema node does not have makes the conversion fail. */
  lemma UnknownChildFails(d: DataElement, s: Node, i: int)
    requires 0 <= i < |d.children|
    requires forall j :: 0 <= j < |s.children| ==> s.children[j].name != d.children[i].name
    ensures ToElement(d, s).Err?
  {
  }

  /** A leaf of the schema tree accepts no data children, so the leaf branch taken below a
      simple-typed parent is reached only by failing first. */
  lemma SimpleParentFails(d: DataElement, s: Node)
    requires |d.children| > 0 && s.children == []
    ensures ToElement(d, s).Err?
  {
    UnknownChildFails(d, s, 0);
  }

  /** The record of a data node without a value has exactly one field per distinct child name. */
  lemma MaterializeKeys(d: DataElement, s: Node, m: map<string, Value>)
    requires d.value.None?
    requires Materialize(d, s) == Ok(RecordValue(m))
    ensures m.Keys == DataNames(d.children)
  {
    var e := ToElement(d, s).value;
    SameChildNames(d, s, e);
    RecordKeys(e, m);
  }

  /** A record built from children has one field per distinct child name. */
  lemma RecordKeys(e: Element, m: map<string, Value>)
    requires e.value.None? && ToRecord(e) == Ok(RecordValue(m))
    ensures m.Keys == ElementNames(e.children)
  {
    RecordSplit(e, m);
    var asg := ChildAssignments(e, e.children).value;
    AssignedNames(e, e.children, asg);
    AssignmentKeys(e.children, asg);
  }

  lemma AssignedNames(parent: Element, cs: seq<Element>, asg: seq<(string, Value)>)
    requires ChildAssignments(parent, cs) == Ok(asg)
    ensures |asg| == |cs| && forall i :: 0 <= i < |cs| ==> asg[i].0 == cs[i].name
  {
    forall i | 0 <= i < |cs| ensures asg[i].0 == cs[i].name {
      assert ChildAssignment(parent, cs[i]) == Ok(asg[i]);
    }
  }

  lemma AssignmentKeys(cs: seq<Element>, asg: seq<(string, Value)>)
    requires |asg| == |cs| && forall i :: 0 <= i < |cs| ==> asg[i].0 == cs[i].name
    ensures Assignments(asg).Keys == ElementNames(cs)
  {
  }

  lemma RecordSplit(e: Element, m: map<string, Value>)
    requires e.value.None? && ToRecord(e) == Ok(RecordValue(m))
    ensures ChildAssignments(e, e.children).Ok? && m == Assignments(ChildAssignments(e, e.children).value)
  {
  }

  /** The record of a data node with a value is that value, converted, under the node's name. */
  lemma MaterializeValue(d: DataElement, s: Node)
    requires d.value.Some?
    requires Materialize(d, s).Ok?
    ensures Materialize(d, s).value.fields.Keys == {d.name}
    ensures Materialize(d, s).value.fields[d.name] == Coerce(s.Type(), s.optional, d.value).value
  {
    var e := ToElement(d, s).value;
    assert SetSimple(s.Type(), e).Ok?;
  }

  /** A data node with a value under a record schema, the case of every parsed root: its
      record cannot be built, because `setSimpleType` has no converter for RECORD. */
  lemma ValuedRecordRootFails(d: DataElement, s: Node)
    requires d.value.Some? && s.IsRecordType()
    ensures Materialize(d, s).Err?
    ensures ToElement(d, s).Ok? ==>
              Materialize(d, s) == Err(Conversion("RECORD" + " do not currently have a converter"
                                                  + "\ndata:(" + Describe(ToElement(d, s).value) + ")"))
  {
    if ToElement(d, s).Ok? {
      assert RECORD.Constant() == "RECORD";
    }
  }

  /** A later assignment to a name replaces every earlier one. */
  lemma {:induction false} AssignmentsLastWins(asg: seq<(string, Value)>, i: int)
    requires 0 <= i < |asg|
    requires forall j :: i < j < |asg| ==> asg[j].0 != asg[i].0
    ensures asg[i].0 in Assignments(asg) && Assignments(asg)[asg[i].0] == asg[i].1
    decreases |asg|
  {
    if i < |asg| - 1 {
      AssignmentsLastWins(asg[..|asg| - 1], i);
    }
  }

  /** Each field of a record holds what the last child of that name assigns. */
  lemma RecordField(e: Element, m: map<string, Value>, i: int)
    requires e.value.None? && ToRecord(e) == Ok(RecordValue(m))
    requires 0 <= i < |e.children|
    requires forall j :: i < j < |e.children| ==> e.children[j].name != e.children[i].name
    ensures e.children[i].name in m
    ensures ChildAssignment(e, e.children[i]) == Ok((e.children[i].name, m[e.children[i].name]))
  {
    RecordSplit(e, m);
    var asg := ChildAssignments(e, e.children).value;
    AssignedNames(e, e.children, asg);
    AssignmentsLastWins(asg, i);
    assert ChildAssignment(e, e.children[i]) == Ok(asg[i]);
  }

  /** Numbers written in decimal come back unchanged through the `int` and `long`
      converters, as long as they fit. */
  lemma CoerceShowRoundTrip(n: int, optional: bool)
    ensures INT_MIN <= n <= INT_MAX ==> Coerce(INT, optional, Some(ShowInt(n))) == Ok(IntValue(n))
    ensures LONG_MIN <= n <= LONG_MAX ==> Coerce(LONG, optional, Some(ShowInt(n))) == Ok(LongValue(n))
    ensures n > LONG_MAX ==> Coerce(LONG, optional, Some(ShowInt(n))) == Err(BadInputMessage(ShowInt(n)))
  {
    ParseShowRoundTrip(n);
  }
}
