/** `SchemaBuddy.SchemaParser`: turns an Avro schema into the annotated schema tree.

    The Java parser attaches every node it creates to the parent it is given. Below a
    parent, one call of `mapRecursiveSchemas` attaches exactly one node (a union resolves to
    one member and recurses), so `Build` returns that node. Without a parent (the top-level
    call), only a record yields a node; `Detached` models that call. */
module SchemaParser {
  import opened Wrappers
  import opened Avro
  import opened Errors
  import opened SchemaBuddy
  import opened Seqs

  /** `isOptional(field)`: the field's schema is a union whose first member is `null`.
      For a union without members the Java code fails here with the same out-of-bounds
      error that `processUnion` raises next, so that case is left to `ResolveUnion`. */
  predicate IsOptionalField(f: Field) {
    f.schema.shape.Union? && |f.schema.shape.members| > 0 && f.schema.shape.members[0].Type() == NULL
  }

  /** Which union member to build, and the flags it gets. */
  datatype Resolution = Resolution(member: nat, optional: bool, nullable: bool)

  /** `processUnion`: reads members 0 and 1 (failing on a shorter list); `null` first makes
      the other member optional, `null` second makes the first member nullable. */
  function ResolveUnion(ms: seq<Schema>): (r: Result<Resolution, Error>)
    ensures r.Ok? <==> |ms| >= 2 && (ms[0].Type() == NULL || ms[1].Type() == NULL)
    ensures r.Ok? ==> r.value.member < 2 && (r.value.optional <==> ms[0].Type() == NULL)
    ensures r.Ok? ==> r.value.nullable == !r.value.optional
    ensures r.Ok? ==> r.value.member == (if r.value.optional then 1 else 0)
    ensures |ms| == 0 ==> r == Err(IndexOutOfBounds(0, 0))
    ensures |ms| == 1 ==> r == Err(IndexOutOfBounds(1, 1))
    ensures |ms| >= 2 && ms[0].Type() != NULL && ms[1].Type() != NULL ==> r == Err(UndecodableUnion(ms))
  {
    if |ms| == 0 then Err(IndexOutOfBounds(0, 0))
    else if |ms| == 1 then Err(IndexOutOfBounds(1, 1))
    else if ms[0].Type() == NULL then Ok(Resolution(1, true, false))
    else if ms[1].Type() == NULL then Ok(Resolution(0, false, true))
    else Err(UndecodableUnion(ms))
  }

  /** Only the first two members decide a union: members after the second change nothing
      but the member list in the error message. */
  lemma UnionLooksAtTwoMembers(ms: seq<Schema>)
    requires |ms| >= 2
    ensures ResolveUnion(ms).Ok? == ResolveUnion(ms[..2]).Ok?
    ensures ResolveUnion(ms).Ok? ==> ResolveUnion(ms) == ResolveUnion(ms[..2])
  {
  }

  /** The flags a call can pass down without contradiction: a union replaces them anyway. */
  predicate Consistent(s: Schema, optional: bool, nullable: bool) {
    s.shape.Union? || !(optional && nullable)
  }

  /** A union whose chosen member is itself a union. Avro rejects such schemas; the parser
      would let the inner union's resolution decide the flags. */
  predicate NestedUnion(s: Schema) {
    s.shape.Union? && |s.shape.members| >= 2
    && (if s.shape.members[0].Type() == NULL then s.shape.members[1] else s.shape.members[0]).shape.Union?
  }

  /** The children of a record node correspond one-to-one, in order, to its fields, and a
      child is optional exactly when its field is declared as a union with `null` first. */
  predicate MatchesFields(cs: seq<Node>, fs: seq<Field>) {
    |cs| == |fs|
    && forall i :: 0 <= i < |cs| ==>
         cs[i].name == fs[i].name && (!NestedUnion(fs[i].schema) ==> cs[i].optional == IsOptionalField(fs[i]))
  }

  /** The shape of every tree the parser builds. */
  predicate WellFormed(n: Node) {
    && n.Type() != UNION
    && (n.IsArrayType() ==> |n.children| == 1 && n.children[0].name == n.name && !n.nullable)
    && (n.IsRecordType() ==> !n.nullable && MatchesFields(n.children, n.schema.shape.fields))
    && (n.IsSimpleType() ==> n.children == [])
    && forall i :: 0 <= i < |n.children| ==>
         WellFormed(n.children[i]) && !(n.children[i].optional && n.children[i].nullable)
  }

  /** `mapRecursiveSchemas` below an existing parent: the node it attaches. */
  function Build(name: string, s: Schema, props: Props, optional: bool, nullable: bool): (r: Result<Node, Error>)
    ensures r.Ok? ==> r.value.name == name
    ensures r.Ok? && !s.shape.Union? ==>
              r.value.schema == s && r.value.props == props && r.value.optional == optional
              && r.value.nullable == (nullable && r.value.IsSimpleType())
    ensures r.Ok? && s.shape.Union? ==> |s.shape.members| >= 2
    ensures r.Ok? && s.shape.Union? && !NestedUnion(s) ==>
              r.value.optional == (s.shape.members[0].Type() == NULL)
    ensures r.Ok? && Consistent(s, optional, nullable) ==>
              WellFormed(r.value) && !(r.value.optional && r.value.nullable)
    decreases s, 1
  {
    match s.shape
    case Union(ms) =>
      var res :- ResolveUnion(ms);
      Build(name, ms[res.member], props, res.optional, res.nullable)
    case Array(items) =>
      var element :- Build(name, items, s.props, optional, nullable);
      Ok(Node(s, name, props, optional, false, [element]))
    case Record(_, fields) =>
      var cs :- BuildFields(fields, nullable);
      Ok(Node(s, name, props, optional, false, cs))
    case _ =>
      Ok(Node(s, name, props, optional, nullable, []))
  }

  /** The field loop of the record case: one child per field, in declaration order, each with
      the field's own name and properties, `isOptional(field)` and the record's `nullable`. */
  function BuildFields(fs: seq<Field>, nullable: bool): (r: Result<seq<Node>, Error>)
    ensures r.Ok? ==> MatchesFields(r.value, fs)
    ensures r.Ok? ==> forall i :: 0 <= i < |r.value| ==>
                        WellFormed(r.value[i]) && !(r.value[i].optional && r.value[i].nullable)
    decreases fs, 0
  {
    if |fs| == 0 then Ok([])
    else
      var head :- Build(fs[0].name, fs[0].schema, fs[0].props, IsOptionalField(fs[0]), nullable);
      var tail :- BuildFields(fs[1..], nullable);
      Ok([head] + tail)
  }

  /** `mapRecursiveSchemas` with a null parent: a record is returned, a union resolves and
      recurses but returns null, an array fails, and a simple type fails on the null parent. */
  function Detached(name: string, s: Schema, props: Props, optional: bool, nullable: bool): (r: Result<Option<Node>, Error>)
    ensures r.Ok? && r.value.Some? ==>
              s.shape.Record? && r.value.value.name == name && r.value.value.IsRecordType()
              && r.value.value.optional == optional && !r.value.value.nullable
              && WellFormed(r.value.value)
    ensures r.Ok? && r.value.None? ==> s.shape.Union?
    ensures s.shape.Array? ==> r == Err(ArrayWithoutParent)
    ensures !s.shape.Record? && !s.shape.Union? && !s.shape.Array? ==> r == Err(SimpleTypeWithoutParent)
    decreases s
  {
    match s.shape
    case Union(ms) =>
      var res :- ResolveUnion(ms);
      var discarded :- Detached(name, ms[res.member], props, res.optional, res.nullable);
      Ok(None)
    case Array(_) => Err(ArrayWithoutParent)
    case Record(_, fields) =>
      var cs :- BuildFields(fields, nullable);
      Ok(Some(Node(s, name, props, optional, false, cs)))
    case _ => Err(SimpleTypeWithoutParent)
  }

  /** `SchemaBuddy.parse(schema)`: the tree of a top-level record, named by the schema. */
  function Parse(s: Schema): (r: Result<Option<Node>, Error>)
    ensures r.Ok? && r.value.Some? ==>
              r.value.value.IsRecordType() && r.value.value.name == s.Name()
              && !r.value.value.optional && !r.value.value.nullable && WellFormed(r.value.value)
    ensures s.shape.Record? ==> r.Err? || r.value.Some?
    ensures r.Ok? && r.value.None? ==> s.shape.Union?
  {
    Detached(s.Name(), s, s.props, false, false)
  }

  /** A union is decided by its first two members alone and discards the flags it was given:
      `null` first builds the second member as optional, `null` second builds the first
      member as nullable, anything else fails. */
  lemma UnionResolution(name: string, s: Schema, props: Props, optional: bool, nullable: bool)
    requires s.shape.Union?
    ensures var ms := s.shape.members;
            && (|ms| == 0 ==> Build(name, s, props, optional, nullable) == Err(IndexOutOfBounds(0, 0)))
            && (|ms| == 1 ==> Build(name, s, props, optional, nullable) == Err(IndexOutOfBounds(1, 1)))
            && (|ms| >= 2 && ms[0].Type() == NULL ==>
                  Build(name, s, props, optional, nullable) == Build(name, ms[1], props, true, false))
            && (|ms| >= 2 && ms[0].Type() != NULL && ms[1].Type() == NULL ==>
                  Build(name, s, props, optional, nullable) == Build(name, ms[0], props, false, true))
            && (|ms| >= 2 && ms[0].Type() != NULL && ms[1].Type() != NULL ==>
                  Build(name, s, props, optional, nullable) == Err(UndecodableUnion(ms)))
  {
  }

  /** An array becomes a node with exactly one child, the element, which carries the array's
      name, the array schema's own properties and the flags the array was given; the array
      node itself keeps `optional` and stores `nullable` as false. */
  lemma ArrayNode(name: string, s: Schema, props: Props, optional: bool, nullable: bool)
    requires s.shape.Array?
    ensures var r := Build(name, s, props, optional, nullable);
            var e := Build(name, s.shape.items, s.props, optional, nullable);
            && r.Ok? == e.Ok?
            && (r.Err? ==> r.error == e.error)
            && (r.Ok? ==> r.value.children == [e.value] && r.value.optional == optional && !r.value.nullable
                          && r.value.name == e.value.name == name)
            && (r.Ok? && !s.shape.items.shape.Union? ==>
                  e.value.props == s.props && e.value.optional == optional)
  {
  }

  /** The record's inherited `nullable` reaches its fields: below a record built as nullable
      every simple field that is not itself a union is nullable, while the record node
      stores false. */
  lemma NullableReachesFields(name: string, s: Schema, props: Props, optional: bool)
    requires s.shape.Record?
    ensures var r := Build(name, s, props, optional, true);
            r.Ok? ==> !r.value.nullable && |r.value.children| == |s.shape.fields|
                      && forall i :: (0 <= i < |r.value.children| && !s.shape.fields[i].schema.shape.Union?
                                      && r.value.children[i].IsSimpleType()) ==> r.value.children[i].nullable
  {
    var r := Build(name, s, props, optional, true);
    if r.Ok? {
      NullableFields(s.shape.fields, true);
    }
  }

  lemma {:induction false} NullableFields(fs: seq<Field>, nullable: bool)
    ensures var r := BuildFields(fs, nullable);
            r.Ok? ==> forall i :: 0 <= i < |r.value| && !fs[i].schema.shape.Union? ==>
                        r.value[i].nullable == (nullable && r.value[i].IsSimpleType())
  {
    if |fs| > 0 {
      NullableFields(fs[1..], nullable);
      var r := BuildFields(fs, nullable);
      if r.Ok? {
        var tail := BuildFields(fs[1..], nullable);
        assert r.value[1..] == tail.value;
        forall i | 0 < i < |r.value| && !fs[i].schema.shape.Union?
          ensures r.value[i].nullable == (nullable && r.value[i].IsSimpleType())
        {
          assert r.value[i] == tail.value[i - 1] && fs[i] == fs[1..][i - 1];
        }
      }
    }
  }

  /** A top-level union never yields a tree: whatever its chosen member builds, `parse`
      returns null, and the callback overload reports the failure. */
  lemma TopLevelUnionYieldsNothing(s: Schema)
    requires s.shape.Union?
    ensures Parse(s).Err? || Parse(s) == Ok(None)
    ensures ParseWithCallback(s).Err?
  {
  }

  lemma {:induction false} WellFormedArraysHaveOneElement(n: Node)
    requires WellFormed(n)
    ensures SingleElementArrays(n)
  {
    forall i | 0 <= i < |n.children|
      ensures SingleElementArrays(n.children[i])
    {
      WellFormedArraysHaveOneElement(n.children[i]);
    }
  }

  /** `SchemaBuddy.parse(schema, callback)`: the cursors handed to the callback, in order.
      Every one is a branch or a simple type, never both, and none is an array. */
  function ParseWithCallback(s: Schema): (r: Result<seq<Cursor>, Error>)
    ensures r.Ok? ==> |r.value| >= 1 && r.value[0].ancestors == [] && r.value[0].node.IsRecordType()
    ensures r.Ok? ==> forall i :: 0 <= i < |r.value| ==>
                        !r.value[i].node.IsArrayType()
                        && (IsBranch(r.value[i]) <==> !r.value[i].node.IsSimpleType())
    ensures Parse(s).Err? ==> r == Err(Parse(s).error)
    ensures Parse(s) == Ok(None) ==> r == Err(ParseFailed)
    ensures r.Ok? ==> Parse(s).Ok? && Parse(s).value.Some?
                      && r.value == Filter(Preorder(At(Parse(s).value.value, [])), NotArray)
  {
    var root :- Parse(s);
    if root.None? then Err(ParseFailed)
    else
      WellFormedArraysHaveOneElement(root.value);
      var visits := Traverse(At(root.value, []));
      TraverseIsPreorderWithoutArrays(At(root.value, []));
      Ok(visits)
  }
}
