/** The annotated schema tree (`SchemaBuddy`): one node per named schema position, carrying
    the schema, the name it is reached by, its properties and the `optional` / `nullable`
    flags that union resolution produced. The parser that builds it is `SchemaParser`.

    The Java node keeps a mutable parent pointer. Here a node is an immutable value, and a
    `Cursor` pairs it with its ancestors (innermost first): everything the Java code asks of
    the parent chain (`isBranch`, `isRoot`, `getNotArrayParent`, `getIntendString`) is a
    function of the cursor. */
module SchemaBuddy {
  import opened Wrappers
  import opened Avro
  import opened Errors
  import opened Text
  import opened Seqs

  datatype Node = Node(schema: Schema, name: string, props: Props, optional: bool,
                       nullable: bool, children: seq<Node>)
  {
    function Type(): Type {
      schema.Type()
    }

    predicate IsArrayType() {
      Type() == ARRAY
    }

    predicate IsRecordType() {
      Type() == RECORD
    }

    /** `isSimpleType()`: neither an array nor a record. */
    predicate IsSimpleType() {
      !IsArrayType() && Type() != RECORD
    }

    /** `toString()`: `name: type optional:b nullable:b`. */
    function Describe(): string {
      name + ": " + Type().Name() + FlagsText(optional, nullable)
    }
  }

  /** The ` optional:b nullable:b` tail of a node's `toString()`. */
  function FlagsText(optional: bool, nullable: bool): string {
    " optional:" + BoolText(optional) + " nullable:" + BoolText(nullable)
  }

  function NameOf(n: Node): string {
    n.name
  }

  /** A node together with the chain of its ancestors, the parent first. */
  datatype Cursor = At(node: Node, ancestors: seq<Node>)

  /** The cursor of the `i`-th child. */
  function Child(c: Cursor, i: nat): (r: Cursor)
    requires i < |c.node.children|
    ensures r.node == c.node.children[i]
    ensures |r.ancestors| == |c.ancestors| + 1 && r.ancestors[0] == c.node && r.ancestors[1..] == c.ancestors
  {
    At(c.node.children[i], [c.node] + c.ancestors)
  }

  /** `isBranch()`: the root, a record or an array. */
  predicate IsBranch(c: Cursor) {
    |c.ancestors| == 0 || c.node.IsRecordType() || c.node.IsArrayType()
  }

  /** `isRoot()`: false below the top; at the top, true for a record and a failure otherwise. */
  function IsRoot(c: Cursor): (r: Result<bool, Error>)
    ensures r.Ok? <==> |c.ancestors| > 0 || c.node.IsRecordType()
    ensures r == Ok(true) <==> |c.ancestors| == 0 && c.node.IsRecordType()
    ensures r.Err? ==> r.error == RootNotRecord(c.node.Describe())
  {
    if |c.ancestors| > 0 then Ok(false)
    else if !c.node.IsRecordType() then Err(RootNotRecord(c.node.Describe()))
    else Ok(true)
  }

  /** Below the top, a node is a branch exactly when it is not a simple type; the top is a
      branch whatever its type, so only a record top keeps the two apart. */
  lemma BranchOrSimple(c: Cursor)
    ensures |c.ancestors| > 0 ==> (IsBranch(c) <==> !c.node.IsSimpleType())
    ensures |c.ancestors| == 0 ==> (IsBranch(c) && (c.node.IsSimpleType() <==> !c.node.IsArrayType() && !c.node.IsRecordType()))
  {
  }

  /** `getNotArrayParent()`: the parent, or the grandparent when the parent is an array. */
  function NotArrayParent(c: Cursor): (r: Option<Node>)
    ensures r.Some? <==> |c.ancestors| >= 2 || (|c.ancestors| == 1 && !c.ancestors[0].IsArrayType())
    ensures r.Some? && !c.ancestors[0].IsArrayType() ==> r.value == c.ancestors[0]
    ensures r.Some? && c.ancestors[0].IsArrayType() ==> r.value == c.ancestors[1]
  {
    if |c.ancestors| == 0 then None
    else if c.ancestors[0].IsArrayType() then
      (if |c.ancestors| == 1 then None else Some(c.ancestors[1]))
    else Some(c.ancestors[0])
  }

  /** `getId()`: the `id` property when the schema has one, otherwise a per-node random token
      (supplied here as a parameter). */
  function Id(n: Node, token: string): (r: string)
    ensures "id" in n.props ==> r == n.props["id"]
    ensures "id" !in n.props ==> r == token
  {
    if "id" in n.props then n.props["id"] else token
  }

  /** A schema-provided id does not depend on the token, so repeated saves reuse it; without
      one, distinct tokens give distinct ids. */
  lemma IdStability(n: Node, t1: string, t2: string)
    ensures "id" in n.props ==> Id(n, t1) == Id(n, t2)
    ensures "id" !in n.props && t1 != t2 ==> Id(n, t1) != Id(n, t2)
  {
  }

  /** A child always has a parent, so `isBranch` on it reduces to "record or array". */
  predicate IsBranchChild(n: Node) {
    n.IsRecordType() || n.IsArrayType()
  }

  lemma ChildBranch(c: Cursor, i: nat)
    requires i < |c.node.children|
    ensures IsBranch(Child(c, i)) <==> IsBranchChild(c.node.children[i])
  {
  }

  predicate IsSimpleChild(n: Node) {
    n.IsSimpleType()
  }

  /** `getComplexTypeChildren()`. */
  function ComplexTypeChildren(n: Node): (r: seq<Node>)
    ensures forall i :: 0 <= i < |r| ==> r[i] in n.children && !r[i].IsSimpleType()
    ensures forall i :: 0 <= i < |n.children| && !n.children[i].IsSimpleType() ==> n.children[i] in r
  {
    Filter(n.children, IsBranchChild)
  }

  /** `getSimpleTypeChildren()`. */
  function SimpleTypeChildren(n: Node): (r: seq<Node>)
    ensures forall i :: 0 <= i < |r| ==> r[i] in n.children && r[i].IsSimpleType()
    ensures forall i :: 0 <= i < |n.children| && n.children[i].IsSimpleType() ==> n.children[i] in r
  {
    Filter(n.children, IsSimpleChild)
  }

  /** The complex and the simple children split the children between them. */
  lemma ChildrenPartition(n: Node)
    ensures |ComplexTypeChildren(n)| + |SimpleTypeChildren(n)| == |n.children|
    ensures multiset(ComplexTypeChildren(n)) + multiset(SimpleTypeChildren(n)) == multiset(n.children)
  {
    FilterPartition(n.children, IsBranchChild, IsSimpleChild);
    FilterCounts(n.children, IsBranchChild);
    FilterCounts(n.children, IsSimpleChild);
    assert forall x :: IsBranchChild(x) == !IsSimpleChild(x);
  }

  /** `addChild` (which appends): the two filtered lists keep the children's order, so the
      new child lands at the end of the one it belongs to. */
  lemma ChildrenAppend(n: Node, c: Node)
    ensures ComplexTypeChildren(n.(children := n.children + [c]))
              == ComplexTypeChildren(n) + (if c.IsSimpleType() then [] else [c])
    ensures SimpleTypeChildren(n.(children := n.children + [c]))
              == SimpleTypeChildren(n) + (if c.IsSimpleType() then [c] else [])
  {
    FilterAppend(n.children, [c], IsBranchChild);
    FilterAppend(n.children, [c], IsSimpleChild);
    assert [c][1..] == [];
  }

  /** `children.toString()`: `[` + the children's `toString()` joined by `, ` + `]`. */
  function ChildrenText(cs: seq<Node>): string {
    "[" + Join(seq(|cs|, i requires 0 <= i < |cs| => cs[i].Describe()), ", ") + "]"
  }

  /** `getChild(name)`: the first child with that name; a failure naming the children otherwise. */
  function GetChild(n: Node, name: string): (r: Result<Node, Error>)
    ensures r.Ok? <==> exists i :: 0 <= i < |n.children| && n.children[i].name == name
    ensures r.Ok? ==> exists i :: 0 <= i < |n.children| && n.children[i] == r.value
                                 && r.value.name == name
                                 && forall j :: 0 <= j < i ==> n.children[j].name != name
    ensures r.Err? ==> r.error == ChildNotFound(name, ChildrenText(n.children))
  {
    var i := FirstIndex(n.children, NameOf, name);
    if i < |n.children| then Ok(n.children[i]) else Err(ChildNotFound(name, ChildrenText(n.children)))
  }

  /** The lookup returns the child at the first index carrying the name. */
  lemma GetChildAt(n: Node, name: string, i: int)
    requires 0 <= i < |n.children| && n.children[i].name == name
    requires forall j :: 0 <= j < i ==> n.children[j].name != name
    ensures GetChild(n, name) == Ok(n.children[i])
  {
    var r := GetChild(n, name);
    assert r.Ok?;
    var k :| 0 <= k < |n.children| && n.children[k] == r.value && r.value.name == name
             && forall j :: 0 <= j < k ==> n.children[j].name != name;
    assert k == i;
  }

  /** `getArrayTypeSchema()`: the single element child of an array node that has a parent. */
  function ArrayTypeSchema(c: Cursor): (r: Result<Node, Error>)
    ensures r.Ok? <==> |c.ancestors| > 0 && c.node.IsArrayType() && |c.node.children| == 1
    ensures r.Ok? ==> r.value == c.node.children[0]
    ensures |c.ancestors| == 0 ==> r == Err(ParentRequired)
    ensures |c.ancestors| > 0 && !c.node.IsArrayType() ==> r == Err(NotArrayType(c.node.Type()))
    ensures |c.ancestors| > 0 && c.node.IsArrayType() && |c.node.children| != 1 ==>
              r == Err(NotSingleElement(c.node.Describe()))
  {
    if |c.ancestors| == 0 then Err(ParentRequired)
    else if c.node.Type() != ARRAY then Err(NotArrayType(c.node.Type()))
    else if |c.node.children| != 1 then Err(NotSingleElement(c.node.Describe()))
    else Ok(c.node.children[0])
  }

  /** The shape `traverse` relies on: every array node has exactly one child. */
  predicate SingleElementArrays(n: Node) {
    (n.IsArrayType() ==> |n.children| == 1)
    && forall i :: 0 <= i < |n.children| ==> SingleElementArrays(n.children[i])
  }

  /** All cursors below and including `c`, in pre-order: the reference order. */
  function Preorder(c: Cursor): (r: seq<Cursor>)
    ensures |r| >= 1 && r[0] == c
    decreases c.node, 1
  {
    [c] + PreorderAll(c.node.children, [c.node] + c.ancestors)
  }

  function PreorderAll(cs: seq<Node>, ancestors: seq<Node>): seq<Cursor>
    decreases cs, 0
  {
    if |cs| == 0 then [] else Preorder(At(cs[0], ancestors)) + PreorderAll(cs[1..], ancestors)
  }

  predicate NotArray(c: Cursor) {
    !c.node.IsArrayType()
  }

  /** `traverse`: hands every node to the callback in pre-order, except that an array node is
      replaced by the traversal of its single element. The sequence of cursors is the
      sequence of callback invocations. */
  function Traverse(c: Cursor): (r: seq<Cursor>)
    requires SingleElementArrays(c.node)
    ensures forall i :: 0 <= i < |r| ==> !r[i].node.IsArrayType()
    ensures !c.node.IsArrayType() ==> |r| >= 1 && r[0] == c
    ensures forall i :: 0 <= i < |r| ==> |r[i].ancestors| >= |c.ancestors|
    ensures forall i :: 0 <= i < |r| && r[i] != c ==> |r[i].ancestors| > |c.ancestors|
    decreases c.node, 1
  {
    if c.node.IsArrayType() then Traverse(At(c.node.children[0], [c.node] + c.ancestors))
    else [c] + TraverseAll(c.node.children, [c.node] + c.ancestors)
  }

  function TraverseAll(cs: seq<Node>, ancestors: seq<Node>): (r: seq<Cursor>)
    requires forall i :: 0 <= i < |cs| ==> SingleElementArrays(cs[i])
    ensures forall i :: 0 <= i < |r| ==> !r[i].node.IsArrayType()
    ensures forall i :: 0 <= i < |r| ==> |r[i].ancestors| >= |ancestors|
    decreases cs, 0
  {
    if |cs| == 0 then []
    else Traverse(At(cs[0], ancestors)) + TraverseAll(cs[1..], ancestors)
  }

  /** The traversal is exactly the pre-order of the tree with the array nodes left out. */
  lemma {:induction false} TraverseIsPreorderWithoutArrays(c: Cursor)
    requires SingleElementArrays(c.node)
    ensures Traverse(c) == Filter(Preorder(c), NotArray)
    decreases c.node, 1
  {
    var below := PreorderAll(c.node.children, [c.node] + c.ancestors);
    TraverseAllIsPreorder(c.node.children, [c.node] + c.ancestors);
    FilterAppend([c], below, NotArray);
    if c.node.IsArrayType() {
      var cs := c.node.children;
      var e := At(cs[0], [c.node] + c.ancestors);
      assert cs[1..] == [];
      assert below == Preorder(e) + [];
      TraverseIsPreorderWithoutArrays(e);
    }
  }

  lemma {:induction false} TraverseAllIsPreorder(cs: seq<Node>, ancestors: seq<Node>)
    requires forall i :: 0 <= i < |cs| ==> SingleElementArrays(cs[i])
    ensures TraverseAll(cs, ancestors) == Filter(PreorderAll(cs, ancestors), NotArray)
    decreases cs, 0
  {
    if |cs| > 0 {
      TraverseIsPreorderWithoutArrays(At(cs[0], ancestors));
      TraverseAllIsPreorder(cs[1..], ancestors);
      FilterAppend(Preorder(At(cs[0], ancestors)), PreorderAll(cs[1..], ancestors), NotArray);
    }
  }

  /** One line of `toString(true)`: `getIntendString()` for the node's number of ancestors,
      then `toString()`. */
  function Line(c: Cursor): string {
    Indent(|c.ancestors|) + c.node.Describe() + "\n"
  }

  /** `toString(true)`, line by line: the node's own line, then each child's dump. The string
      itself is these lines one after another. */
  function DumpLines(c: Cursor): seq<string>
    decreases c.node, 1
  {
    [Line(c)] + DumpLinesAll(c.node.children, [c.node] + c.ancestors)
  }

  function DumpLinesAll(cs: seq<Node>, ancestors: seq<Node>): seq<string>
    decreases cs, 0
  {
    if |cs| == 0 then [] else DumpLines(At(cs[0], ancestors)) + DumpLinesAll(cs[1..], ancestors)
  }

  /** `lines` renders `cursors` one line each, in the same order. */
  predicate RendersLines(lines: seq<string>, cursors: seq<Cursor>) {
    |lines| == |cursors| && forall i :: 0 <= i < |lines| ==> lines[i] == Line(cursors[i])
  }

  lemma RendersAppend(l1: seq<string>, c1: seq<Cursor>, l2: seq<string>, c2: seq<Cursor>)
    requires RendersLines(l1, c1) && RendersLines(l2, c2)
    ensures RendersLines(l1 + l2, c1 + c2)
  {
    var l, c := l1 + l2, c1 + c2;
    forall i | 0 <= i < |l|
      ensures l[i] == Line(c[i])
    {
      if i < |l1| {
        assert l[i] == l1[i] && c[i] == c1[i];
      } else {
        assert l[i] == l2[i - |l1|] && c[i] == c2[i - |l1|];
      }
    }
  }

  /** `toString(true)` prints one line per node of the tree, array nodes included, in
      pre-order, each indented by the node's number of ancestors. */
  lemma {:induction false} DumpIsPreorder(c: Cursor)
    ensures RendersLines(DumpLines(c), Preorder(c))
    decreases c.node, 1
  {
    var anc := [c.node] + c.ancestors;
    DumpIsPreorderAll(c.node.children, anc);
    RendersAppend([Line(c)], [c], DumpLinesAll(c.node.children, anc), PreorderAll(c.node.children, anc));
  }

  lemma {:induction false} DumpIsPreorderAll(cs: seq<Node>, ancestors: seq<Node>)
    ensures RendersLines(DumpLinesAll(cs, ancestors), PreorderAll(cs, ancestors))
    decreases cs, 0
  {
    if |cs| > 0 {
      DumpIsPreorder(At(cs[0], ancestors));
      DumpIsPreorderAll(cs[1..], ancestors);
      RendersAppend(DumpLines(At(cs[0], ancestors)), Preorder(At(cs[0], ancestors)),
                    DumpLinesAll(cs[1..], ancestors), PreorderAll(cs[1..], ancestors));
    }
  }
}
