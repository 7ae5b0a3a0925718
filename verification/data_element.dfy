/** The generic data tree (`DataElement`): an ordered n-ary tree of nodes carrying a name and
    a possibly-null string value. The parent back-reference of the Java class only serves the
    indentation of `toString(true)`; here the depth is passed explicitly instead. */
module DataElements {
  import opened Wrappers
  import opened Text
  import opened Seqs

  datatype DataElement = DataElement(name: string, value: Option<string>, children: seq<DataElement>)

  function NameOf(e: DataElement): string {
    e.name
  }

  /** `new DataElement(name)`. */
  function Named(name: string): DataElement {
    DataElement(name, None, [])
  }

  /** `new DataElement(name, value)`: delegates to the one-argument constructor, then stores the value. */
  function WithValue(name: string, value: Option<string>): DataElement {
    SetValue(Named(name), value)
  }

  /** Both constructors produce a childless node with the given name; only the second one has a value. */
  lemma ConstructorsAreLeaves(name: string, value: Option<string>)
    ensures Named(name).children == [] && Named(name).value == None && Named(name).name == name
    ensures WithValue(name, value).children == [] && WithValue(name, value).value == value
    ensures WithValue(name, value).name == name
    ensures WithValue(name, None) == Named(name)
  {
  }

  /** `setValue`: overwrites the value, keeping the name and the children. */
  function SetValue(e: DataElement, value: Option<string>): (r: DataElement)
    ensures r.name == e.name && r.children == e.children
    ensures r.value == value
  {
    e.(value := value)
  }

  /** `addChild`: appends `child` after the existing children, which are kept in order;
      a child with an already-used name is kept as well. */
  function AddChild(parent: DataElement, child: DataElement): (r: DataElement)
    ensures r.name == parent.name && r.value == parent.value
    ensures |r.children| == |parent.children| + 1
    ensures r.children[..|parent.children|] == parent.children
    ensures r.children[|parent.children|] == child
  {
    parent.(children := parent.children + [child])
  }

  /** `findChildByName`: the first child with that name, or null. */
  function FindChildByName(e: DataElement, name: string): (r: Option<DataElement>)
    ensures r.None? <==> forall i :: 0 <= i < |e.children| ==> e.children[i].name != name
    ensures r.Some? ==> r.value.name == name
    ensures r.Some? ==> exists i :: 0 <= i < |e.children| && e.children[i] == r.value
                                   && forall j :: 0 <= j < i ==> e.children[j].name != name
  {
    var i := FirstIndex(e.children, NameOf, name);
    if i < |e.children| then Some(e.children[i]) else None
  }

  /** Adding a child never changes which node an earlier-present name finds, and makes the
      new child findable exactly when its name was not used yet. */
  lemma {:induction false} FindAfterAddChild(parent: DataElement, child: DataElement, name: string)
    ensures FindChildByName(AddChild(parent, child), name)
         == if FindChildByName(parent, name).Some? then FindChildByName(parent, name)
            else if child.name == name then Some(child)
            else None
  {
    assert AddChild(parent, child).children == parent.children + [child];
    FirstIndexAppend(parent.children, child, NameOf, name);
  }

  /** `toString()`: the node's own name and value. */
  function Describe(e: DataElement): string {
    e.name + " value:" + OptText(e.value)
  }

  /** The lines of `toString(true)` for a node with `depth` ancestors; the string itself is
      these lines one after another. */
  function DumpLines(e: DataElement, depth: nat): seq<string>
    decreases e, 1
  {
    [Indent(depth) + Describe(e) + "\n"] + DumpLinesAll(e.children, depth + 1)
  }

  function DumpLinesAll(cs: seq<DataElement>, depth: nat): seq<string>
    decreases cs, 0
  {
    if |cs| == 0 then [] else DumpLines(cs[0], depth) + DumpLinesAll(cs[1..], depth)
  }

  /** The nodes of the tree in pre-order, each with its depth: the reference against which
      the dump is stated. */
  function Preorder(e: DataElement, depth: nat): seq<(DataElement, nat)>
    decreases e, 1
  {
    [(e, depth)] + PreorderAll(e.children, depth + 1)
  }

  function PreorderAll(cs: seq<DataElement>, depth: nat): seq<(DataElement, nat)>
    decreases cs, 0
  {
    if |cs| == 0 then [] else Preorder(cs[0], depth) + PreorderAll(cs[1..], depth)
  }

  function Line(p: (DataElement, nat)): string {
    Indent(p.1) + Describe(p.0) + "\n"
  }

  /** `lines` renders `nodes` one line each, in the same order. */
  predicate RendersLines(lines: seq<string>, nodes: seq<(DataElement, nat)>) {
    |lines| == |nodes| && forall i :: 0 <= i < |lines| ==> lines[i] == Line(nodes[i])
  }

  predicate NoShallowerThan(nodes: seq<(DataElement, nat)>, depth: nat) {
    forall i :: 0 <= i < |nodes| ==> nodes[i].1 >= depth
  }

  lemma RendersAppend(l1: seq<string>, n1: seq<(DataElement, nat)>, l2: seq<string>, n2: seq<(DataElement, nat)>, depth: nat)
    requires RendersLines(l1, n1) && RendersLines(l2, n2)
    requires NoShallowerThan(n1, depth) && NoShallowerThan(n2, depth)
    ensures RendersLines(l1 + l2, n1 + n2)
    ensures NoShallowerThan(n1 + n2, depth)
  {
    var l, n := l1 + l2, n1 + n2;
    forall i | 0 <= i < |l|
      ensures l[i] == Line(n[i]) && n[i].1 >= depth
    {
      if i < |l1| {
        assert l[i] == l1[i] && n[i] == n1[i];
      } else {
        assert l[i] == l2[i - |l1|] && n[i] == n2[i - |l1|];
      }
    }
  }

  /** `toString(true)` prints exactly one line per node, in pre-order, each indented by the
      node's depth; the first line is the node itself and no line is shallower than it. */
  lemma {:induction false} DumpIsPreorder(e: DataElement, depth: nat)
    ensures RendersLines(DumpLines(e, depth), Preorder(e, depth))
    ensures Preorder(e, depth)[0] == (e, depth)
    ensures NoShallowerThan(Preorder(e, depth), depth)
    decreases e, 1
  {
    DumpIsPreorderAll(e.children, depth + 1);
    RendersAppend([Line((e, depth))], [(e, depth)], DumpLinesAll(e.children, depth + 1),
                  PreorderAll(e.children, depth + 1), depth);
  }

  lemma {:induction false} DumpIsPreorderAll(cs: seq<DataElement>, depth: nat)
    ensures RendersLines(DumpLinesAll(cs, depth), PreorderAll(cs, depth))
    ensures NoShallowerThan(PreorderAll(cs, depth), depth)
    decreases cs, 0
  {
    if |cs| > 0 {
      DumpIsPreorder(cs[0], depth);
      DumpIsPreorderAll(cs[1..], depth);
      RendersAppend(DumpLines(cs[0], depth), Preorder(cs[0], depth),
                    DumpLinesAll(cs[1..], depth), PreorderAll(cs[1..], depth), depth);
    }
  }
}
