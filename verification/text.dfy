/** The text helpers shared by the three `toString(true)` renderings. */
module Text {
  import opened Wrappers

  const BRANCH := " |-- "
  const RAIL := " |   "

  function Repeat(s: string, n: nat): (r: string)
    ensures |r| == n * |s|
  {
    if n == 0 then "" else s + Repeat(s, n - 1)
  }

  /** `getIntendString()` for a node with `depth` ancestors. */
  function Indent(depth: nat): string {
    if depth == 0 then ""
    else if depth == 1 then BRANCH
    else Repeat(RAIL, depth - 1) + BRANCH
  }

  /** The indentation is five characters per level, empty at the root, always ending in the
      branch marker below it, and one level deeper adds one rail in front. */
  lemma IndentShape(depth: nat)
    ensures |Indent(depth)| == 5 * depth
    ensures Indent(depth) == "" <==> depth == 0
    ensures depth >= 1 ==> Indent(depth)[|Indent(depth)| - 5..] == BRANCH
    ensures depth >= 1 ==> Indent(depth + 1) == RAIL + Indent(depth)
  {
    if depth >= 1 {
      assert Repeat(RAIL, depth) == RAIL + Repeat(RAIL, depth - 1);
      if depth == 1 {
        assert Repeat(RAIL, 0) == "";
      }
    }
  }

  /** The indentation of the first four levels, as the dumps print them. */
  lemma IndentExamples()
    ensures Indent(0) == "" && Indent(1) == " |-- " && Indent(2) == " |    |-- "
    ensures Indent(3) == " |    |    |-- "
  {
    assert Repeat(RAIL, 1) == RAIL;
    assert Repeat(RAIL, 2) == RAIL + RAIL;
  }

  /** Java's rendering of a boolean by `%s`. */
  function BoolText(b: bool): string {
    if b then "true" else "false"
  }

  /** Java's rendering of a possibly-null string by `%s`. */
  function OptText(v: Option<string>): string {
    match v
    case None => "null"
    case Some(s) => s
  }
}
