/** Worked examples of the schema tree, taken from the expectations of `SchemaBuddyTest`. */
module SchemaExamples {
  import opened Wrappers
  import opened Avro
  import opened Text
  import opened SchemaBuddy
  import opened SchemaParser

  const STRING_SCHEMA := Schema(String, map[])
  const NULL_SCHEMA := Schema(Null, map[])

  /** `optional().stringType()`: a union with `null` first. */
  const OPTIONAL_STRING := Schema(Union([NULL_SCHEMA, STRING_SCHEMA]), map[])
  /** `nullable().stringType()`: a union with `null` second. */
  const NULLABLE_STRING := Schema(Union([STRING_SCHEMA, NULL_SCHEMA]), map[])

  const FLAGS_SCHEMA := Schema(Record("root", [
    Field("mandatory", STRING_SCHEMA, map[]),
    Field("optional", OPTIONAL_STRING, map[]),
    Field("nullable", NULLABLE_STRING, map[])]), map[])

  const MANDATORY_NODE := Node(STRING_SCHEMA, "mandatory", map[], false, false, [])
  const OPTIONAL_NODE := Node(STRING_SCHEMA, "optional", map[], true, false, [])
  const NULLABLE_NODE := Node(STRING_SCHEMA, "nullable", map[], false, true, [])
  const FLAGS_TREE := Node(FLAGS_SCHEMA, "root", map[], false, false, [MANDATORY_NODE, OPTIONAL_NODE, NULLABLE_NODE])

  /** The three ways of declaring a string field give the three flag combinations. */
  lemma FlagsParsed()
    ensures Parse(FLAGS_SCHEMA) == Ok(Some(FLAGS_TREE))
  {
    var fs := FLAGS_SCHEMA.shape.fields;
    LastTwoFields();
    FieldsStep(fs, false, MANDATORY_NODE, [OPTIONAL_NODE, NULLABLE_NODE]);
    assert [MANDATORY_NODE] + [OPTIONAL_NODE, NULLABLE_NODE] == FLAGS_TREE.children;
    assert FLAGS_SCHEMA.Name() == "root";
  }

  lemma LastTwoFields()
    ensures BuildFields(FLAGS_SCHEMA.shape.fields[1..], false) == Ok([OPTIONAL_NODE, NULLABLE_NODE])
  {
    var fs := FLAGS_SCHEMA.shape.fields;
    LastField();
    assert fs[1..][1..] == fs[2..];
    FieldsStep(fs[1..], false, OPTIONAL_NODE, [NULLABLE_NODE]);
    assert [OPTIONAL_NODE] + [NULLABLE_NODE] == [OPTIONAL_NODE, NULLABLE_NODE];
  }

  lemma LastField()
    ensures BuildFields(FLAGS_SCHEMA.shape.fields[2..], false) == Ok([NULLABLE_NODE])
  {
    var fs := FLAGS_SCHEMA.shape.fields;
    assert fs[2..][1..] == [];
    FieldsStep(fs[2..], false, NULLABLE_NODE, []);
    assert [NULLABLE_NODE] + [] == [NULLABLE_NODE];
  }

  /** One step of the field loop, for unfolding it on a literal record. */
  lemma FieldsStep(fs: seq<Field>, nullable: bool, head: Node, tail: seq<Node>)
    requires |fs| > 0
    requires Build(fs[0].name, fs[0].schema, fs[0].props, IsOptionalField(fs[0]), nullable) == Ok(head)
    requires BuildFields(fs[1..], nullable) == Ok(tail)
    ensures BuildFields(fs, nullable) == Ok([head] + tail)
  {
  }

  /** The flag texts of the three combinations a parsed node can carry. */
  lemma MandatoryFlags()
    ensures FlagsText(false, false) == " optional:false nullable:false"
  {
    assert BoolText(false) == "false";
  }

  lemma OptionalFlags()
    ensures FlagsText(true, false) == " optional:true nullable:false"
  {
    assert BoolText(true) == "true" && BoolText(false) == "false";
  }

  lemma NullableFlags()
    ensures FlagsText(false, true) == " optional:false nullable:true"
  {
    assert BoolText(true) == "true" && BoolText(false) == "false";
  }

  lemma Descriptions()
    ensures FLAGS_TREE.Describe() == "root: record" + " optional:false nullable:false"
    ensures MANDATORY_NODE.Describe() == "mandatory: string" + " optional:false nullable:false"
    ensures OPTIONAL_NODE.Describe() == "optional: string" + " optional:true nullable:false"
    ensures NULLABLE_NODE.Describe() == "nullable: string" + " optional:false nullable:true"
  {
    MandatoryFlags();
    OptionalFlags();
    NullableFlags();
    assert "root" + ": " + "record" == "root: record";
    assert "mandatory" + ": " + "string" == "mandatory: string";
    assert "optional" + ": " + "string" == "optional: string";
    assert "nullable" + ": " + "string" == "nullable: string";
  }

  /** The dump of that tree: the record line, then one line per field one level deeper
      (`Text.IndentExamples` gives the indentation text). */
  lemma FlagsDump()
    ensures DumpLines(At(FLAGS_TREE, [])) ==
      [ "root: record" + " optional:false nullable:false" + "\n",
        Indent(1) + "mandatory: string" + " optional:false nullable:false" + "\n",
        Indent(1) + "optional: string" + " optional:true nullable:false" + "\n",
        Indent(1) + "nullable: string" + " optional:false nullable:true" + "\n" ]
  {
    var anc := [FLAGS_TREE];
    FlagsDumpLines();
    Descriptions();
    assert Line(At(FLAGS_TREE, [])) == "root: record" + " optional:false nullable:false" + "\n" by {
      assert Indent(0) == "";
    }
    assert Line(At(MANDATORY_NODE, anc)) == Indent(1) + "mandatory: string" + " optional:false nullable:false" + "\n";
    assert Line(At(OPTIONAL_NODE, anc)) == Indent(1) + "optional: string" + " optional:true nullable:false" + "\n";
    assert Line(At(NULLABLE_NODE, anc)) == Indent(1) + "nullable: string" + " optional:false nullable:true" + "\n";
  }

  lemma FlagsDumpLines()
    ensures var anc := [FLAGS_TREE];
            DumpLines(At(FLAGS_TREE, [])) ==
              [Line(At(FLAGS_TREE, [])), Line(At(MANDATORY_NODE, anc)), Line(At(OPTIONAL_NODE, anc)),
               Line(At(NULLABLE_NODE, anc))]
  {
    var anc := [FLAGS_TREE];
    var cs := FLAGS_TREE.children;
    assert [FLAGS_TREE] + [] == anc;
    LeafDump(At(MANDATORY_NODE, anc));
    LeafDump(At(OPTIONAL_NODE, anc));
    LeafDump(At(NULLABLE_NODE, anc));
    assert DumpLinesAll(cs[2..], anc) == [Line(At(NULLABLE_NODE, anc))] by {
      assert cs[2..][1..] == [] && cs[2..][0] == NULLABLE_NODE;
    }
    assert DumpLinesAll(cs[1..], anc) == [Line(At(OPTIONAL_NODE, anc)), Line(At(NULLABLE_NODE, anc))] by {
      assert cs[1..][1..] == cs[2..] && cs[1..][0] == OPTIONAL_NODE;
    }
    assert DumpLinesAll(cs, anc) == [Line(At(MANDATORY_NODE, anc))] + DumpLinesAll(cs[1..], anc);
  }

  lemma LeafDump(c: Cursor)
    requires c.node.children == []
    ensures DumpLines(c) == [Line(c)]
  {
    assert DumpLinesAll(c.node.children, [c.node] + c.ancestors) == [];
  }
}
