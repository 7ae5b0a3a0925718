# avro-buddy-core in Dafny

A model of the conversion core of avro-buddy-core: generic data trees (`DataElement`, built with
`DataElementBuilder`) are matched against an annotated Avro schema tree (`SchemaBuddy`, built by
its `SchemaParser`) and turned into records (`SchemaAwareElement`). The model has two phases.
Phase one attaches a schema node to every data node. Phase two converts that element tree into a
record value.

Modules, one per file:

- `Wrappers`: `Option` and `Result`.
- `Avro`: the part of an Avro schema that the core reads. This covers the fourteen types, record
  fields, union members, array items and the property map.
- `Errors`: one constructor per exception the core throws.
- `Text`, `Seqs`, `Numbers`: shared helpers.
  - `Text` has the `" |-- "` indentation and the boolean and null texts.
  - `Seqs` has first-match search, filtering, de-duplication, joining and one-to-one
    correspondence of two lists.
  - `Numbers` models the JDK's `Integer.parseInt`, `Long.parseLong` and `Boolean.parseBoolean`.
    These are the conversions that `setSimpleType` calls.
- `DataElements`: the generic data tree. It covers construction, `setValue`, `addChild`,
  `findChildByName` and the recursive dump.
- `DataElementBuilder`: the fluent builder.
- `SchemaBuddy`: the schema tree and its queries, the pre-order `traverse` and the recursive dump.
  - A node is an immutable value.
  - A `Cursor` (the node plus its ancestors) replaces the Java parent pointer.
- `SchemaParser`: `mapRecursiveSchemas`, `processUnion`, `isOptional`, `processSimpleTypes` and
  both `parse` entry points.
- `SchemaAwareElement`: `toSchemaAwareElement` with its array collection, `toRecord` and
  `setSimpleType`.
  - A generic record is modelled as a `Value`.
  - The JDK integer parsers are modelled for ASCII digits, with the JDK 17 messages. A missing
    double gives JDK 8's message, the text "null".
  - Java exceptions are modelled as `Err`.
- `SchemaExamples`, `RecordExamples`: the expectations of the schema and element tests, proved on
  the model. `RecordExamples.FlagsMaterialized` states the element test end to end: the schema
  parses, the builder chain builds the data tree, and the conversion gives the expected record.

Every Java exception is an `Err` of `Result`. Each one carries the message or data the source puts
in it. A `null` string is `None`.

A record passes its inherited `nullable` flag to its fields (SchemaBuddy.java line 254).
A data child with no schema field of its name fails the conversion (SchemaAwareElement.java
line 84).

## Model

| member | source | states |
|---|---|---|
| DataElements.ConstructorsAreLeaves | src/main/java/no/ssb/avro/convert/core/DataElement.java:22-29 | both constructors give a childless node; the one-argument form is the two-argument form with a null value |
| DataElements.SetValue | src/main/java/no/ssb/avro/convert/core/DataElement.java:48-50 | only the value changes; name and children are kept |
| DataElements.AddChild | src/main/java/no/ssb/avro/convert/core/DataElement.java:52-55 | the child is appended after the existing children, which are unchanged |
| DataElements.FindChildByName | src/main/java/no/ssb/avro/convert/core/DataElement.java:43-46 | null exactly when no child has the name; otherwise the first child with that name |
| DataElements.FindAfterAddChild | src/main/java/no/ssb/avro/convert/core/DataElement.java:43-55 | after appending, a lookup finds an earlier child of the name if there is one, else the new child if its name matches |
| DataElements.DumpIsPreorder | src/main/java/no/ssb/avro/convert/core/DataElement.java:62-83 | `toString(true)` is one line per node in pre-order; each line is the node's indentation for its depth followed by `name value:v` |
| DataElementBuilder.StepAppendsOne | src/main/java/no/ssb/avro/convert/core/DataElementBuilder.java:16-24 | `addValue` appends a new valued leaf and `addChild` appends the given subtree; nothing else changes |
| DataElementBuilder.ChainAppends | src/main/java/no/ssb/avro/convert/core/DataElementBuilder.java:9-28 | a chain of builder calls appends its children in call order and keeps the root's name and value |
| DataElementBuilder.ChainFromRoot | src/main/java/no/ssb/avro/convert/core/DataElementBuilder.java:31-33 | `root(name)…build()` is a node with that name, a null value and exactly the chained children |
| DataElementBuilder.ExampleBuilt | src/test/java/no/ssb/avro/convert/core/DataElementTest.java:11-24 | the builder chain of the data element test yields the expected three-level tree |
| DataElementBuilder.DumpExample | src/test/java/no/ssb/avro/convert/core/DataElementTest.java:26-37 | that tree dumps to the nine expected lines |
| Text.IndentShape | src/main/java/no/ssb/avro/convert/core/SchemaBuddy.java:208-213 | the indentation is empty at the root and five characters per level; it ends in the branch mark, and each deeper level prepends a rail |
| Text.IndentExamples | src/main/java/no/ssb/avro/convert/core/DataElement.java:77-83 | the indentation texts for depths zero to three |
| Numbers.ParseInteger | src/main/java/no/ssb/avro/convert/core/SchemaAwareElement.java:178-183 | `parseInt`/`parseLong` succeed exactly on an optionally signed ASCII decimal within range, giving its value; a null input and a bad input fail with the JDK's messages |
| Numbers.ParseShowRoundTrip | src/main/java/no/ssb/avro/convert/core/SchemaAwareElement.java:178-183 | parsing the decimal text of an integer gives it back when it fits the width, and the bad-input error otherwise |
| Numbers.ShowIntIsDecimal | src/main/java/no/ssb/avro/convert/core/SchemaAwareElement.java:178-183 | the decimal text of any integer is accepted syntax and denotes that integer |
| Numbers.ParseBoolean | src/main/java/no/ssb/avro/convert/core/SchemaAwareElement.java:187-189 | null is false |
| Numbers.ParseBooleanExamples | src/main/java/no/ssb/avro/convert/core/SchemaAwareElement.java:187-189 | "true" in any case is true; "false", "yes", "1" and the empty text are false |
| SchemaBuddy.IsRoot | src/main/java/no/ssb/avro/convert/core/SchemaBuddy.java:112-118 | true exactly for a parentless record; false for any node with a parent; a parentless non-record throws with the node's text |
| SchemaBuddy.BranchOrSimple | src/main/java/no/ssb/avro/convert/core/SchemaBuddy.java:106-122 | below the root, a node is a branch exactly when it is not a simple type; the root is always a branch |
| SchemaBuddy.NotArrayParent | src/main/java/no/ssb/avro/convert/core/SchemaBuddy.java:58-66 | the parent, or the grandparent when the parent is an array; null exactly when there is no such node |
| SchemaBuddy.Id | src/main/java/no/ssb/avro/convert/core/SchemaBuddy.java:77-80 | the `id` property when present, else the node's generated token |
| SchemaBuddy.IdStability | src/main/java/no/ssb/avro/convert/core/SchemaBuddy.java:24 | an `id` property makes the identifier independent of the token; without one, different tokens give different identifiers |
| SchemaBuddy.ChildBranch | src/main/java/no/ssb/avro/convert/core/SchemaBuddy.java:106-110 | the branch test of a child depends only on the child's own type |
| SchemaBuddy.ComplexTypeChildren | src/main/java/no/ssb/avro/convert/core/SchemaBuddy.java:128-130 | exactly the children that are not simple types |
| SchemaBuddy.SimpleTypeChildren | src/main/java/no/ssb/avro/convert/core/SchemaBuddy.java:132-134 | exactly the simple-typed children |
| SchemaBuddy.ChildrenPartition | src/main/java/no/ssb/avro/convert/core/SchemaBuddy.java:128-134 | the complex and simple children together are the children as a multiset: each child lands in exactly one list, as often as it occurs |
| SchemaBuddy.ChildrenAppend | src/main/java/no/ssb/avro/convert/core/SchemaBuddy.java:128-134 | both lists keep the children's order: appending a child with `addChild` (line 155) appends it to exactly the list its type selects |
| SchemaBuddy.GetChild | src/main/java/no/ssb/avro/convert/core/SchemaBuddy.java:150-153 | succeeds exactly when some child has the name and returns the first such child; otherwise "Could not find" with the name and the children list |
| SchemaBuddy.GetChildAt | src/main/java/no/ssb/avro/convert/core/SchemaBuddy.java:150-153 | a child whose name no earlier sibling carries is the one the lookup returns |
| SchemaBuddy.ArrayTypeSchema | src/main/java/no/ssb/avro/convert/core/SchemaBuddy.java:136-147 | the only child of an array node that has a parent; each of the three failure checks gives its own exception, in source order |
| SchemaBuddy.Traverse | src/main/java/no/ssb/avro/convert/core/SchemaBuddy.java:175-186 | never visits an array node; the visited node comes first when it is not an array, then only deeper nodes follow |
| SchemaBuddy.TraverseIsPreorderWithoutArrays | src/main/java/no/ssb/avro/convert/core/SchemaBuddy.java:175-186 | `traverse` visits exactly the pre-order of the tree with the array nodes removed |
| SchemaBuddy.DumpIsPreorder | src/main/java/no/ssb/avro/convert/core/SchemaBuddy.java:160-173 | `toString(true)` is one line per node in pre-order, each indented for the node's depth |
| SchemaParser.ResolveUnion | src/main/java/no/ssb/avro/convert/core/SchemaBuddy.java:270-283 | succeeds exactly when one of the first two members is null; a null first member takes the second as optional, else the first as nullable; fewer than two members fail as a list index |
| SchemaParser.UnionLooksAtTwoMembers | src/main/java/no/ssb/avro/convert/core/SchemaBuddy.java:271-275 | members after the second are never inspected |
| SchemaParser.Build | src/main/java/no/ssb/avro/convert/core/SchemaBuddy.java:235-261 | a built node keeps the name, schema and props; only simple types carry `nullable`; consistent flags give a well-formed tree in which no node is both optional and nullable |
| SchemaParser.BuildFields | src/main/java/no/ssb/avro/convert/core/SchemaBuddy.java:253-255 | one child per field, in field order and with the field's name; a field's `optional` is "union with null first" |
| SchemaParser.UnionResolution | src/main/java/no/ssb/avro/convert/core/SchemaBuddy.java:237-238 | a union node is built as its chosen member with the resolved flags, or fails as the union rules say |
| SchemaParser.ArrayNode | src/main/java/no/ssb/avro/convert/core/SchemaBuddy.java:240-247 | an array node has exactly one child, the element built under the array's name; the element inherits the array's `optional`; it fails exactly when the element fails |
| SchemaParser.NullableFields | src/main/java/no/ssb/avro/convert/core/SchemaBuddy.java:253-255 | the inherited `nullable` reaches every simple non-union field |
| SchemaParser.NullableReachesFields | src/main/java/no/ssb/avro/convert/core/SchemaBuddy.java:248-256 | a record built under `nullable` is not itself nullable, but its simple non-union fields are |
| SchemaParser.Detached | src/main/java/no/ssb/avro/convert/core/SchemaBuddy.java:230-261 | without a parent only a record yields a node; an array throws the parent error, a simple type throws the null-parent error, and only a union can yield null |
| SchemaParser.Parse | src/main/java/no/ssb/avro/convert/core/SchemaBuddy.java:230-233 | a parsed root is a well-formed record named after the schema, neither optional nor nullable; a record never parses to null |
| SchemaParser.TopLevelUnionYieldsNothing | src/main/java/no/ssb/avro/convert/core/SchemaBuddy.java:38-52 | a top-level union parses to null or fails, and the callback form then always fails |
| SchemaParser.WellFormedArraysHaveOneElement | src/main/java/no/ssb/avro/convert/core/SchemaBuddy.java:175-178 | parsed trees satisfy the single-element assertion that `traverse` relies on |
| SchemaParser.ParseWithCallback | src/main/java/no/ssb/avro/convert/core/SchemaBuddy.java:42-52 | the callback sees exactly the pre-order of the parsed root with the array nodes removed, so the root record first; every visited node is a branch exactly when it is not simple; a failed parse is passed on; a null parse fails with "Parsing schema failed" |
| SchemaExamples.FlagsParsed | src/test/java/no/ssb/avro/convert/core/SchemaBuddyTest.java:48-56 | the three ways of declaring a string field parse to the three flag combinations |
| SchemaExamples.FlagsDump | src/test/java/no/ssb/avro/convert/core/SchemaBuddyTest.java:57-62 | that tree dumps to the four expected lines |
| SchemaAwareElement.ArrayNames | src/main/java/no/ssb/avro/convert/core/SchemaAwareElement.java:81-91 | the array-typed names among the data children, each once, and every such name |
| SchemaAwareElement.Gather | src/main/java/no/ssb/avro/convert/core/SchemaAwareElement.java:85-90 | only data children of the name are collected; the list is non-empty when that name occurs |
| SchemaAwareElement.GatherCounts | src/main/java/no/ssb/avro/convert/core/SchemaAwareElement.java:85-90 | as a multiset, the list holds every data child of the name as often as it occurs, and nothing else |
| SchemaAwareElement.GatherAppend | src/main/java/no/ssb/avro/convert/core/SchemaAwareElement.java:82-90 | the list is collected in sibling order: gathering from two runs of siblings is the first run's list followed by the second's |
| SchemaAwareElement.ToElement | src/main/java/no/ssb/avro/convert/core/SchemaAwareElement.java:68-79 | the element keeps the data node's name and value under the given schema node; success means every data child name was found in the schema |
| SchemaAwareElement.MapPlain | src/main/java/no/ssb/avro/convert/core/SchemaAwareElement.java:83-98 | success means every remaining data child was found in the schema |
| SchemaAwareElement.MapArrays | src/main/java/no/ssb/avro/convert/core/SchemaAwareElement.java:73-76 | one valueless element per collected array name, in the same order |
| SchemaAwareElement.ArrayOfName | src/main/java/no/ssb/avro/convert/core/SchemaAwareElement.java:73-76 | the element made for the `i`-th name is the array mapping of the schema child of that name |
| SchemaAwareElement.ArrayChildSize | src/main/java/no/ssb/avro/convert/core/SchemaAwareElement.java:68-116 | after `toSchemaAwareElement`, each array field's name is carried by some child element; every child of that name is under an array schema and holds one item per data child of the name |
| SchemaAwareElement.MapArray | src/main/java/no/ssb/avro/convert/core/SchemaAwareElement.java:102-116 | a valueless element under the array schema; it exists only when some data child has the name and the array has a single element schema |
| SchemaAwareElement.Leaves | src/main/java/no/ssb/avro/convert/core/SchemaAwareElement.java:111-113 | one leaf per data child, keeping name and value, under the element schema |
| SchemaAwareElement.PlainChildren | src/main/java/no/ssb/avro/convert/core/SchemaAwareElement.java:83-98 | the plain elements match the non-array data children one to one, in data order. Each has the same name and value, sits under the schema child of that name, and is a leaf below a simple-typed parent or the recursive conversion otherwise |
| SchemaAwareElement.RecordItems | src/main/java/no/ssb/avro/convert/core/SchemaAwareElement.java:106-109 | record items of an array are the recursive conversions of the same-named data children, in data order |
| SchemaAwareElement.ArrayElement | src/main/java/no/ssb/avro/convert/core/SchemaAwareElement.java:102-116 | an array element has one child per same-named data child; they are records when the first has no value, and leaves keeping their values otherwise |
| SchemaAwareElement.SameChildNames | src/main/java/no/ssb/avro/convert/core/SchemaAwareElement.java:68-100 | the element's child names are exactly the data node's child names; nothing is dropped or invented |
| SchemaAwareElement.UnknownChildFails | src/main/java/no/ssb/avro/convert/core/SchemaAwareElement.java:84 | a data child with no schema field of its name makes the conversion fail |
| SchemaAwareElement.SimpleParentFails | src/main/java/no/ssb/avro/convert/core/SchemaAwareElement.java:84-93 | a data node with children under a schema leaf fails the lookup before the simple-parent branch is reached |
| SchemaAwareElement.Coerce | src/main/java/no/ssb/avro/convert/core/SchemaAwareElement.java:175-208 | per type: INT and LONG follow the JDK parsers; DOUBLE needs a value; MAP is empty; BOOLEAN follows `parseBoolean`; STRING is null only when optional and missing; any other type has no converter |
| SchemaAwareElement.CoerceShowRoundTrip | src/main/java/no/ssb/avro/convert/core/SchemaAwareElement.java:178-183 | an integer's decimal text converts back to it at INT and LONG width; LONG overflow fails with the JDK message |
| SchemaAwareElement.SetSimple | src/main/java/no/ssb/avro/convert/core/SchemaAwareElement.java:175-211 | the conversion's value, or its message extended with the element's text |
| SchemaAwareElement.Assignments | src/main/java/no/ssb/avro/convert/core/SchemaAwareElement.java:138-173 | the record's keys are exactly the assigned names |
| SchemaAwareElement.AssignmentsLastWins | src/main/java/no/ssb/avro/convert/core/SchemaAwareElement.java:144-171 | a name assigned for the last time keeps that value |
| SchemaAwareElement.ToRecord | src/main/java/no/ssb/avro/convert/core/SchemaAwareElement.java:138-173 | a record; a valued element sets only its own name; otherwise the fields are exactly the children's names |
| SchemaAwareElement.ChildAssignments | src/main/java/no/ssb/avro/convert/core/SchemaAwareElement.java:144-171 | one assignment per child, in order |
| SchemaAwareElement.ArrayElementType | src/main/java/no/ssb/avro/convert/core/SchemaAwareElement.java:57-62 | the type of the array's first child; fails without children |
| SchemaAwareElement.ChildAssignment | src/main/java/no/ssb/avro/convert/core/SchemaAwareElement.java:145-170 | an array child sets a list with one item per element: the items' own records when the element type is a record, their raw values otherwise; a simple child sets its converted value; a record child sets its own record |
| SchemaAwareElement.Records | src/main/java/no/ssb/avro/convert/core/SchemaAwareElement.java:147-153 | one record per array item, each the item's own conversion |
| SchemaAwareElement.RawValues | src/main/java/no/ssb/avro/convert/core/SchemaAwareElement.java:154-161 | one raw value per item, in order |
| SchemaAwareElement.RawArrayItems | src/main/java/no/ssb/avro/convert/core/SchemaAwareElement.java:154-161 | a non-record array always converts; an item is null exactly when its element has no text, whatever the field's flags (a simple string field would set "null"), and otherwise its text |
| SchemaAwareElement.RecordField | src/main/java/no/ssb/avro/convert/core/SchemaAwareElement.java:144-171 | the field of a child whose name does not recur later holds that child's assignment |
| SchemaAwareElement.RecordKeys | src/main/java/no/ssb/avro/convert/core/SchemaAwareElement.java:144-172 | a valueless element's record has exactly its children's names as keys |
| SchemaAwareElement.Materialize | src/main/java/no/ssb/avro/convert/core/SchemaAwareElement.java:37-39 | a record, and every data child name was found in the schema |
| SchemaAwareElement.MaterializeKeys | src/main/java/no/ssb/avro/convert/core/SchemaAwareElement.java:37-39 | for a valueless root, the record has exactly the data children's names as fields |
| SchemaAwareElement.MaterializeValue | src/main/java/no/ssb/avro/convert/core/SchemaAwareElement.java:139-142 | a valued root sets only its own name, to the converted value |
| SchemaAwareElement.ValuedRecordRootFails | src/main/java/no/ssb/avro/convert/core/SchemaAwareElement.java:133-142 | a valued root under a record schema, the case of every parsed root, always fails: `setSimpleType` has no converter for RECORD (line 207), and the message carries the element's text |
| RecordExamples.LeafElement | src/main/java/no/ssb/avro/convert/core/SchemaAwareElement.java:68-79 | a data leaf becomes an element leaf under whatever schema node it is given |
| RecordExamples.StringChild | src/main/java/no/ssb/avro/convert/core/SchemaAwareElement.java:195-205 | a string leaf sets its text; a missing text is null for an optional field and the text "null" otherwise |
| RecordExamples.StringsAssign | src/main/java/no/ssb/avro/convert/core/SchemaAwareElement.java:144-171 | string leaves always convert, each to its own text rule |
| RecordExamples.LeafParent | src/main/java/no/ssb/avro/convert/core/SchemaAwareElement.java:68-98 | a data node whose children are leaves, each found in the schema and not an array field, becomes an element with one leaf per child, in order, each under its schema field |
| RecordExamples.FlagsDataBuilt | src/test/java/no/ssb/avro/convert/core/SchemaAwareElementTest.java:28-31 | the test's builder chain yields the root with the three string values, the last one null |
| RecordExamples.FlagsElement | src/main/java/no/ssb/avro/convert/core/SchemaAwareElement.java:33-35 | phase one on the test's data and the parsed schema gives the three-leaf element tree, each leaf under its own field |
| RecordExamples.FlagsAssigned | src/test/java/no/ssb/avro/convert/core/SchemaAwareElementTest.java:33-44 | phase two on that element tree: the mandatory, optional and nullable fields give "v1", "v2" and the text "null" |
| RecordExamples.FlagsMaterialized | src/test/java/no/ssb/avro/convert/core/SchemaAwareElementTest.java:26-44 | the whole test: the schema parses to the three-field tree, the builder chain builds the data, and `toRecord` on the two gives the expected record |

## Left out

- The Avro library itself is not modelled. This covers `GenericRecordBuilder`'s validation, its
  defaults and the error of setting a field the schema does not have. A record is the map of
  assigned fields.
- The `RuntimeException` catch in `setSimpleType` is modelled only for the converters' own
  failures. Failures inside the Avro builder's `set` are not modelled.
- Schema texts inside messages are left out. The JSON rendering of the union members in "Could not
  decode UNION" is kept as the member list instead.
- `Double.parseDouble` is not modelled. Any present text is accepted as a double, and its syntax
  and value are not checked. A missing text fails with the message "null": under JDK 8 the
  `NullPointerException` it throws has no message. Later JDKs describe the null dereference
  instead; that text is not modelled.
- Numbers.ParseInteger: accepts ASCII digits only. The JDK parsers also accept non-ASCII
  Unicode digits; those inputs are outside the model.
- Java's `HashMap` order is not modelled. The order in which array names are processed is their
  first appearance in the data. It only matters for which error is reported first.
- Properties are modelled as strings. A non-string `id` property (a `ClassCastException` in
  `getId`) is not modelled.
- `UUID.randomUUID()` is not modelled. The generated token is a parameter of `SchemaBuddy.Id`.
- The `NullPointerException` for a null callback is not modelled. The `Callback` is not modelled
  either: the callback form of `parse` returns the visit sequence.
- `ValueInterceptor` is not part of this model.
- `toZeppelinPrintSchemaString`, `toLevelString` and `getParent`/`getProp` are not modelled; they
  are diagnostics and accessors.
- `SchemaAwareElement.toString(true)` is not modelled. Only the one-line form that error messages
  use is modelled.
- Platform line separators (`%n`) are written as `\n`.
- Mutation and aliasing of the Java objects are not modelled. Every operation returns a new
  value, and `addChild` does not set a parent pointer; the cursor supplies the parent chain.
- The `findChildren()` call in `getArrayType` and the `getChildrenRecursive` call in the schema
  tests refer to methods that do not exist in the sources. `findChildren()` is read as the child
  list.
- SchemaAwareElement.MaterializeValue: its successful case needs a root whose schema is not a
  record. `GenericRecordBuilder` accepts only record schemas and every parsed root is a record, so
  the program never reaches it; the reachable case, a record root, is
  `SchemaAwareElement.ValuedRecordRootFails`.
- SchemaParser.BuildFields: a field whose union member is itself a union is outside its
  `optional` guarantee. The field's flag is then the inner union's resolution.
- The element for a plain child is chosen by the PARENT's `isSimpleType()` (SchemaAwareElement.java
  line 92), as written. A simple-typed parent has no schema children, so the lookup one line
  earlier fails first, and that branch never yields an element (`SchemaAwareElement.SimpleParentFails`).
