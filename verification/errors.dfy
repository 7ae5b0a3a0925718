/** The exceptions the core throws, one constructor per throw site of the Java code. */
module Errors {
  import opened Avro

  datatype Error =
      /** `List.get(index)` on a list of the given length. */
    | IndexOutOfBounds(index: nat, length: nat)
      /** "Could not decode UNION:" followed by the member schemas. */
    | UndecodableUnion(members: seq<Schema>)
      /** "Parent SchemaBuddy can't be null when schemaType==ARRAY". */
    | ArrayWithoutParent
      /** The NullPointerException of attaching a simple type to a null parent. */
    | SimpleTypeWithoutParent
      /** "parent can't be null" from `getArrayTypeSchema`. */
    | ParentRequired
      /** "Parent need to be of type ARRAY, was " followed by the type constant. */
    | NotArrayType(actual: Type)
      /** "Can only be one element as child when we have Array type as parent:" followed by the node. */
    | NotSingleElement(node: string)
      /** "Could not find:" followed by the name, " in " and the rendered children list. */
    | ChildNotFound(name: string, children: string)
      /** "root node should always be of type record:" followed by the node. */
    | RootNotRecord(node: string)
      /** "Parsing schema failed for:" from the callback overload of `parse`. */
    | ParseFailed
      /** A RuntimeException rethrown by `setSimpleType`, carrying the full message. */
    | Conversion(message: string)
}
