/** The part of Apache Avro's schema object model that the converter switches on.
    Avro itself is a foreign library: this module stands in for `org.apache.avro.Schema`
    and `Schema.Field`, with object properties restricted to string values. */
module Avro {

  /** `getObjectProps()`: the extra JSON attributes attached to a schema or a field. */
  type Props = map<string, string>

  /** `Schema.Type`. */
  datatype Type =
    | RECORD | ENUM | ARRAY | MAP | UNION | FIXED | STRING | BYTES
    | INT | LONG | FLOAT | DOUBLE | BOOLEAN | NULL
  {
    /** `Type.getName()`: the lower-case JSON name of the type. */
    function Name(): string {
      match this
      case RECORD => "record"
      case ENUM => "enum"
      case ARRAY => "array"
      case MAP => "map"
      case UNION => "union"
      case FIXED => "fixed"
      case STRING => "string"
      case BYTES => "bytes"
      case INT => "int"
      case LONG => "long"
      case FLOAT => "float"
      case DOUBLE => "double"
      case BOOLEAN => "boolean"
      case NULL => "null"
    }

    /** `Type.toString()`: the name of the enum constant. */
    function Constant(): string {
      match this
      case RECORD => "RECORD"
      case ENUM => "ENUM"
      case ARRAY => "ARRAY"
      case MAP => "MAP"
      case UNION => "UNION"
      case FIXED => "FIXED"
      case STRING => "STRING"
      case BYTES => "BYTES"
      case INT => "INT"
      case LONG => "LONG"
      case FLOAT => "FLOAT"
      case DOUBLE => "DOUBLE"
      case BOOLEAN => "BOOLEAN"
      case NULL => "NULL"
    }
  }

  /** The structural part of a schema: what `getType()`, `getFields()`, `getElementType()`
      and `getTypes()` expose. Map values, enum symbols and fixed sizes are not used. */
  datatype Shape =
    | Record(name: string, fields: seq<Field>)
    | Array(items: Schema)
    | Union(members: seq<Schema>)
    | Enum | Map | Fixed | String | Bytes | Int | Long | Float | Double | Boolean | Null

  datatype Schema = Schema(shape: Shape, props: Props) {

    function Type(): Type {
      match shape
      case Record(_, _) => RECORD
      case Array(_) => ARRAY
      case Union(_) => UNION
      case Enum => ENUM
      case Map => MAP
      case Fixed => FIXED
      case String => STRING
      case Bytes => BYTES
      case Int => INT
      case Long => LONG
      case Float => FLOAT
      case Double => DOUBLE
      case Boolean => BOOLEAN
      case Null => NULL
    }

    /** `Schema.getName()`: a record's own name, otherwise the type's name. */
    function Name(): string {
      if shape.Record? then shape.name else Type().Name()
    }
  }

  /** `Schema.Field`: a record field with its own properties. */
  datatype Field = Field(name: string, schema: Schema, props: Props)
}
