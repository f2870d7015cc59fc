/**
 * The Hyper API entities that TableauHyper.py names: scalar SQL types,
 * nullability, the `_ColumnType` pair, a table column and the error raised
 * for an unsupported dtype.
 */
module HyperTypes {

  /** The `tab_api.SqlType` factories the type tables use. */
  datatype SqlType =
    | SmallInt | Int | BigInt | Double | Bool
    | Timestamp | TimestampTz | Interval | Text | Date

  /** `tab_api.Nullability`. */
  datatype Nullability = Nullable | NotNullable

  /** The `_ColumnType(type_, nullability)` named tuple; compared by value. */
  datatype ColumnType = ColumnType(type_: SqlType, nullability: Nullability)

  /** `tab_api.TableDefinition.Column(name, type, nullability)`. */
  datatype Column = Column(name: string, type_: SqlType, nullability: Nullability)

  /** A Python exception raised by the core; the only one is `TypeError`. */
  datatype Error = TypeError(message: string)

  const UnsupportedPrefix: string := "Conversion of '"
  const UnsupportedSuffix: string := "' dtypes not supported!"

  /** The `TypeError` raised when a dtype has no Hyper column type. */
  function UnsupportedDtype(typ: string): Error
  {
    TypeError(UnsupportedPrefix + typ + UnsupportedSuffix)
  }

  /** The dtype named inside an unsupported-dtype message. */
  function DtypeNamedBy(e: Error): string
    requires |e.message| >= |UnsupportedPrefix| + |UnsupportedSuffix|
  {
    e.message[|UnsupportedPrefix| .. |e.message| - |UnsupportedSuffix|]
  }

  /** The error carries the dtype it rejects: the dtype can be read back from it. */
  lemma UnsupportedDtypeNamesDtype(typ: string)
    ensures DtypeNamedBy(UnsupportedDtype(typ)) == typ
  {
    var m := UnsupportedDtype(typ).message;
    assert m == UnsupportedPrefix + typ + UnsupportedSuffix;
    assert m[|UnsupportedPrefix| .. |m| - |UnsupportedSuffix|] == typ;
  }

  /** Hence two different dtypes are never reported with the same error. */
  lemma UnsupportedDtypeInjective(a: string, b: string)
    requires UnsupportedDtype(a) == UnsupportedDtype(b)
    ensures a == b
  {
    UnsupportedDtypeNamesDtype(a);
    UnsupportedDtypeNamesDtype(b);
  }
}
