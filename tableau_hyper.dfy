/**
 * The dtype mapping and schema builder of TableauHyper.py: the
 * `_column_types` table from pandas dtype names to Hyper column types, its
 * version-dependent additions, the `_pandas_types` inverse used for
 * read-back, the lookup `_pandas_to_tableau_type`, and `buildTabDefination`.
 *
 * The pandas version test (`PANDAS_100`) is the parameter `pandas100`.
 */
module TableauHyper {
  import opened Wrappers
  import opened HyperTypes
  import PyDict

  /** The dict display that initialises `_column_types`, in its written order. */
  const BaseColumnTypes: PyDict.Entries<string, ColumnType> := [
    ("int16", ColumnType(SmallInt, NotNullable)),
    ("int32", ColumnType(Int, NotNullable)),
    ("int64", ColumnType(BigInt, NotNullable)),
    ("Int16", ColumnType(SmallInt, Nullable)),
    ("Int32", ColumnType(Int, Nullable)),
    ("Int64", ColumnType(BigInt, Nullable)),
    ("float32", ColumnType(Double, Nullable)),
    ("float64", ColumnType(Double, Nullable)),
    ("bool", ColumnType(Bool, NotNullable)),
    ("datetime64[ns]", ColumnType(Timestamp, Nullable)),
    ("datetime64[ns, UTC]", ColumnType(TimestampTz, Nullable)),
    ("timedelta64[ns]", ColumnType(Interval, Nullable)),
    ("object", ColumnType(Text, Nullable))
  ]

  /**
   * The finished `_column_types` dict: the thirteen base items, followed,
   * under pandas >= 1.0 only, by "string" and then "boolean".
   */
  function ColumnTypes(pandas100: bool): PyDict.Entries<string, ColumnType>
  {
    BaseColumnTypes
    + if pandas100 then [("string", ColumnType(Text, Nullable)), ("boolean", ColumnType(Bool, Nullable))]
      else []
  }

  /** The dtype names that `_column_types` has a key for. */
  function SupportedDtypes(pandas100: bool): set<string>
  {
    {"int16", "int32", "int64", "Int16", "Int32", "Int64", "float32", "float64", "bool",
     "datetime64[ns]", "datetime64[ns, UTC]", "timedelta64[ns]", "object"}
    + if pandas100 then {"string", "boolean"} else {}
  }

  /** `_column_types` is a dict (no key twice) whose keys are the supported dtypes. */
  lemma ColumnTypesKeys(pandas100: bool)
    ensures PyDict.DistinctKeys(ColumnTypes(pandas100))
    ensures forall typ :: typ in PyDict.Keys(ColumnTypes(pandas100)) <==> typ in SupportedDtypes(pandas100)
  {
    var names := ["int16", "int32", "int64", "Int16", "Int32", "Int64", "float32", "float64", "bool",
                  "datetime64[ns]", "datetime64[ns, UTC]", "timedelta64[ns]", "object"]
                 + if pandas100 then ["string", "boolean"] else [];
    assert PyDict.Keys(ColumnTypes(pandas100)) == names;
  }

  /** Under pandas >= 1.0, "string" and then "boolean" are new keys, appended in that order. */
  lemma AddedKeysAreAppended()
    ensures PyDict.DistinctKeys(BaseColumnTypes)
    ensures PyDict.Put(PyDict.Put(BaseColumnTypes, "string", ColumnType(Text, Nullable)),
                       "boolean", ColumnType(Bool, Nullable))
            == ColumnTypes(true)
  {
    ColumnTypesKeys(false);
    assert "string" !in PyDict.Keys(BaseColumnTypes) && "boolean" !in PyDict.Keys(BaseColumnTypes);
    var withString := PyDict.Put(BaseColumnTypes, "string", ColumnType(Text, Nullable));
    assert PyDict.Find(withString, "boolean") == PyDict.Find(BaseColumnTypes, "boolean") == None;
  }

  /** Before pandas 1.0, re-assigning "object" leaves `_column_types` exactly as it was. */
  lemma ObjectReassignmentIsNoOp()
    ensures PyDict.DistinctKeys(BaseColumnTypes)
    ensures PyDict.Put(BaseColumnTypes, "object", ColumnType(Text, Nullable)) == ColumnTypes(false)
  {
    ColumnTypesKeys(false);
    var objectItem := BaseColumnTypes[12];
    assert objectItem == ("object", ColumnType(Text, Nullable));
    assert BaseColumnTypes[12 := objectItem] == BaseColumnTypes;
  }

  /**
   * The module-level statements that build `_column_types`: the dict display,
   * then either two new keys (pandas >= 1.0) or a re-assignment of "object"
   * to the value it already has.
   */
  method BuildColumnTypes(pandas100: bool) returns (table: PyDict.Entries<string, ColumnType>)
    ensures table == ColumnTypes(pandas100)
  {
    AddedKeysAreAppended();
    ObjectReassignmentIsNoOp();
    table := BaseColumnTypes;
    if pandas100 {
      table := PyDict.Put(table, "string", ColumnType(Text, Nullable));
      table := PyDict.Put(table, "boolean", ColumnType(Bool, Nullable));
    } else {
      table := PyDict.Put(table, "object", ColumnType(Text, Nullable));
    }
  }

  /** `_pandas_to_tableau_type`: the Hyper column type of a dtype, or the `TypeError` naming it. */
  function PandasToTableauType(typ: string, pandas100: bool): (r: Result<ColumnType, Error>)
    ensures r.Ok? <==> typ in SupportedDtypes(pandas100)
    ensures r.Ok? ==> (typ, r.value) in ColumnTypes(pandas100)
    ensures r.Err? ==> r.error == UnsupportedDtype(typ)
  {
    ColumnTypesKeys(pandas100);
    match PyDict.Find(ColumnTypes(pandas100), typ)
    case Some(t) => Ok(t)
    case None => Err(UnsupportedDtype(typ))
  }

  /** The six integer dtypes: lower-case numpy ones are not nullable, capitalised pandas ones are. */
  lemma IntegerDtypeTable(pandas100: bool)
    ensures PandasToTableauType("int16", pandas100) == Ok(ColumnType(SmallInt, NotNullable))
    ensures PandasToTableauType("int32", pandas100) == Ok(ColumnType(Int, NotNullable))
    ensures PandasToTableauType("int64", pandas100) == Ok(ColumnType(BigInt, NotNullable))
    ensures PandasToTableauType("Int16", pandas100) == Ok(ColumnType(SmallInt, Nullable))
    ensures PandasToTableauType("Int32", pandas100) == Ok(ColumnType(Int, Nullable))
    ensures PandasToTableauType("Int64", pandas100) == Ok(ColumnType(BigInt, Nullable))
  {
    LookupAt(pandas100, 0); LookupAt(pandas100, 1); LookupAt(pandas100, 2);
    LookupAt(pandas100, 3); LookupAt(pandas100, 4); LookupAt(pandas100, 5);
  }

  /** The float, bool, date-time and object dtypes, the same under every pandas version. */
  lemma OtherBaseDtypeTable(pandas100: bool)
    ensures PandasToTableauType("float32", pandas100) == Ok(ColumnType(Double, Nullable))
    ensures PandasToTableauType("float64", pandas100) == Ok(ColumnType(Double, Nullable))
    ensures PandasToTableauType("bool", pandas100) == Ok(ColumnType(Bool, NotNullable))
    ensures PandasToTableauType("datetime64[ns]", pandas100) == Ok(ColumnType(Timestamp, Nullable))
    ensures PandasToTableauType("datetime64[ns, UTC]", pandas100) == Ok(ColumnType(TimestampTz, Nullable))
    ensures PandasToTableauType("timedelta64[ns]", pandas100) == Ok(ColumnType(Interval, Nullable))
    ensures PandasToTableauType("object", pandas100) == Ok(ColumnType(Text, Nullable))
  {
    LookupAt(pandas100, 6); LookupAt(pandas100, 7); LookupAt(pandas100, 8);
    LookupAt(pandas100, 9); LookupAt(pandas100, 10); LookupAt(pandas100, 11);
    LookupAt(pandas100, 12);
  }

  /** "string" and "boolean" are nullable text and bool under pandas >= 1.0 and unsupported before. */
  lemma VersionDependentDtypeTable(pandas100: bool)
    ensures PandasToTableauType("string", pandas100)
            == if pandas100 then Ok(ColumnType(Text, Nullable)) else Err(UnsupportedDtype("string"))
    ensures PandasToTableauType("boolean", pandas100)
            == if pandas100 then Ok(ColumnType(Bool, Nullable)) else Err(UnsupportedDtype("boolean"))
  {
    if pandas100 {
      LookupAt(true, 13);
      LookupAt(true, 14);
    }
  }

  /** The lookup returns the value stored with each key of `_column_types`. */
  lemma LookupAt(pandas100: bool, i: nat)
    requires i < |ColumnTypes(pandas100)|
    ensures PandasToTableauType(ColumnTypes(pandas100)[i].0, pandas100) == Ok(ColumnTypes(pandas100)[i].1)
  {
    ColumnTypesKeys(pandas100);
    PyDict.FindAt(ColumnTypes(pandas100), i);
  }

  /** The two read-back-only items: Hyper types that no dtype is written as. */
  const ReadOnlyDate: ColumnType := ColumnType(Date, Nullable)
  const ReadOnlyText: ColumnType := ColumnType(Text, NotNullable)

  /**
   * The finished `_pandas_types` dict: the comprehension that inverts
   * `_column_types` while skipping "float32", followed by the read-only items
   * for nullable dates and for non-nullable text.
   */
  function PandasTypes(pandas100: bool): PyDict.Entries<ColumnType, string>
  {
    var inverse := PyDict.InvertSkipping(ColumnTypes(pandas100), "float32");
    var withDate := PyDict.Put(inverse, ReadOnlyDate, "date");
    PyDict.Put(withDate, ReadOnlyText, if pandas100 then "string" else "object")
  }

  /**
   * The module-level statements that build `_pandas_types`: the comprehension
   * over the items of `_column_types` in insertion order, then the two
   * read-only assignments.
   */
  method BuildPandasTypes(pandas100: bool) returns (table: PyDict.Entries<ColumnType, string>)
    ensures table == PandasTypes(pandas100)
  {
    var columnTypes := BuildColumnTypes(pandas100);
    table := [];
    var i := 0;
    while i < |columnTypes|
      invariant i <= |columnTypes|
      invariant table == PyDict.InvertSkipping(columnTypes[..i], "float32")
    {
      var (k, v) := columnTypes[i];
      assert columnTypes[..i + 1][..i] == columnTypes[..i];
      if k != "float32" {
        table := PyDict.Put(table, v, k);
      }
      i := i + 1;
    }
    assert columnTypes[..i] == columnTypes;
    table := PyDict.Put(table, ReadOnlyDate, "date");
    if pandas100 {
      table := PyDict.Put(table, ReadOnlyText, "string");
    } else {
      table := PyDict.Put(table, ReadOnlyText, "object");
    }
  }

  /** No dtype is written as a read-only type, so the comprehension has no item for either. */
  lemma ReadOnlyTypesAreNotWritten(pandas100: bool)
    ensures PyDict.LastKeyWithValue(ColumnTypes(pandas100), ReadOnlyDate, "float32") == None
    ensures PyDict.LastKeyWithValue(ColumnTypes(pandas100), ReadOnlyText, "float32") == None
  {
    var table := ColumnTypes(pandas100);
    assert forall i :: 0 <= i < |table| ==> table[i].1 != ReadOnlyDate && table[i].1 != ReadOnlyText;
  }

  /**
   * The read-only items are appended after the comprehension's items and
   * overwrite none of them.
   */
  lemma ReadOnlyItemsAreAppended(pandas100: bool)
    ensures PandasTypes(pandas100)
            == PyDict.InvertSkipping(ColumnTypes(pandas100), "float32")
               + [(ReadOnlyDate, "date"), (ReadOnlyText, if pandas100 then "string" else "object")]
  {
    var inverse := PyDict.InvertSkipping(ColumnTypes(pandas100), "float32");
    ReadOnlyTypesAreNotWritten(pandas100);
    PyDict.InvertSkippingIsLastWriter(ColumnTypes(pandas100), "float32", ReadOnlyDate);
    PyDict.InvertSkippingIsLastWriter(ColumnTypes(pandas100), "float32", ReadOnlyText);
    var withDate := PyDict.Put(inverse, ReadOnlyDate, "date");
    assert PyDict.Find(withDate, ReadOnlyText) == None;
  }

  /**
   * A read-back lookup: the two read-only types give their fixed names; any
   * other type gives the last dtype, in `_column_types` order, other than
   * "float32" that is written as it.
   */
  lemma PandasTypesLookup(pandas100: bool, t: ColumnType)
    ensures PyDict.Find(PandasTypes(pandas100), t)
            == if t == ReadOnlyDate then Some("date")
               else if t == ReadOnlyText then Some(if pandas100 then "string" else "object")
               else PyDict.LastKeyWithValue(ColumnTypes(pandas100), t, "float32")
  {
    PyDict.InvertSkippingIsLastWriter(ColumnTypes(pandas100), "float32", t);
  }

  /** `_pandas_types` never gives back "float32". */
  lemma PandasTypesNeverFloat32(pandas100: bool, t: ColumnType)
    ensures PyDict.Find(PandasTypes(pandas100), t) != Some("float32")
  {
    PandasTypesLookup(pandas100, t);
  }

  /**
   * Round trip: a dtype read back for a type that came from the comprehension
   * is written as that same type again.
   */
  lemma PandasTypesRoundTrip(pandas100: bool, t: ColumnType)
    ensures t != ReadOnlyDate && t != ReadOnlyText && PyDict.Find(PandasTypes(pandas100), t).Some? ==>
              PandasToTableauType(PyDict.Find(PandasTypes(pandas100), t).value, pandas100) == Ok(t)
  {
    PandasTypesLookup(pandas100, t);
    if t != ReadOnlyDate && t != ReadOnlyText && PyDict.Find(PandasTypes(pandas100), t).Some? {
      ColumnTypesKeys(pandas100);
      PyDict.InvertSkippingRoundTrip(ColumnTypes(pandas100), "float32", t);
    }
  }

  /**
   * The whole read-back table, written out per Hyper type: "float64" for
   * doubles (the later of the two double dtypes, "float32" being skipped),
   * and under pandas >= 1.0 "string" for nullable text and "boolean" for
   * nullable bools, the later keys overwriting "object".
   */
  function ReadBackDtype(t: ColumnType, pandas100: bool): Option<string>
  {
    match t
    case ColumnType(SmallInt, NotNullable) => Some("int16")
    case ColumnType(Int, NotNullable) => Some("int32")
    case ColumnType(BigInt, NotNullable) => Some("int64")
    case ColumnType(SmallInt, Nullable) => Some("Int16")
    case ColumnType(Int, Nullable) => Some("Int32")
    case ColumnType(BigInt, Nullable) => Some("Int64")
    case ColumnType(Double, Nullable) => Some("float64")
    case ColumnType(Bool, NotNullable) => Some("bool")
    case ColumnType(Timestamp, Nullable) => Some("datetime64[ns]")
    case ColumnType(TimestampTz, Nullable) => Some("datetime64[ns, UTC]")
    case ColumnType(Interval, Nullable) => Some("timedelta64[ns]")
    case ColumnType(Text, Nullable) => Some(if pandas100 then "string" else "object")
    case ColumnType(Bool, Nullable) => if pandas100 then Some("boolean") else None
    case ColumnType(Date, Nullable) => Some("date")
    case ColumnType(Text, NotNullable) => Some(if pandas100 then "string" else "object")
    case _ => None
  }

  /** `_pandas_types` holds exactly the read-back table above. */
  lemma PandasTypesTable(pandas100: bool, t: ColumnType)
    ensures PyDict.Find(PandasTypes(pandas100), t) == ReadBackDtype(t, pandas100)
  {
    PandasTypesLookup(pandas100, t);
    var found := PyDict.LastKeyWithValue(ColumnTypes(pandas100), t, "float32");
    match t.nullability {
      case NotNullable =>
        NotNullableReadBack(pandas100);
        match t.type_ {
          case Text =>
          case SmallInt => assert found == Some("int16");
          case Int => assert found == Some("int32");
          case BigInt => assert found == Some("int64");
          case Bool => assert found == Some("bool");
          case _ => assert found == None;
        }
      case Nullable =>
        match t.type_ {
          case Text => NullableOtherReadBack(pandas100);
          case Bool => NullableOtherReadBack(pandas100);
          case Date =>
          case _ => NullableNumericReadBack(pandas100);
        }
    }
  }

  /** The comprehension's result for the non-nullable types: only the numpy integers and bool are written as one. */
  lemma NotNullableReadBack(pandas100: bool)
    ensures PyDict.LastKeyWithValue(ColumnTypes(pandas100), ColumnType(SmallInt, NotNullable), "float32") == Some("int16")
    ensures PyDict.LastKeyWithValue(ColumnTypes(pandas100), ColumnType(Int, NotNullable), "float32") == Some("int32")
    ensures PyDict.LastKeyWithValue(ColumnTypes(pandas100), ColumnType(BigInt, NotNullable), "float32") == Some("int64")
    ensures PyDict.LastKeyWithValue(ColumnTypes(pandas100), ColumnType(Bool, NotNullable), "float32") == Some("bool")
    ensures forall s :: s != SmallInt && s != Int && s != BigInt && s != Bool ==>
              PyDict.LastKeyWithValue(ColumnTypes(pandas100), ColumnType(s, NotNullable), "float32") == None
  {
    var table := ColumnTypes(pandas100);
    assert forall j :: 0 <= j < |table| && table[j].1.nullability == NotNullable ==> j in {0, 1, 2, 8};
    PyDict.LastKeyWithValueAt(table, ColumnType(SmallInt, NotNullable), "float32", 0);
    PyDict.LastKeyWithValueAt(table, ColumnType(Int, NotNullable), "float32", 1);
    PyDict.LastKeyWithValueAt(table, ColumnType(BigInt, NotNullable), "float32", 2);
    PyDict.LastKeyWithValueAt(table, ColumnType(Bool, NotNullable), "float32", 8);
    forall s | s != SmallInt && s != Int && s != BigInt && s != Bool
      ensures PyDict.LastKeyWithValue(table, ColumnType(s, NotNullable), "float32") == None
    {
      PyDict.LastKeyWithValueAbsent(table, ColumnType(s, NotNullable), "float32");
    }
  }

  /** The comprehension's result for the nullable numeric and date-time types. */
  lemma NullableNumericReadBack(pandas100: bool)
    ensures PyDict.LastKeyWithValue(ColumnTypes(pandas100), ColumnType(SmallInt, Nullable), "float32") == Some("Int16")
    ensures PyDict.LastKeyWithValue(ColumnTypes(pandas100), ColumnType(Int, Nullable), "float32") == Some("Int32")
    ensures PyDict.LastKeyWithValue(ColumnTypes(pandas100), ColumnType(BigInt, Nullable), "float32") == Some("Int64")
    ensures PyDict.LastKeyWithValue(ColumnTypes(pandas100), ColumnType(Double, Nullable), "float32") == Some("float64")
    ensures PyDict.LastKeyWithValue(ColumnTypes(pandas100), ColumnType(Timestamp, Nullable), "float32") == Some("datetime64[ns]")
    ensures PyDict.LastKeyWithValue(ColumnTypes(pandas100), ColumnType(TimestampTz, Nullable), "float32") == Some("datetime64[ns, UTC]")
    ensures PyDict.LastKeyWithValue(ColumnTypes(pandas100), ColumnType(Interval, Nullable), "float32") == Some("timedelta64[ns]")
  {
    var table := ColumnTypes(pandas100);
    assert forall j :: 6 <= j < |table| && table[j].1.nullability == Nullable ==> j in {6, 7, 9, 10, 11, 12, 13, 14};
    PyDict.LastKeyWithValueAt(table, ColumnType(SmallInt, Nullable), "float32", 3);
    PyDict.LastKeyWithValueAt(table, ColumnType(Int, Nullable), "float32", 4);
    PyDict.LastKeyWithValueAt(table, ColumnType(BigInt, Nullable), "float32", 5);
    PyDict.LastKeyWithValueAt(table, ColumnType(Double, Nullable), "float32", 7);
    PyDict.LastKeyWithValueAt(table, ColumnType(Timestamp, Nullable), "float32", 9);
    PyDict.LastKeyWithValueAt(table, ColumnType(TimestampTz, Nullable), "float32", 10);
    PyDict.LastKeyWithValueAt(table, ColumnType(Interval, Nullable), "float32", 11);
  }

  /**
   * The comprehension's result for nullable text and bool, where the later
   * pandas >= 1.0 keys overwrite "object", and for nullable dates, which no
   * dtype is written as.
   */
  lemma NullableOtherReadBack(pandas100: bool)
    ensures PyDict.LastKeyWithValue(ColumnTypes(pandas100), ColumnType(Text, Nullable), "float32")
            == Some(if pandas100 then "string" else "object")
    ensures PyDict.LastKeyWithValue(ColumnTypes(pandas100), ColumnType(Bool, Nullable), "float32")
            == if pandas100 then Some("boolean") else None
    ensures PyDict.LastKeyWithValue(ColumnTypes(pandas100), ColumnType(Date, Nullable), "float32") == None
  {
    var table := ColumnTypes(pandas100);
    if pandas100 {
      PyDict.LastKeyWithValueAt(table, ColumnType(Text, Nullable), "float32", 13);
      PyDict.LastKeyWithValueAt(table, ColumnType(Bool, Nullable), "float32", 14);
    } else {
      PyDict.LastKeyWithValueAt(table, ColumnType(Text, Nullable), "float32", 12);
      PyDict.LastKeyWithValueAbsent(table, ColumnType(Bool, Nullable), "float32");
    }
    PyDict.LastKeyWithValueAbsent(table, ColumnType(Date, Nullable), "float32");
  }

  /** The column a supported dtype becomes. */
  function ColumnOf(name: string, t: ColumnType): Column
  {
    Column(name, t.type_, t.nullability)
  }

  /**
   * The columns `buildTabDefination` adds for a dataframe given as its
   * `(column name, dtype name)` pairs, or the `TypeError` of the first column
   * whose dtype is unsupported.
   */
  function BuildColumns(dtypes: seq<(string, string)>, pandas100: bool): (r: Result<seq<Column>, Error>)
    ensures r.Ok? <==> forall i :: 0 <= i < |dtypes| ==> dtypes[i].1 in SupportedDtypes(pandas100)
    ensures r.Ok? ==> |r.value| == |dtypes|
    ensures r.Ok? ==> forall i :: 0 <= i < |dtypes| ==>
              PandasToTableauType(dtypes[i].1, pandas100).Ok?
              && r.value[i] == ColumnOf(dtypes[i].0, PandasToTableauType(dtypes[i].1, pandas100).value)
    ensures r.Err? ==>
              exists i :: (0 <= i < |dtypes| && dtypes[i].1 !in SupportedDtypes(pandas100)
                           && (forall j :: 0 <= j < i ==> dtypes[j].1 in SupportedDtypes(pandas100))
                           && r.error == UnsupportedDtype(dtypes[i].1))
  {
    if dtypes == [] then Ok([])
    else
      match PandasToTableauType(dtypes[0].1, pandas100)
      case Err(e) => Err(e)
      case Ok(t) =>
        match BuildColumns(dtypes[1..], pandas100)
        case Err(e) => 
          assert forall j :: 1 <= j < |dtypes| ==> dtypes[j] == dtypes[1..][j - 1];
          Err(e)
        case Ok(columns) => Ok([ColumnOf(dtypes[0].0, t)] + columns)
  }

  /** The error of a failed build names the first unsupported dtype, so it is unique. */
  lemma BuildColumnsFirstError(dtypes: seq<(string, string)>, pandas100: bool, i: nat)
    requires i < |dtypes| && dtypes[i].1 !in SupportedDtypes(pandas100)
    requires forall j :: 0 <= j < i ==> dtypes[j].1 in SupportedDtypes(pandas100)
    ensures BuildColumns(dtypes, pandas100) == Err(UnsupportedDtype(dtypes[i].1))
  {
    var r := BuildColumns(dtypes, pandas100);
    if r.Err? {
      var k :| 0 <= k < |dtypes| && dtypes[k].1 !in SupportedDtypes(pandas100)
               && (forall j :: 0 <= j < k ==> dtypes[j].1 in SupportedDtypes(pandas100))
               && r.error == UnsupportedDtype(dtypes[k].1);
      assert k == i;
    }
  }

  /** A build succeeds with exactly the columns that the per-dtype lookups give. */
  lemma BuildColumnsFromLookups(dtypes: seq<(string, string)>, pandas100: bool, columns: seq<Column>)
    requires |columns| == |dtypes|
    requires forall j :: 0 <= j < |dtypes| ==>
               PandasToTableauType(dtypes[j].1, pandas100).Ok?
               && columns[j] == ColumnOf(dtypes[j].0, PandasToTableauType(dtypes[j].1, pandas100).value)
    ensures BuildColumns(dtypes, pandas100) == Ok(columns)
  {
    assert forall j :: 0 <= j < |dtypes| ==> dtypes[j].1 in SupportedDtypes(pandas100);
    var built := BuildColumns(dtypes, pandas100).value;
    assert |built| == |columns|;
    assert forall j :: 0 <= j < |dtypes| ==> built[j] == columns[j];
    assert built == columns;
  }

  /** `tab_api.TableDefinition`: a table name and the columns added to it so far. */
  class TableDefinition {
    const tableName: string
    var columns: seq<Column>

    /** `TableDefinition(name)`: a definition without columns. */
    constructor (tableName: string)
      ensures this.tableName == tableName && columns == []
    {
      this.tableName := tableName;
      columns := [];
    }

    /** `add_column`: appends one column. */
    method AddColumn(column: Column)
      modifies this
      ensures columns == old(columns) + [column]
    {
      columns := columns + [column];
    }
  }

  /**
   * `buildTabDefination(df, hyper_table_name='Extract')`: a new table
   * definition with one column per dataframe column, in order, or the
   * `TypeError` of the first unsupported dtype and no definition.
   */
  method BuildTabDefinition(dtypes: seq<(string, string)>, pandas100: bool, hyperTableName: string := "Extract")
    returns (r: Result<TableDefinition, Error>)
    ensures BuildColumns(dtypes, pandas100).Err? ==> r.Err? && r.error == BuildColumns(dtypes, pandas100).error
    ensures BuildColumns(dtypes, pandas100).Ok? ==>
              r.Ok? && fresh(r.value) && r.value.tableName == hyperTableName
              && r.value.columns == BuildColumns(dtypes, pandas100).value
  {
    var tableDef := new TableDefinition(hyperTableName);
    var columnTypes: seq<ColumnType> := [];
    var columns: seq<Column> := [];
    var i := 0;
    while i < |dtypes|
      invariant i <= |dtypes|
      invariant |columnTypes| == |columns| == i
      invariant forall j :: 0 <= j < i ==>
                  PandasToTableauType(dtypes[j].1, pandas100) == Ok(columnTypes[j])
                  && columns[j] == ColumnOf(dtypes[j].0, columnTypes[j])
    {
      var (name, dtype) := dtypes[i];
      var columnType := PandasToTableauType(dtype, pandas100);
      if columnType.Err? {
        BuildColumnsFirstError(dtypes, pandas100, i);
        return Err(columnType.error);
      }
      columnTypes := columnTypes + [columnType.value];
      columns := columns + [ColumnOf(name, columnType.value)];
      i := i + 1;
    }
    var k := 0;
    while k < |columns| && k < |columnTypes|
      invariant k <= |columns|
      invariant tableDef.columns == columns[..k]
    {
      tableDef.AddColumn(columns[k]);
      k := k + 1;
    }
    BuildColumnsFromLookups(dtypes, pandas100, columns);
    assert columns[..k] == columns;
    r := Ok(tableDef);
  }
}
