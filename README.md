# Hyper column types for pandas dataframes — a Dafny model

This project models the type-mapping core of `TableauHyper.py`, a script that turns a
pandas dataframe into a Tableau Hyper extract. The core has four parts:

* `_column_types` maps a pandas dtype name (`"int64"`, `"Int64"`, `"object"`, …) to a Hyper
  column type. A column type is a scalar SQL type plus a nullability. Under pandas ≥ 1.0 the
  table also gets `"string"` and `"boolean"`.
* `_pandas_to_tableau_type` looks a dtype up in that table. For an unknown dtype it raises
  `TypeError("Conversion of '<dtype>' dtypes not supported!")`.
* `_pandas_types` is the inverse table used for read-back. It is built by a dict
  comprehension that skips `"float32"`. Two read-only items are then added: nullable
  `date` and non-nullable text.
* `buildTabDefination` turns the dataframe's `(column name, dtype)` pairs into a
  `TableDefinition` with one column per pair. The definition has a given table name, which
  defaults to `'Extract'`.

Files:

* `wrappers.dfy` — `Option` and `Result`.
* `hyper_types.dfy` (module `HyperTypes`) — the SQL types, nullability, the `_ColumnType`
  pair, a table column and the `TypeError` with its message.
* `py_dict.dfy` (module `PyDict`) — Python's `dict`, modelled as an insertion-ordered list
  of items with distinct keys:
  * `d[k]` is `Find`.
  * `d[k] = v` is `Put`. It overwrites an existing key in place, or appends a new key.
  * The inverting comprehension is `InvertSkipping`.
  * `LastKeyWithValue` defines the comprehension's result independently of dict updates:
    for each value, the last key in insertion order that holds it.
* `tableau_hyper.dfy` (module `TableauHyper`) — the tables, the lookup, the read-back
  table, the `TableDefinition` class and the builder.

The module-level statements that build the two tables become the methods
`BuildColumnTypes` and `BuildPandasTypes`. `BuildPandasTypes` runs the comprehension as a
loop over the items in insertion order. Each method is proved to produce the finished
table (`ColumnTypes`, `PandasTypes`). The pandas-version test `PANDAS_100` is the boolean
parameter `pandas100`. `buildTabDefination` is the method `BuildTabDefinition`. Like the
source, it has two loops: the first collects the looked-up column types and columns, and
the second calls `add_column` on the new definition. It is proved against the pure
function `BuildColumns`.

The model follows the code in three places that are easy to misread:

* Under pandas < 1.0 the table does not swap entries. The code re-assigns `"object"` to
  the value it already has, which changes nothing (`ObjectReassignmentIsNoOp`).
* The inverse gets two read-only items, not one: nullable `date`, and non-nullable text as
  `"string"` or `"object"`.
* The builder is not free of side effects: it creates a `TableDefinition` and mutates it
  with `add_column`.

## Model

| member | source | states |
|---|---|---|
| `HyperTypes.UnsupportedDtypeNamesDtype` | TableauHyper.py:94-95 | the dtype can be read back out of the unsupported-dtype message |
| `HyperTypes.UnsupportedDtypeInjective` | TableauHyper.py:94-95 | two different dtypes never give the same `TypeError` |
| `PyDict.Find` | TableauHyper.py:93 | a lookup finds a value exactly when the key is in the dict, and the found item is in the dict |
| `PyDict.FindAt` | TableauHyper.py:93 | in a dict with distinct keys, looking up any item's key returns that item's value |
| `PyDict.IndexOf` | TableauHyper.py:62-71 | a key in the dict has a position that holds it |
| `PyDict.Put` | TableauHyper.py:62-71 | `d[k] = v` keeps keys distinct; afterwards `k` gives `v` and every other key is unchanged; a new key is appended; an existing key is overwritten at its own position |
| `PyDict.InvertSkipping` | TableauHyper.py:75 | the inverting comprehension builds a dict (no key twice) |
| `PyDict.LastKeyWithValue` | TableauHyper.py:75 | the last writer of a value is an item holding that value whose key is not skipped; if there is none, every item holding the value has the skipped key |
| `PyDict.LastKeyWithValueAt` | TableauHyper.py:75 | last writer wins: an item with no later item holding the same value (other than under the skipped key) is the result |
| `PyDict.InvertSkippingIsLastWriter` | TableauHyper.py:75 | for every value, the comprehension's lookup equals the last writer in insertion order |
| `PyDict.InvertSkippingRoundTrip` | TableauHyper.py:74-75 | every inverted item points back to a key other than the skipped one, and that key maps forward to the value |
| `TableauHyper.ColumnTypesKeys` | TableauHyper.py:39-71 | `_column_types` has distinct keys, and its keys are exactly the 13 base dtypes, plus `string` and `boolean` under pandas ≥ 1.0 |
| `TableauHyper.AddedKeysAreAppended` | TableauHyper.py:61-67 | under pandas ≥ 1.0, `string` and then `boolean` are new keys appended after the base items |
| `TableauHyper.ObjectReassignmentIsNoOp` | TableauHyper.py:68-71 | under pandas < 1.0, re-assigning `object` leaves the table unchanged |
| `TableauHyper.BuildColumnTypes` | TableauHyper.py:39-71 | the table-building statements produce the finished `_column_types`, items in insertion order |
| `TableauHyper.PandasToTableauType` | TableauHyper.py:91-95 | the lookup succeeds exactly for supported dtypes and returns the table's pair; otherwise it returns the `TypeError` naming the dtype |
| `TableauHyper.LookupAt` | TableauHyper.py:91-93 | looking up any key of `_column_types` returns the value stored with it |
| `TableauHyper.IntegerDtypeTable` | TableauHyper.py:40-45 | `int16/32/64` give not-nullable small-int/int/big-int; `Int16/32/64` give the same types, nullable |
| `TableauHyper.OtherBaseDtypeTable` | TableauHyper.py:46-58 | `float32` and `float64` give nullable double; `bool` gives not-nullable bool; the datetime and timedelta dtypes give nullable timestamp, timestamp-tz and interval; `object` gives nullable text |
| `TableauHyper.VersionDependentDtypeTable` | TableauHyper.py:61-71 | `string` and `boolean` give nullable text and nullable bool under pandas ≥ 1.0, and are unsupported before |
| `TableauHyper.BuildPandasTypes` | TableauHyper.py:74-88 | the comprehension loop plus the two read-only assignments produce the finished `_pandas_types` |
| `TableauHyper.ReadOnlyTypesAreNotWritten` | TableauHyper.py:77-88 | no dtype is written as nullable date or as non-nullable text |
| `TableauHyper.ReadOnlyItemsAreAppended` | TableauHyper.py:77-88 | `_pandas_types` is the comprehension's result with the two read-only items appended; none of its items is overwritten |
| `TableauHyper.PandasTypesLookup` | TableauHyper.py:74-88 | reading back a read-only type gives its fixed name; any other type gives the last writer among `_column_types` items other than `float32` |
| `TableauHyper.PandasTypesNeverFloat32` | TableauHyper.py:74-75 | read-back never yields `float32` |
| `TableauHyper.PandasTypesRoundTrip` | TableauHyper.py:74-75 | for a type the comprehension inverted, the dtype read back is written as that same type again |
| `TableauHyper.NotNullableReadBack` | TableauHyper.py:75 | among not-nullable types, only small-int, int, big-int and bool are inverted: to `int16`, `int32`, `int64` and `bool` |
| `TableauHyper.NullableNumericReadBack` | TableauHyper.py:75 | the nullable integer, double and date-time types invert to `Int16/32/64`, `float64` (not `float32`) and the datetime/timedelta dtypes |
| `TableauHyper.NullableOtherReadBack` | TableauHyper.py:75 | nullable text inverts to `string` under pandas ≥ 1.0 (the later key wins over `object`) and to `object` otherwise; nullable bool inverts to `boolean` only under pandas ≥ 1.0; nullable date is not inverted |
| `TableauHyper.PandasTypesTable` | TableauHyper.py:74-88 | for every Hyper column type, read-back agrees with the read-back table written out per type (`ReadBackDtype`) |
| `TableauHyper.BuildColumns` | TableauHyper.py:112-123 | the columns succeed exactly when every dtype is supported; then there is one column per input pair, in order, with the input's name and its dtype's looked-up type and nullability; otherwise the error names an unsupported dtype that no earlier one precedes |
| `TableauHyper.BuildColumnsFirstError` | TableauHyper.py:114-115 | a failed build reports the `TypeError` of the first unsupported dtype |
| `TableauHyper.BuildColumnsFromLookups` | TableauHyper.py:114-123 | a column list matching the per-dtype lookups is the build's result |
| `TableauHyper.TableDefinition.constructor` | TableauHyper.py:109 | a new definition has the given table name and no columns |
| `TableauHyper.TableDefinition.AddColumn` | TableauHyper.py:125-126 | `add_column` appends one column |
| `TableauHyper.BuildTabDefinition` | TableauHyper.py:104-128 | on success, a fresh definition named `hyper_table_name` (default `Extract`) holding exactly the built columns; on failure, the first lookup error and no definition |

## Left out

- `csv2hyper` (TableauHyper.py:130-194): it starts the Hyper process, creates the extract file and runs a SQL `COPY` inside the vendor engine. The loaded row count and the all-or-nothing failure are engine behaviour, and `escape_string_literal` is a foreign call.
- `publishDataSource` (TableauHyper.py:197-226): network sign-in and upload through Tableau Server Client. Its project search over a remote pager can leave `project_id` unbound when no name matches; this is not modelled.
- The `__main__` block (TableauHyper.py:231-262): random data, CSV writing and wall-clock timing. `Test/test_csv_to_hyper.py` is a benchmark script with no assertions, so it is not part of this model.
- Detecting the pandas version with `LooseVersion`: this is the parameter `pandas100`.
- The vendor `tab_api.SqlType` objects: these are an enumeration, compared by value.
- The dataframe: it is reduced to its `(column label, dtype name)` pairs, and labels are strings. pandas allows any hashable label.
- `TableauHyper.BuildTabDefinition`: the definition object is created before the first loop, as in the source, but a failed call does not return it. Nothing else can observe it.
