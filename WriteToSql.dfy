/**
 * Write_To_Sql_Server_v1: an Azure SQL activity. Configuration looks for a
 * connection string among the controls; at run time the mapped fields
 * ("Table.Column" per field) and the envelope values become one single-row
 * table per table name, schema "dbo".
 */
module WriteToSql {
  import opened Wrappers
  import opened Strings
  import opened Crates

  datatype Failure =
    | ConnectionStringMissing        // PluginCodedException SQL_SERVER_CONNECTION_STRING_MISSING
    | InvalidOperation               // Enumerable.First on an empty control list
    | ApplicationError(message: string)
    | ArgumentError(message: string)
    | NullReference

  const ConnectionStringName := "connection_string"
  const TooManyConnectionStrings := "didn't expect to see more than one connectionStringObject with the name Connection String on this Action"
  const ColumnsLabel := "Sql Table Columns"
  const MappedFieldsLabel := "MappedFields"
  const ValuesLabel := "DocuSign Envelope Data"
  const NoMappedFields := "No payload crate found with Label == MappdFields."
  const NoValues := "No payload crate found with Label == DocuSign Envelope Data"
  const Schema := "dbo"

  // ---------------------------------------------------------------------
  // Configuration

  /** The connection_string control of each controls crate, where it has a non-blank value. */
  function ConnectionStrings(cs: seq<seq<Control>>, cc: CharClasses): (r: seq<Control>)
    ensures |r| <= |cs|
  {
    if |cs| == 0 then []
    else
      var found := FindControl(cs[0], ConnectionStringName);
      (if found.Some? && !IsNullOrWhiteSpace(found.value.value, cc) then [found.value] else [])
      + ConnectionStrings(cs[1..], cc)
  }

  /** A control is counted exactly when it is some controls crate's connection_string control with a non-blank value. */
  lemma {:induction false} ConnectionStringsMembers(cs: seq<seq<Control>>, cc: CharClasses, c: Control)
    ensures c in ConnectionStrings(cs, cc) <==>
      exists k :: 0 <= k < |cs| && FindControl(cs[k], ConnectionStringName) == Some(c) && !IsNullOrWhiteSpace(c.value, cc)
  {
    if |cs| > 0 {
      ConnectionStringsMembers(cs[1..], cc, c);
      if c in ConnectionStrings(cs[1..], cc) {
        var k :| 0 <= k < |cs[1..]| && FindControl(cs[1..][k], ConnectionStringName) == Some(c) && !IsNullOrWhiteSpace(c.value, cc);
        assert cs[k + 1] == cs[1..][k];
      }
      if exists k :: 0 <= k < |cs| && FindControl(cs[k], ConnectionStringName) == Some(c) && !IsNullOrWhiteSpace(c.value, cc) {
        var k :| 0 <= k < |cs| && FindControl(cs[k], ConnectionStringName) == Some(c) && !IsNullOrWhiteSpace(c.value, cc);
        if k > 0 {
          assert cs[1..][k - 1] == cs[k];
        }
      }
    }
  }

  /** EvaluateReceivedRequest. */
  function EvaluateReceivedRequest(storage: seq<Crate>, cc: CharClasses): (r: Result<RequestType, Failure>)
    ensures |storage| == 0 ==> r == Ok(Initial)
    ensures |storage| > 0 ==>
      var n := |ConnectionStrings(ControlsCrates(storage), cc)|;
      && (r == Err(ArgumentError(TooManyConnectionStrings)) <==> n > 1)
      && (r == Ok(Followup) <==> n == 1)
      && (r == Ok(Initial) <==> n == 0)
  {
    if |storage| == 0 then Ok(Initial)
    else
      var n := |ConnectionStrings(ControlsCrates(storage), cc)|;
      if n > 1 then Err(ArgumentError(TooManyConnectionStrings))
      else if n == 0 then Ok(Initial)
      else Ok(Followup)
  }

  /**
   * GetFieldMappings: the checks before the database is asked for its
   * "[table].column" list, which `connectToSql` stands for.
   */
  function GetFieldMappings(storage: seq<Crate>, connectToSql: string -> seq<string>): (r: Result<seq<string>, Failure>)
    ensures r.Ok? <==> |storage| > 0 && |ControlsCrates(storage)| > 0 && |ControlsCrates(storage)[0]| > 0
                       && !IsNullOrEmpty(ControlsCrates(storage)[0][0].value)
    ensures r.Ok? ==> r.value == connectToSql(ControlsCrates(storage)[0][0].value.value)
    ensures r == Err(InvalidOperation) <==> |storage| > 0 && |ControlsCrates(storage)| > 0 && |ControlsCrates(storage)[0]| == 0
    ensures r.Err? && r.error != InvalidOperation ==> r.error == ConnectionStringMissing
  {
    if |storage| == 0 then Err(ConnectionStringMissing)
    else
      var cs := ControlsCrates(storage);
      if |cs| == 0 then Err(ConnectionStringMissing)
      else if |cs[0]| == 0 then Err(InvalidOperation)
      else if IsNullOrEmpty(cs[0][0].value) then Err(ConnectionStringMissing)
      else Ok(connectToSql(cs[0][0].value.value))
  }

  /** FollowupConfigurationResponse: the column list replaces the "Sql Table Columns" crate, each column as key and value. */
  function FollowupStorage(storage: seq<Crate>, columns: seq<string>): (r: seq<Crate>)
    ensures |r| == |RemoveByLabel(storage, ColumnsLabel)| + 1
    ensures r == RemoveByLabel(storage, ColumnsLabel) + [r[|r| - 1]]
    ensures r[|r| - 1].labelText == ColumnsLabel && r[|r| - 1].content.FieldDescriptions?
    ensures |r[|r| - 1].content.fields| == |columns|
    ensures forall i :: 0 <= i < |columns| ==> r[|r| - 1].content.fields[i] == KeyValue(columns[i], Some(columns[i]))
  {
    var fields := seq(|columns|, i requires 0 <= i < |columns| => KeyValue(columns[i], Some(columns[i])));
    RemoveByLabel(storage, ColumnsLabel) + [Crate(ColumnsLabel, FieldDescriptions(fields), NotSet)]
  }

  // ---------------------------------------------------------------------
  // Names

  /** PrepareSqlName: the name without '[' and ']'. */
  function PrepareSqlName(rawName: string): string {
    RemoveChar(RemoveChar(rawName, '['), ']')
  }

  /** Exactly the brackets are removed, and a second application changes nothing. */
  lemma PrepareSqlNameSpec(rawName: string, c: char)
    ensures c in PrepareSqlName(rawName) <==> c in rawName && c != '[' && c != ']'
    ensures PrepareSqlName(PrepareSqlName(rawName)) == PrepareSqlName(rawName)
  {
    RemoveCharMembers(rawName, '[', c);
    RemoveCharMembers(RemoveChar(rawName, '['), ']', c);
    var r := PrepareSqlName(rawName);
    forall i | 0 <= i < |r| ensures r[i] != '[' {
      RemoveCharMembers(RemoveChar(rawName, '['), ']', r[i]);
      RemoveCharMembers(rawName, '[', r[i]);
    }
    RemoveCharFree(r, '[');
    RemoveCharFree(r, ']');
  }

  /** The (table, column) pair a mapped field names: its value split on '.' into exactly two parts. */
  function ColumnOf(field: Field): Result<(string, string), Failure> {
    match field.value
    case None => Err(NullReference)
    case Some(v) =>
      var tokens := Split(v, '.');
      if |tokens| != 2 then Err(ApplicationError("Invalid column name " + v))
      else Ok((PrepareSqlName(tokens[0]), PrepareSqlName(tokens[1])))
  }

  /** A mapped field is accepted exactly when its value holds one '.'. */
  lemma ColumnOfSpec(field: Field)
    ensures field.value.None? ==> ColumnOf(field) == Err(NullReference)
    ensures field.value.Some? ==>
      (ColumnOf(field).Ok? <==> Count(field.value.value, '.') == 1)
      && (ColumnOf(field).Err? ==> ColumnOf(field) == Err(ApplicationError("Invalid column name " + field.value.value)))
  {
    if field.value.Some? {
      SplitLength(field.value.value, '.');
    }
  }

  // ---------------------------------------------------------------------
  // Insertion-ordered dictionaries

  /** A Dictionary: its entries in insertion order. */
  datatype Entry<V> = Entry(key: string, value: V)

  function Keys<V>(m: seq<Entry<V>>): (r: seq<string>)
    ensures |r| == |m| && forall i :: 0 <= i < |m| ==> r[i] == m[i].key
  {
    seq(|m|, i requires 0 <= i < |m| => m[i].key)
  }

  predicate DistinctKeys<V>(m: seq<Entry<V>>) {
    forall i, j :: 0 <= i < j < |m| ==> m[i].key != m[j].key
  }

  /** The indexer get (TryGetValue). */
  function Lookup<V>(m: seq<Entry<V>>, k: string): (r: Option<V>)
    ensures r.Some? <==> k in Keys(m)
  {
    if |m| == 0 then None else if m[0].key == k then Some(m[0].value) else Lookup(m[1..], k)
  }

  /** The indexer set: a known key keeps its place, a new key goes last. */
  function Put<V>(m: seq<Entry<V>>, k: string, v: V): (r: seq<Entry<V>>)
    ensures k in Keys(m) ==> Keys(r) == Keys(m)
    ensures k !in Keys(m) ==> Keys(r) == Keys(m) + [k]
  {
    if |m| == 0 then [Entry(k, v)]
    else if m[0].key == k then [Entry(k, v)] + m[1..]
    else [m[0]] + Put(m[1..], k, v)
  }

  /** After a set, the key reads as the new value and every other key as before. */
  lemma {:induction false} PutLookup<V>(m: seq<Entry<V>>, k: string, v: V, k': string)
    ensures Lookup(Put(m, k, v), k') == if k' == k then Some(v) else Lookup(m, k')
  {
    if |m| > 0 && m[0].key != k {
      PutLookup(m[1..], k, v, k');
      assert Put(m, k, v)[1..] == Put(m[1..], k, v);
    }
  }

  /** A set keeps the keys distinct. */
  lemma PutDistinct<V>(m: seq<Entry<V>>, k: string, v: V)
    requires DistinctKeys(m)
    ensures DistinctKeys(Put(m, k, v))
  {
    var r := Put(m, k, v);
    forall i, j | 0 <= i < j < |r| ensures r[i].key != r[j].key {
      assert Keys(r)[i] == r[i].key && Keys(r)[j] == r[j].key;
      if k !in Keys(m) && j == |m| {
        assert Keys(m)[i] == m[i].key;
      } else {
        assert Keys(m)[i] == m[i].key && Keys(m)[j] == m[j].key;
      }
    }
  }

  // ---------------------------------------------------------------------
  // Tables

  /** tableName -> columnName -> value, in insertion order. */
  type TableMap = seq<Entry<seq<Entry<Option<string>>>>>

  /** The value written for a mapped field: the value of the first envelope value with its key, "" when there is none. */
  function CellValue(values: seq<Field>, key: string): (r: Option<string>)
    ensures FirstWithKey(values, key).None? ==> r == Some("")
    ensures FirstWithKey(values, key).Some? ==> r == FirstWithKey(values, key).value.value
  {
    match FirstWithKey(values, key)
    case None => Some("")
    case Some(f) => f.value
  }

  /** One iteration of the CreateTables loop. */
  function Step(m: TableMap, field: Field, values: seq<Field>): Result<TableMap, Failure> {
    match ColumnOf(field)
    case Err(e) => Err(e)
    case Ok((tableName, columnName)) =>
      var columns := Lookup(m, tableName).GetOr([]);
      Ok(Put(m, tableName, Put(columns, columnName, CellValue(values, field.key))))
  }

  /** The CreateTables loop from table map `m` over the remaining fields. */
  function Build(m: TableMap, fields: seq<Field>, values: seq<Field>): Result<TableMap, Failure>
    decreases |fields|
  {
    if |fields| == 0 then Ok(m)
    else
      match Step(m, fields[0], values)
      case Err(e) => Err(e)
      case Ok(m') => Build(m', fields[1..], values)
  }

  /** Building over a concatenation is building over each part in turn. */
  lemma {:induction false} BuildAppend(m: TableMap, a: seq<Field>, b: seq<Field>, values: seq<Field>)
    ensures Build(m, a + b, values) == match Build(m, a, values) case Err(e) => Err(e) case Ok(m') => Build(m', b, values)
    decreases |a|
  {
    if |a| > 0 {
      assert (a + b)[0] == a[0] && (a + b)[1..] == a[1..] + b;
      if Step(m, a[0], values).Ok? {
        BuildAppend(Step(m, a[0], values).value, a[1..], b, values);
      }
    } else {
      assert a + b == b;
    }
  }

  /** Every table is listed once and every column once within its table. */
  predicate WellFormed(m: TableMap) {
    DistinctKeys(m) && forall i :: 0 <= i < |m| ==> DistinctKeys(m[i].value)
  }

  lemma StepWellFormed(m: TableMap, field: Field, values: seq<Field>)
    requires WellFormed(m) && Step(m, field, values).Ok?
    ensures WellFormed(Step(m, field, values).value)
  {
    var (t, c) := ColumnOf(field).value;
    var columns := Lookup(m, t).GetOr([]);
    var cols' := Put(columns, c, CellValue(values, field.key));
    assert DistinctKeys(columns) by {
      if t in Keys(m) {
        LookupAt(m, t);
      }
    }
    PutDistinct(columns, c, CellValue(values, field.key));
    PutDistinct(m, t, cols');
    var r := Put(m, t, cols');
    forall i | 0 <= i < |r| ensures DistinctKeys(r[i].value) {
      PutAt(m, t, cols', i);
    }
  }

  /** Where a Lookup's value sits. */
  lemma {:induction false} LookupAt<V>(m: seq<Entry<V>>, k: string)
    requires k in Keys(m)
    ensures exists i :: 0 <= i < |m| && m[i].key == k && Lookup(m, k) == Some(m[i].value)
  {
    if m[0].key != k {
      assert k in Keys(m[1..]) by {
        var j :| 0 <= j < |m| && Keys(m)[j] == k;
        assert j > 0 && Keys(m[1..])[j - 1] == k;
      }
      LookupAt(m[1..], k);
      var i :| 0 <= i < |m[1..]| && m[1..][i].key == k && Lookup(m[1..], k) == Some(m[1..][i].value);
      assert m[i + 1] == m[1..][i];
    }
  }

  /** Each entry after a set is either the new one or an old entry. */
  lemma {:induction false} PutAt<V>(m: seq<Entry<V>>, k: string, v: V, i: int)
    requires 0 <= i < |Put(m, k, v)|
    ensures Put(m, k, v)[i] == Entry(k, v) || (i < |m| && Put(m, k, v)[i] == m[i])
  {
    if |m| > 0 && m[0].key != k && i > 0 {
      PutAt(m[1..], k, v, i - 1);
    }
  }

  /** The loop keeps the tables well formed. */
  lemma {:induction false} BuildWellFormed(m: TableMap, fields: seq<Field>, values: seq<Field>)
    requires WellFormed(m) && Build(m, fields, values).Ok?
    ensures WellFormed(Build(m, fields, values).value)
    decreases |fields|
  {
    if |fields| > 0 {
      StepWellFormed(m, fields[0], values);
      BuildWellFormed(Step(m, fields[0], values).value, fields[1..], values);
    }
  }

  /** The cell a field writes holds its value afterwards: a later field for the same table and column overwrites an earlier one. */
  lemma LastFieldWins(m: TableMap, fields: seq<Field>, f: Field, values: seq<Field>)
    requires Build(m, fields + [f], values).Ok?
    ensures ColumnOf(f).Ok?
    ensures var (t, c) := ColumnOf(f).value;
      var r := Build(m, fields + [f], values).value;
      Lookup(r, t).Some? && Lookup(Lookup(r, t).value, c) == Some(CellValue(values, f.key))
  {
    BuildAppend(m, fields, [f], values);
    var m' := Build(m, fields, values).value;
    assert [f][1..] == [];
    var (t, c) := ColumnOf(f).value;
    var columns := Lookup(m', t).GetOr([]);
    var cols' := Put(columns, c, CellValue(values, f.key));
    PutLookup(m', t, cols', t);
    PutLookup(columns, c, CellValue(values, f.key), c);
  }

  /** A Table: schema, name and rows of (column, value) pairs. */
  datatype FieldValue = FieldValue(key: string, value: Option<string>)
  datatype Row = Row(values: seq<FieldValue>)
  datatype Table = Table(schema: string, name: string, rows: seq<Row>)

  /** The row of a column map, in column order. */
  function RowOf(columns: seq<Entry<Option<string>>>): (r: Row)
    ensures |r.values| == |columns|
    ensures forall j :: 0 <= j < |columns| ==> r.values[j] == FieldValue(columns[j].key, columns[j].value)
  {
    Row(seq(|columns|, j requires 0 <= j < |columns| => FieldValue(columns[j].key, columns[j].value)))
  }

  /** One "dbo" table with a single row per table name, in table order. */
  function TablesOf(m: TableMap): (r: seq<Table>)
    ensures |r| == |m|
    ensures forall i :: 0 <= i < |m| ==> r[i] == Table(Schema, m[i].key, [RowOf(m[i].value)])
  {
    seq(|m|, i requires 0 <= i < |m| => Table(Schema, m[i].key, [RowOf(m[i].value)]))
  }

  /** Well-formed maps give tables with distinct names. */
  lemma TablesOfDistinct(m: TableMap)
    requires WellFormed(m)
    ensures forall i, j :: 0 <= i < j < |m| ==> TablesOf(m)[i].name != TablesOf(m)[j].name
  {
  }

  /** CreateTablesFromMap. */
  method CreateTablesFromMap(tableMap: TableMap) returns (tables: seq<Table>)
    ensures tables == TablesOf(tableMap)
  {
    tables := [];
    var i := 0;
    while i < |tableMap|
      invariant 0 <= i <= |tableMap|
      invariant tables == TablesOf(tableMap)[..i]
    {
      var columns := tableMap[i].value;
      var values: seq<FieldValue> := [];
      var j := 0;
      while j < |columns|
        invariant 0 <= j <= |columns|
        invariant values == RowOf(columns).values[..j]
      {
        values := values + [FieldValue(columns[j].key, columns[j].value)];
        j := j + 1;
      }
      assert values == RowOf(columns).values;
      tables := tables + [Table(Schema, tableMap[i].key, [Row(values)])];
      i := i + 1;
    }
  }

  /** CreateTables: the loop over the fields, then the tables of the resulting map. */
  method CreateTables(fields: seq<Field>, values: seq<Field>) returns (r: Result<seq<Table>, Failure>)
    ensures Build([], fields, values).Err? ==> r == Err(Build([], fields, values).error)
    ensures Build([], fields, values).Ok? ==> r == Ok(TablesOf(Build([], fields, values).value))
  {
    var tableMap: TableMap := [];
    var i := 0;
    while i < |fields|
      invariant 0 <= i <= |fields|
      invariant Build(tableMap, fields[i..], values) == Build([], fields, values)
    {
      var field := fields[i];
      assert fields[i..][0] == field && fields[i..][1..] == fields[i + 1..];
      if field.value.None? {
        return Err(NullReference);
      }
      var tableTokens := Split(field.value.value, '.');
      if |tableTokens| != 2 {
        return Err(ApplicationError("Invalid column name " + field.value.value));
      }
      var tableName := PrepareSqlName(tableTokens[0]);
      var columnName := PrepareSqlName(tableTokens[1]);
      var value := CellValue(values, field.key);
      var columnMap: seq<Entry<Option<string>>>;
      var existing := Lookup(tableMap, tableName);
      if existing.Some? {
        columnMap := existing.value;
      } else {
        columnMap := [];
      }
      tableMap := Put(tableMap, tableName, Put(columnMap, columnName, value));
      i := i + 1;
    }
    var tables := CreateTablesFromMap(tableMap);
    r := Ok(tables);
  }

  // ---------------------------------------------------------------------
  // The value lookup as written

  /**
   * The value lookup as it stands in lines 251-257: the guard tests `value`,
   * which is never null, instead of `valueField`, so a field whose key has no
   * envelope value dereferences null.
   */
  function CellValueAsWritten(values: seq<Field>, key: string): (r: Result<Option<string>, Failure>)
    ensures r.Err? <==> forall f :: f in values ==> f.key != key
    ensures r.Err? ==> r.error == NullReference
    ensures r.Ok? ==> exists f :: f in values && f.key == key && f.value == r.value
  {
    match FirstWithKey(values, key)
    case None => Err(NullReference)
    case Some(f) => Ok(f.value)
  }

  /** One iteration as written: it fails on a bad column name and also on a key without an envelope value. */
  function StepAsWritten(m: TableMap, field: Field, values: seq<Field>): (r: Result<TableMap, Failure>)
    ensures r.Err? <==> ColumnOf(field).Err? || forall f :: f in values ==> f.key != field.key
    ensures ColumnOf(field).Ok? && (forall f :: f in values ==> f.key != field.key) ==> r == Err(NullReference)
  {
    match ColumnOf(field)
    case Err(e) => Err(e)
    case Ok((tableName, columnName)) =>
      match CellValueAsWritten(values, field.key)
      case Err(e) => Err(e)
      case Ok(v) =>
        var columns := Lookup(m, tableName).GetOr([]);
        Ok(Put(m, tableName, Put(columns, columnName, v)))
  }

  /** As written, one mapped field without an envelope value aborts the write; the guarded lookup writes "" instead. */
  lemma MissingValueFailsAsWritten()
    ensures var f := Field("Name", Some("t.c"), None);
      && StepAsWritten([], f, []) == Err(NullReference)
      && Step([], f, []) == Ok([Entry("t", [Entry("c", Some(""))])])
  {
    var f := Field("Name", Some("t.c"), None);
    SplitFree("c", '.');
    SplitAfterFree("t", "c", '.');
    assert "t" + ['.'] + "c" == "t.c";
    assert RemoveChar("t", '[') == "t" && RemoveChar("t", ']') == "t";
    assert RemoveChar("c", '[') == "c" && RemoveChar("c", ']') == "c";
  }

  /** Where every key has a value, the two agree. */
  lemma StepAgreesWithAsWritten(m: TableMap, field: Field, values: seq<Field>)
    requires FirstWithKey(values, field.key).Some?
    ensures StepAsWritten(m, field, values) == Step(m, field, values)
  {
  }

  /** The corrected lookup never fails on a missing key. */
  lemma StepFailsOnlyOnBadColumn(m: TableMap, field: Field, values: seq<Field>)
    ensures Step(m, field, values).Err? <==> ColumnOf(field).Err?
  {
  }

  // ---------------------------------------------------------------------
  // Run

  /** The first standard-payload crate with the label: its payload objects. */
  function PayloadCrate(storage: seq<Crate>, labelText: string): (r: Option<seq<seq<Field>>>)
    ensures r.Some? ==> exists c :: c in storage && c.labelText == labelText && c.content == PayloadData(r.value)
    ensures r.None? <==> forall c :: c in storage ==> !(c.labelText == labelText && c.content.PayloadData?)
  {
    if |storage| == 0 then None
    else if storage[0].labelText == labelText && storage[0].content.PayloadData? then Some(storage[0].content.objects)
    else PayloadCrate(storage[1..], labelText)
  }

  /** AllValues: the fields of all payload objects, in order. */
  function AllValues(objects: seq<seq<Field>>): seq<Field> {
    if |objects| == 0 then [] else objects[0] + AllValues(objects[1..])
  }

  /** A field is among all values exactly when some payload object holds it. */
  lemma {:induction false} AllValuesMembers(objects: seq<seq<Field>>, f: Field)
    ensures f in AllValues(objects) <==> exists k :: 0 <= k < |objects| && f in objects[k]
  {
    if |objects| > 0 {
      AllValuesMembers(objects[1..], f);
      if f in AllValues(objects[1..]) {
        var k :| 0 <= k < |objects[1..]| && f in objects[1..][k];
        assert objects[k + 1] == objects[1..][k];
      }
      if exists k :: 0 <= k < |objects| && f in objects[k] {
        var k :| 0 <= k < |objects| && f in objects[k];
        if k > 0 {
          assert objects[1..][k - 1] == objects[k];
        }
      }
    }
  }

  /**
   * ConvertProcessPayloadToSqlInputs: both crates must be present. The
   * tables are built with the corrected value guard: a mapped field without
   * an envelope value writes "", where the code as written throws (see
   * StepAsWritten).
   */
  method ConvertProcessPayloadToSqlInputs(payload: seq<Crate>) returns (r: Result<seq<Table>, Failure>)
    ensures PayloadCrate(payload, MappedFieldsLabel).None? ==> r == Err(ApplicationError(NoMappedFields))
    ensures PayloadCrate(payload, MappedFieldsLabel).Some? && PayloadCrate(payload, ValuesLabel).None? ==>
      r == Err(ApplicationError(NoValues))
    ensures PayloadCrate(payload, MappedFieldsLabel).Some? && PayloadCrate(payload, ValuesLabel).Some? ==>
      var built := Build([], AllValues(PayloadCrate(payload, MappedFieldsLabel).value),
                         AllValues(PayloadCrate(payload, ValuesLabel).value));
      (built.Err? ==> r == Err(built.error)) && (built.Ok? ==> r == Ok(TablesOf(built.value)))
  {
    var mappedFields := PayloadCrate(payload, MappedFieldsLabel);
    if mappedFields.None? {
      return Err(ApplicationError(NoMappedFields));
    }
    var values := PayloadCrate(payload, ValuesLabel);
    if values.None? {
      return Err(ApplicationError(NoValues));
    }
    r := CreateTables(AllValues(mappedFields.value), AllValues(values.value));
  }
}
