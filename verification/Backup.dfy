/** The portable backup: writing an owner's rows as a document, and validating a document back into typed rows. */
module Backup {
  import opened Common
  import opened Calendar
  import opened PortableText
  import opened JsonContract

  datatype ColumnType = UuidColumn | MomentColumn | DayColumn | NumberColumn | FlagColumn | WholeColumn | TextColumn

  datatype Value =
    | UuidValue(id: nat)
    | MomentValue(moment: Moment)
    | DayValue(day: Date)
    | NumberValue(decimal: Number)
    | FlagValue(flag: bool)
    | WholeValue(whole: int)
    | TextValue(text: string)

  type Columns = map<string, ColumnType>
  type Schema = map<string, Columns>
  type Row = map<string, Option<Value>>

  const TABLES: seq<string> := [
    "accounts", "categories", "tags", "transactions", "transaction_tags", "people", "debts", "debt_payments",
    "shared_expense_shares", "transfers", "balance_reconciliations", "reallocation_sessions", "reallocation_lines",
    "exchange_rates", "merchants", "merchant_locations", "products", "transaction_items", "recurring_rules",
    "recurring_occurrences", "savings_goals", "goal_allocations"]

  const MAX_ROWS: nat := 100_000

  function TableSet(names: seq<string>): set<string> { set name | name in names }

  datatype Profile = Profile(
    id: nat,
    email: string,
    displayName: string,
    baseCurrency: string,
    timezone: string,
    createdAt: string,
    updatedAt: string)

  // ---- Writing ----

  function JsonValue(value: Option<Value>): Json
    requires value.Some? ==> Writable(value.value)
  {
    match value
    case None => JNull
    case Some(UuidValue(id)) => JText(UuidText(id))
    case Some(MomentValue(moment)) => JText(MomentText(moment))
    case Some(DayValue(day)) => JText(DateText(day))
    case Some(NumberValue(decimal)) => JText(NumberText(decimal))
    case Some(FlagValue(flag)) => JBool(flag)
    case Some(WholeValue(whole)) => JInt(whole)
    case Some(TextValue(text)) => JText(text)
  }

  /** Values that a column of the database can hold. */
  predicate Writable(value: Value) {
    match value
    case UuidValue(id) => id < UUIDS
    case MomentValue(moment) => ValidMoment(moment)
    case DayValue(day) => ValidDate(day) && day.year <= 9999
    case _ => true
  }

  predicate WritableRow(row: Row) { forall key :: key in row && row[key].Some? ==> Writable(row[key].value) }

  function JsonRow(row: Row): Json
    requires WritableRow(row)
  {
    JObject(map key | key in row :: JsonValue(row[key]))
  }

  predicate WritableRows(rows: seq<Row>) { forall i :: 0 <= i < |rows| ==> WritableRow(rows[i]) }

  function JsonRows(rows: seq<Row>): seq<Json>
    requires WritableRows(rows)
  {
    seq(|rows|, i requires 0 <= i < |rows| => JsonRow(rows[i]))
  }

  predicate WritableTables(rows: map<string, seq<Row>>) { forall name :: name in rows ==> WritableRows(rows[name]) }

  function JsonTables(rows: map<string, seq<Row>>): map<string, Json>
    requires WritableTables(rows)
  {
    map name | name in rows :: JList(JsonRows(rows[name]))
  }

  function JsonProfile(p: Profile): map<string, Json> {
    map["id" := JText(UuidText(p.id)), "email" := JText(p.email), "display_name" := JText(p.displayName),
        "base_currency" := JText(p.baseCurrency), "timezone" := JText(p.timezone),
        "created_at" := JText(p.createdAt), "updated_at" := JText(p.updatedAt)]
  }

  function Document(
      version: int, generatedAt: string, p: Profile, data: map<string, Json>, media: seq<Json>)
    : map<string, Json>
  {
    map["format" := JText("planit-portable-backup"), "schema_version" := JInt(version),
        "generated_at" := JText(generatedAt),
        "profile" := JObject(JsonProfile(p)), "data" := JObject(data["media_assets" := JList(media)])]
  }

  function Written(generatedAt: string, p: Profile, rows: map<string, seq<Row>>, media: seq<Json>): map<string, Json>
    requires WritableTables(rows)
  {
    Document(2, generatedAt, p, JsonTables(rows), media)
  }

  method WriteRows(rows: seq<Row>) returns (list: seq<Json>)
    requires WritableRows(rows)
    ensures list == JsonRows(rows)
  {
    list := [];
    for j := 0 to |rows|
      invariant list == JsonRows(rows)[..j]
    {
      list := list + [JsonRow(rows[j])];
    }
    assert JsonRows(rows)[..|rows|] == JsonRows(rows);
  }

  /** One query a table, and the rows of each one by one. */
  method WriteTables(rows: map<string, seq<Row>>, names: seq<string>) returns (data: map<string, Json>)
    requires WritableTables(rows) && rows.Keys == TableSet(names)
    ensures data == JsonTables(rows)
  {
    data := map[];
    for i := 0 to |names|
      invariant data.Keys == TableSet(names[..i])
      invariant forall name :: name in data ==> name in rows && data[name] == JList(JsonRows(rows[name]))
    {
      var name := names[i];
      assert name in rows.Keys;
      var list := WriteRows(rows[name]);
      data := data[name := JList(list)];
    }
    assert names[..|names|] == names;
  }

  method PortableBackup(
      generatedAt: string, p: Profile, rows: map<string, seq<Row>>, media: seq<Json>)
    returns (document: map<string, Json>)
    requires WritableTables(rows) && rows.Keys == TableSet(TABLES)
    ensures document == Written(generatedAt, p, rows, media)
  {
    var data := WriteTables(rows, TABLES);
    document := Document(2, generatedAt, p, data, media);
  }

  // ---- Reading ----

  /** How texts are read, and the day of a moment in a time zone; no result where the text or the zone is not
      understood. */
  datatype Readers = Readers(
    uuid: string -> Option<nat>,
    moment: string -> Option<Moment>,
    day: string -> Option<Date>,
    number: string -> Option<Number>,
    localDay: (Moment, string) -> Option<int>)

  /** `str(value)`, as far as a reader can understand the outcome. */
  function Str(j: Json): string {
    match j
    case JText(text) => text
    case JInt(number) => NumberText(Number(number, 0))
    case _ => ""
  }

  function Readable<T>(o: Option<T>): Result<T> {
    match o
    case Some(value) => Ok(value)
    case None => Err(BackupInvalid)
  }

  function RestoreValue(r: Readers, column: ColumnType, j: Json): Result<Option<Value>> {
    if j == JNull then Ok(None) else
    match column
    case UuidColumn => var id :- Readable(r.uuid(Str(j))); Ok(Some(UuidValue(id)))
    case MomentColumn => var moment :- Readable(r.moment(Str(j))); Ok(Some(MomentValue(moment)))
    case DayColumn => var day :- Readable(r.day(Str(j))); Ok(Some(DayValue(day)))
    case NumberColumn => var decimal :- Readable(r.number(Str(j))); Ok(Some(NumberValue(decimal)))
    case FlagColumn => if j.JBool? then Ok(Some(FlagValue(j.flag))) else Err(BackupInvalid)
    case WholeColumn => if j.JInt? then Ok(Some(WholeValue(j.number))) else Err(BackupInvalid)
    case TextColumn => if j.JText? then Ok(Some(TextValue(j.text))) else Err(BackupInvalid)
  }

  const LATER_ITEM_COLUMNS: set<string> := {"package_size_value_snapshot", "package_size_unit_snapshot"}

  function LegacyAnchorDay(r: Readers, fields: map<string, Json>): Result<int> {
    var _ :- Need("next_due_at" in fields && "timezone" in fields, BackupInvalid);
    var due :- Readable(r.moment(Str(fields["next_due_at"])));
    Readable(r.localDay(due, Str(fields["timezone"])))
  }

  /** Fills the columns that were introduced after version 1. */
  function UpgradeRow(
      r: Readers, name: string, columns: Columns, fields: map<string, Json>)
    : Result<map<string, Json>>
  {
    if fields.Keys == columns.Keys then Ok(fields)
    else if name == "recurring_rules" && fields.Keys == columns.Keys - {"anchor_day"} then
      var day :- LegacyAnchorDay(r, fields);
      Ok(fields["anchor_day" := JInt(day)])
    else if name == "transaction_items" && fields.Keys == columns.Keys - LATER_ITEM_COLUMNS then
      Ok(fields["package_size_value_snapshot" := JNull]["package_size_unit_snapshot" := JNull])
    else Ok(fields)
  }

  function RestoreFields(r: Readers, columns: Columns, fields: map<string, Json>): Result<Row>
    requires fields.Keys == columns.Keys
  {
    if forall key :: key in columns ==> RestoreValue(r, columns[key], fields[key]).Ok?
    then Ok(map key | key in columns :: RestoreValue(r, columns[key], fields[key]).value)
    else Err(BackupInvalid)
  }

  function RestoreRow(r: Readers, version: int, name: string, columns: Columns, owner: nat, raw: Json): Result<Row> {
    var _ :- Need(raw.JObject?, BackupFormatUnsupported);
    var fields :- if version == 1 then UpgradeRow(r, name, columns, raw.fields) else Ok(raw.fields);
    var _ :- Need(fields.Keys == columns.Keys, BackupFormatUnsupported);
    var _ :- Need("user_id" in fields && fields["user_id"] == JText(UuidText(owner)), BackupInvalid);
    RestoreFields(r, columns, fields)
  }

  type RowReader = Json -> Result<Row>

  function ReaderOf(r: Readers, version: int, name: string, columns: Columns, owner: nat): RowReader {
    (raw: Json) => RestoreRow(r, version, name, columns, owner, raw)
  }

  function RestoreRows(read: RowReader, raws: seq<Json>, done: seq<Row>): Result<seq<Row>>
    decreases |raws|
  {
    if |raws| == 0 then Ok(done) else
    var row :- read(raws[0]);
    RestoreRows(read, raws[1..], done + [row])
  }

  datatype Prepared = Prepared(rows: map<string, seq<Row>>, total: nat)

  function RestoreTable(
      r: Readers, schema: Schema, version: int, owner: nat, data: map<string, Json>, name: string, done: Prepared)
    : Result<Prepared>
  {
    var _ :- Need(name in data && data[name].JList? && name in schema, BackupInvalid);
    var total := done.total + |data[name].items|;
    var _ :- Need(total <= MAX_ROWS, BackupTooLarge);
    var rows :- RestoreRows(ReaderOf(r, version, name, schema[name], owner), data[name].items, []);
    Ok(Prepared(done.rows[name := rows], total))
  }

  type TableReader = (string, Prepared) -> Result<Prepared>

  function TableReaderOf(r: Readers, schema: Schema, version: int, owner: nat, data: map<string, Json>): TableReader {
    (name: string, done: Prepared) => RestoreTable(r, schema, version, owner, data, name, done)
  }

  function RestoreTables(read: TableReader, names: seq<string>, done: Prepared): Result<Prepared>
    decreases |names|
  {
    if |names| == 0 then Ok(done) else
    var next :- read(names[0], done);
    RestoreTables(read, names[1..], next)
  }

  datatype Restored = Restored(rows: map<string, seq<Row>>, profile: map<string, Json>, media: nat, version: int)

  function Field(fields: map<string, Json>, key: string): Json { if key in fields then fields[key] else JNull }

  /** The checks before any row is looked at: format, profile, owner, sections. */
  function CheckDocument(
      r: Readers, document: map<string, Json>)
    : Result<(int, nat, map<string, Json>, map<string, Json>)>
  {
    var version := Field(document, "schema_version");
    var profile, data := Field(document, "profile"), Field(document, "data");
    var _ :- Need(Field(document, "format") == JText("planit-portable-backup")
                  && (version == JInt(1) || version == JInt(2)),
                  BackupFormatUnsupported);
    var _ :- Need(profile.JObject? && data.JObject?, BackupInvalid);
    var _ :- Need({"id", "display_name", "base_currency", "timezone"} <= profile.fields.Keys, BackupInvalid);
    var owner :- Readable(r.uuid(Str(Field(profile.fields, "id"))));
    var _ :- Need(data.fields.Keys == TableSet(TABLES) + {"media_assets"}, BackupFormatUnsupported);
    Ok((version.number, owner, profile.fields, data.fields))
  }

  function CheckMedia(data: map<string, Json>, total: nat): Result<nat> {
    var media := Field(data, "media_assets");
    var _ :- Need(media.JList?, BackupInvalid);
    var _ :- Need(total + |media.items| <= MAX_ROWS, BackupTooLarge);
    Ok(|media.items|)
  }

  function Validate(r: Readers, schema: Schema, document: map<string, Json>): Result<Restored> {
    var (version, owner, profile, data) :- CheckDocument(r, document);
    Prepare(TableReaderOf(r, schema, version, owner, data), TABLES, profile, data, version)
  }

  function Prepare(
      read: TableReader, names: seq<string>, profile: map<string, Json>, data: map<string, Json>, version: int)
    : Result<Restored>
  {
    var prepared :- RestoreTables(read, names, Prepared(map[], 0));
    var media :- CheckMedia(data, prepared.total);
    Ok(Restored(prepared.rows, profile, media, version))
  }

  method RestoreSection(read: RowReader, raws: seq<Json>) returns (result: Result<seq<Row>>)
    ensures result == RestoreRows(read, raws, [])
  {
    var rows: seq<Row> := [];
    assert raws[0..] == raws;
    for i := 0 to |raws|
      invariant RestoreRows(read, raws[i..], rows) == RestoreRows(read, raws, [])
    {
      assert raws[i..][1..] == raws[i + 1..];
      var row := read(raws[i]);
      if row.Err? {
        return Err(row.error);
      }
      rows := rows + [row.value];
    }
    result := Ok(rows);
  }

  /** The validation as it runs: table by table, row by row, with a running count. */
  method ValidatePortableBackup(
      r: Readers, schema: Schema, document: map<string, Json>)
    returns (result: Result<Restored>)
    ensures result == Validate(r, schema, document)
  {
    var check := CheckDocument(r, document);
    if check.Err? {
      return Err(check.error);
    }
    var (version, owner, profile, data) := check.value;
    var tables := PrepareTables(r, schema, version, owner, data, TABLES);
    if tables.Err? {
      return Err(tables.error);
    }
    var media := CheckMedia(data, tables.value.total);
    if media.Err? {
      return Err(media.error);
    }
    result := Ok(Restored(tables.value.rows, profile, media.value, version));
  }

  method PrepareTables(
      r: Readers, schema: Schema, version: int, owner: nat, data: map<string, Json>, names: seq<string>)
    returns (result: Result<Prepared>)
    ensures result == RestoreTables(TableReaderOf(r, schema, version, owner, data), names, Prepared(map[], 0))
  {
    var read := TableReaderOf(r, schema, version, owner, data);
    var prepared := Prepared(map[], 0);
    assert names[0..] == names;
    for i := 0 to |names|
      invariant RestoreTables(read, names[i..], prepared) == RestoreTables(read, names, Prepared(map[], 0))
    {
      assert names[i..][1..] == names[i + 1..];
      var next := PrepareTable(r, schema, version, owner, data, names[i], prepared);
      if next.Err? {
        return Err(next.error);
      }
      prepared := next.value;
    }
    result := Ok(prepared);
  }

  method PrepareTable(
      r: Readers, schema: Schema, version: int, owner: nat, data: map<string, Json>, name: string, done: Prepared)
    returns (result: Result<Prepared>)
    ensures result == RestoreTable(r, schema, version, owner, data, name, done)
  {
    if name !in data || !data[name].JList? || name !in schema {
      return Err(BackupInvalid);
    }
    var total := done.total + |data[name].items|;
    if total > MAX_ROWS {
      return Err(BackupTooLarge);
    }
    var rows := RestoreSection(ReaderOf(r, version, name, schema[name], owner), data[name].items);
    if rows.Err? {
      return Err(rows.error);
    }
    result := Ok(Prepared(done.rows[name := rows.value], total));
  }

  // ---- Round trip ----

  /** The readers understand whatever the writer writes. */
  ghost predicate ReadsBack(r: Readers) {
    && (forall id: nat :: id < UUIDS ==> r.uuid(UuidText(id)) == Some(id))
    && (forall m :: ValidMoment(m) ==> r.moment(MomentText(m)) == Some(m))
    && (forall d :: ValidDate(d) && d.year <= 9999 ==> r.day(DateText(d)) == Some(d))
    && (forall x :: r.number(NumberText(x)) == Some(x))
  }

  /** The readers of the canonical texts satisfy that. */
  lemma CanonicalReadersReadBack(localDay: (Moment, string) -> Option<int>)
    ensures ReadsBack(Readers(s => ReadUuid(s), s => ReadMoment(s), s => ReadDate(s), s => ReadNumber(s), localDay))
  {
    forall id: nat | id < UUIDS ensures ReadUuid(UuidText(id)) == Some(id) { UuidReadsBack(id); }
    forall m | ValidMoment(m) ensures ReadMoment(MomentText(m)) == Some(m) { MomentReadsBack(m); }
    forall d | ValidDate(d) && d.year <= 9999 ensures ReadDate(DateText(d)) == Some(d) { DateReadsBack(d); }
    forall x ensures ReadNumber(NumberText(x)) == Some(x) { NumberReadsBack(x); }
  }

  predicate HasType(value: Value, column: ColumnType) {
    match column
    case UuidColumn => value.UuidValue?
    case MomentColumn => value.MomentValue?
    case DayColumn => value.DayValue?
    case NumberColumn => value.NumberValue?
    case FlagColumn => value.FlagValue?
    case WholeColumn => value.WholeValue?
    case TextColumn => value.TextValue?
  }

  /** A typed row of the owner: every column, each with a value of its type or none. */
  predicate RowFits(columns: Columns, owner: nat, row: Row) {
    && row.Keys == columns.Keys
    && (forall key :: key in row && row[key].Some? ==>
         HasType(row[key].value, columns[key]) && Writable(row[key].value))
    && "user_id" in row && row["user_id"] == Some(UuidValue(owner))
  }

  predicate TablesFit(schema: Schema, owner: nat, rows: map<string, seq<Row>>) {
    && rows.Keys == TableSet(TABLES)
    && (forall name :: name in rows ==> name in schema)
    && (forall name, i :: name in rows && 0 <= i < |rows[name]| ==> RowFits(schema[name], owner, rows[name][i]))
  }

  lemma FittingIsWritable(schema: Schema, owner: nat, rows: map<string, seq<Row>>)
    requires TablesFit(schema, owner, rows)
    ensures WritableTables(rows)
  {
  }

  /** No two columns types write a value so that another reader of the same column could mistake it. */
  lemma ValueRoundTrip(r: Readers, column: ColumnType, value: Option<Value>)
    requires ReadsBack(r) && (value.Some? ==> HasType(value.value, column) && Writable(value.value))
    ensures RestoreValue(r, column, JsonValue(value)) == Ok(value)
  {
  }

  lemma FieldsRoundTrip(r: Readers, columns: Columns, owner: nat, row: Row)
    requires ReadsBack(r) && RowFits(columns, owner, row)
    ensures RestoreFields(r, columns, JsonRow(row).fields) == Ok(row)
  {
    var fields := JsonRow(row).fields;
    forall key | key in columns ensures RestoreValue(r, columns[key], fields[key]) == Ok(row[key]) {
      ValueRoundTrip(r, columns[key], row[key]);
    }
    assert (map key | key in columns :: RestoreValue(r, columns[key], fields[key]).value) == row;
  }

  lemma RowRoundTrip(r: Readers, version: int, name: string, columns: Columns, owner: nat, row: Row)
    requires ReadsBack(r) && RowFits(columns, owner, row)
    ensures RestoreRow(r, version, name, columns, owner, JsonRow(row)) == Ok(row)
  {
    FieldsRoundTrip(r, columns, owner, row);
  }

  /** A section is restored when each of its raw rows is. */
  lemma {:induction false} RowsRestore(read: RowReader, raws: seq<Json>, rows: seq<Row>, done: seq<Row>)
    requires |raws| == |rows| && forall i :: 0 <= i < |rows| ==> read(raws[i]) == Ok(rows[i])
    ensures RestoreRows(read, raws, done) == Ok(done + rows)
    decreases |raws|
  {
    if |raws| > 0 {
      RowsRestore(read, raws[1..], rows[1..], done + [rows[0]]);
      assert done + [rows[0]] + rows[1..] == done + rows;
    } else {
      assert done + rows == done;
    }
  }

  function CountRows(rows: map<string, seq<Row>>, names: seq<string>): nat {
    if |names| == 0 then 0 else (if names[0] in rows then |rows[names[0]]| else 0) + CountRows(rows, names[1..])
  }

  /** The section of a table holds as many raw rows as the table has, and each is restored. */
  ghost predicate SectionRestores(
      r: Readers, schema: Schema, version: int, owner: nat, data: map<string, Json>, name: string, rows: seq<Row>)
  {
    && name in data && data[name].JList? && name in schema && |data[name].items| == |rows|
    && forall i :: 0 <= i < |rows| ==>
         ReaderOf(r, version, name, schema[name], owner)(data[name].items[i]) == Ok(rows[i])
  }

  lemma SectionIsPrepared(
      r: Readers, schema: Schema, version: int, owner: nat, data: map<string, Json>, name: string, rows: seq<Row>,
      done: Prepared)
    requires SectionRestores(r, schema, version, owner, data, name, rows)
    ensures RestoreTable(r, schema, version, owner, data, name, done) ==
      if done.total + |rows| > MAX_ROWS then Err(BackupTooLarge)
      else Ok(Prepared(done.rows[name := rows], done.total + |rows|))
  {
    RowsRestore(ReaderOf(r, version, name, schema[name], owner), data[name].items, rows, []);
    assert [] + rows == rows;
  }

  function Joined(done: map<string, seq<Row>>, rows: map<string, seq<Row>>, names: seq<string>): map<string, seq<Row>>
    decreases |names|
  {
    if |names| == 0 then done else
    Joined(if names[0] in rows then done[names[0] := rows[names[0]]] else done, rows, names[1..])
  }

  /** A reader that takes over the rows of each table, up to the limit. */
  ghost predicate TakesOver(read: TableReader, rows: map<string, seq<Row>>, names: seq<string>) {
    forall name, done :: name in names ==>
      name in rows &&
      read(name, done) == if done.total + |rows[name]| <= MAX_ROWS
                          then Ok(Prepared(done.rows[name := rows[name]], done.total + |rows[name]|))
                          else Err(BackupTooLarge)
  }

  lemma {:induction false} TablesRestore(
      read: TableReader, rows: map<string, seq<Row>>, names: seq<string>, done: Prepared)
    requires TakesOver(read, rows, names) && done.total <= MAX_ROWS
    ensures RestoreTables(read, names, done) ==
      var total := done.total + CountRows(rows, names);
      if total <= MAX_ROWS then Ok(Prepared(Joined(done.rows, rows, names), total)) else Err(BackupTooLarge)
    decreases |names|
  {
    if |names| > 0 {
      var name := names[0];
      var total := done.total + |rows[name]|;
      assert name in names && forall x :: x in names[1..] ==> x in names;
      if total <= MAX_ROWS {
        TablesRestore(read, rows, names[1..], Prepared(done.rows[name := rows[name]], total));
      }
    }
  }

  lemma {:induction false} JoinedIs(done: map<string, seq<Row>>, rows: map<string, seq<Row>>, names: seq<string>)
    requires forall name :: name in names ==> name in rows
    ensures Joined(done, rows, names).Keys == done.Keys + TableSet(names)
    ensures forall name :: name in names ==> Joined(done, rows, names)[name] == rows[name]
    ensures forall name :: name in done && name !in names ==> Joined(done, rows, names)[name] == done[name]
    decreases |names|
  {
    if |names| > 0 {
      assert names == [names[0]] + names[1..];
      JoinedIs(done[names[0] := rows[names[0]]], rows, names[1..]);
    }
  }

  function Sections(data: map<string, Json>, media: seq<Json>): map<string, Json> {
    data["media_assets" := JList(media)]
  }

  lemma DocumentIsChecked(
      r: Readers, version: int, generatedAt: string, p: Profile, data: map<string, Json>, media: seq<Json>)
    requires ReadsBack(r) && p.id < UUIDS && (version == 1 || version == 2) && data.Keys == TableSet(TABLES)
    ensures CheckDocument(r, Document(version, generatedAt, p, data, media))
         == Ok((version, p.id, JsonProfile(p), Sections(data, media)))
  {
    var document := Document(version, generatedAt, p, data, media);
    assert Field(document, "format") == JText("planit-portable-backup");
    assert Field(document, "schema_version") == JInt(version);
    assert Field(document, "profile") == JObject(JsonProfile(p));
    assert Field(document, "data") == JObject(Sections(data, media));
    assert Str(Field(JsonProfile(p), "id")) == UuidText(p.id);
  }

  lemma SectionsTakeOver(
      r: Readers, schema: Schema, version: int, owner: nat, data: map<string, Json>, media: seq<Json>,
      rows: map<string, seq<Row>>, names: seq<string>)
    requires rows.Keys == TableSet(names) && "media_assets" !in names
    requires forall name :: name in names ==>
      name in rows && SectionRestores(r, schema, version, owner, data, name, rows[name])
    ensures TakesOver(TableReaderOf(r, schema, version, owner, Sections(data, media)), rows, names)
  {
    var sections := Sections(data, media);
    forall name, done | name in names
      ensures name in rows && TableReaderOf(r, schema, version, owner, sections)(name, done) ==
        if done.total + |rows[name]| <= MAX_ROWS
        then Ok(Prepared(done.rows[name := rows[name]], done.total + |rows[name]|))
                          else Err(BackupTooLarge)
    {
      assert SectionRestores(r, schema, version, owner, data, name, rows[name]);
      SectionIsPrepared(r, schema, version, owner, sections, name, rows[name], done);
    }
  }

  /** What validation makes of a document whose sections all restore. */
  lemma DocumentRestores(
      r: Readers, schema: Schema, version: int, generatedAt: string, p: Profile, data: map<string, Json>,
      media: seq<Json>, rows: map<string, seq<Row>>)
    requires ReadsBack(r) && p.id < UUIDS && (version == 1 || version == 2)
    requires rows.Keys == TableSet(TABLES) && data.Keys == TableSet(TABLES)
    requires forall name :: name in TABLES ==>
      name in rows && SectionRestores(r, schema, version, p.id, data, name, rows[name])
    ensures Validate(r, schema, Document(version, generatedAt, p, data, media)) ==
      if CountRows(rows, TABLES) + |media| <= MAX_ROWS then Ok(Restored(rows, JsonProfile(p), |media|, version))
      else Err(BackupTooLarge)
  {
    DocumentIsChecked(r, version, generatedAt, p, data, media);
    MediaIsNoTable();
    SectionsTakeOver(r, schema, version, p.id, data, media, rows, TABLES);
    var read := TableReaderOf(r, schema, version, p.id, Sections(data, media));
    SectionsRestore(read, TABLES, JsonProfile(p), data, media, version, rows);
  }

  lemma SectionsRestore(
      read: TableReader, names: seq<string>, profile: map<string, Json>, data: map<string, Json>, media: seq<Json>,
      version: int, rows: map<string, seq<Row>>)
    requires TakesOver(read, rows, names) && rows.Keys == TableSet(names)
    ensures Prepare(read, names, profile, Sections(data, media), version) ==
      if CountRows(rows, names) + |media| > MAX_ROWS then Err(BackupTooLarge)
      else Ok(Restored(rows, profile, |media|, version))
  {
    TablesRestore(read, rows, names, Prepared(map[], 0));
    AllJoined(rows, names);
  }

  lemma AllJoined(rows: map<string, seq<Row>>, names: seq<string>)
    requires rows.Keys == TableSet(names)
    ensures Joined(map[], rows, names) == rows
  {
    forall name | name in names ensures name in rows {
      assert name in TableSet(names);
    }
    JoinedIs(map[], rows, names);
  }

  lemma MediaIsNoTable()
    ensures "media_assets" !in TABLES
  {
  }

  /** What was written is read back with the same typed rows exactly when it stays within the limit on rows; the writer
      does not look at that limit, so a larger backup is written but can never be restored. */
  lemma BackupRoundTrip(
      r: Readers, schema: Schema, generatedAt: string, p: Profile, rows: map<string, seq<Row>>, media: seq<Json>)
    requires ReadsBack(r) && p.id < UUIDS && TablesFit(schema, p.id, rows)
    ensures WritableTables(rows)
    ensures Validate(r, schema, Written(generatedAt, p, rows, media)) ==
      if CountRows(rows, TABLES) + |media| <= MAX_ROWS then Ok(Restored(rows, JsonProfile(p), |media|, 2))
      else Err(BackupTooLarge)
  {
    FittingIsWritable(schema, p.id, rows);
    var data := JsonTables(rows);
    forall name | name in TABLES ensures SectionRestores(r, schema, 2, p.id, data, name, rows[name]) {
      assert name in rows.Keys;
      forall i | 0 <= i < |rows[name]|
        ensures ReaderOf(r, 2, name, schema[name], p.id)(data[name].items[i]) == Ok(rows[name][i])
      {
        RowRoundTrip(r, 2, name, schema[name], p.id, rows[name][i]);
      }
    }
    DocumentRestores(r, schema, 2, generatedAt, p, data, media, rows);
  }

  // ---- Version 1 ----

  function LaterColumns(name: string): set<string> {
    if name == "recurring_rules" then {"anchor_day"} else if name == "transaction_items" then LATER_ITEM_COLUMNS else {}
  }

  /** The columns that version 1 lacked exist, and the dates that the default is taken from. */
  predicate HasLaterColumns(schema: Schema) {
    && "recurring_rules" in schema && "transaction_items" in schema
    && (forall name :: name in schema ==> LaterColumns(name) <= schema[name].Keys)
    && var rules := schema["recurring_rules"];
    && rules["anchor_day"] == WholeColumn
    && "next_due_at" in rules && rules["next_due_at"] == MomentColumn
    && "timezone" in rules && rules["timezone"] == TextColumn
  }

  function OldRow(name: string, row: Row): Json
    requires WritableRow(row)
  {
    JObject(JsonRow(row).fields - LaterColumns(name))
  }

  function OldTables(rows: map<string, seq<Row>>): map<string, Json>
    requires WritableTables(rows)
  {
    map name | name in rows :: JList(seq(|rows[name]|, i requires 0 <= i < |rows[name]| => OldRow(name, rows[name][i])))
  }

  /** The due date and zone of a rule are there, and the zone is known. */
  predicate HasAnchor(r: Readers, row: Row) {
    && "next_due_at" in row && row["next_due_at"].Some? && row["next_due_at"].value.MomentValue?
    && "timezone" in row && row["timezone"].Some? && row["timezone"].value.TextValue?
    && r.localDay(row["next_due_at"].value.moment, row["timezone"].value.text).Some?
  }

  /** The defaults: the day of the due date in the rule's zone, and no package size. */
  function WithDefaults(r: Readers, name: string, row: Row): Row
    requires name == "recurring_rules" ==> HasAnchor(r, row)
  {
    if name == "recurring_rules" then
      var day := r.localDay(row["next_due_at"].value.moment, row["timezone"].value.text).value;
      row["anchor_day" := Some(WholeValue(day))]
    else if name == "transaction_items" then
      row["package_size_value_snapshot" := None]["package_size_unit_snapshot" := None]
    else row
  }

  lemma OldFieldsUpgrade(r: Readers, schema: Schema, owner: nat, name: string, row: Row)
    requires ReadsBack(r) && HasLaterColumns(schema) && name in schema && RowFits(schema[name], owner, row)
    requires name == "recurring_rules" ==> HasAnchor(r, row)
    ensures WritableRow(row) && RowFits(schema[name], owner, WithDefaults(r, name, row))
    ensures UpgradeRow(r, name, schema[name], OldRow(name, row).fields)
         == Ok(JsonRow(WithDefaults(r, name, row)).fields)
  {
    if name == "recurring_rules" {
      OldRuleUpgrades(r, schema, owner, row);
    } else if name == "transaction_items" {
      OldItemUpgrades(r, schema, owner, row);
    } else {
      assert OldRow(name, row).fields == JsonRow(row).fields;
    }
  }

  /** The fields of a row without its later columns. */
  lemma OldFields(columns: Columns, owner: nat, name: string, row: Row)
    requires RowFits(columns, owner, row)
    ensures OldRow(name, row).fields.Keys == columns.Keys - LaterColumns(name)
    ensures forall key :: key in columns && key !in LaterColumns(name) ==>
      key in OldRow(name, row).fields && OldRow(name, row).fields[key] == JsonValue(row[key])
  {
  }

  lemma OldRuleUpgrades(r: Readers, schema: Schema, owner: nat, row: Row)
    requires ReadsBack(r) && HasLaterColumns(schema) && RowFits(schema["recurring_rules"], owner, row)
    requires HasAnchor(r, row)
    ensures RowFits(schema["recurring_rules"], owner, WithDefaults(r, "recurring_rules", row))
    ensures UpgradeRow(r, "recurring_rules", schema["recurring_rules"], OldRow("recurring_rules", row).fields)
         == Ok(JsonRow(WithDefaults(r, "recurring_rules", row)).fields)
  {
    var columns, fields := schema["recurring_rules"], OldRow("recurring_rules", row).fields;
    OldFields(columns, owner, "recurring_rules", row);
    assert LaterColumns("recurring_rules") <= columns.Keys && "anchor_day" in columns;
    AnchorIsRead(r, columns, owner, row, fields);
    DefaultedRule(r, row, fields);
    DefaultedRuleFits(r, schema, owner, row);
  }

  lemma DefaultedRuleFits(r: Readers, schema: Schema, owner: nat, row: Row)
    requires HasLaterColumns(schema) && RowFits(schema["recurring_rules"], owner, row) && HasAnchor(r, row)
    ensures RowFits(schema["recurring_rules"], owner, WithDefaults(r, "recurring_rules", row))
  {
  }

  lemma AnchorIsRead(r: Readers, columns: Columns, owner: nat, row: Row, fields: map<string, Json>)
    requires ReadsBack(r) && RowFits(columns, owner, row) && HasAnchor(r, row)
    requires "next_due_at" in fields && fields["next_due_at"] == JsonValue(row["next_due_at"])
    requires "timezone" in fields && fields["timezone"] == JsonValue(row["timezone"])
    ensures LegacyAnchorDay(r, fields)
         == Ok(r.localDay(row["next_due_at"].value.moment, row["timezone"].value.text).value)
  {
  }

  lemma DefaultedRule(r: Readers, row: Row, fields: map<string, Json>)
    requires WritableRow(row) && HasAnchor(r, row)
    requires fields == JsonRow(row).fields - {"anchor_day"} && "anchor_day" in row
    ensures var day := r.localDay(row["next_due_at"].value.moment, row["timezone"].value.text).value;
      WritableRow(WithDefaults(r, "recurring_rules", row)) &&
      fields["anchor_day" := JInt(day)] == JsonRow(WithDefaults(r, "recurring_rules", row)).fields
  {
  }

  lemma DefaultedItem(r: Readers, row: Row, fields: map<string, Json>)
    requires WritableRow(row) && fields == JsonRow(row).fields - LATER_ITEM_COLUMNS
    ensures WritableRow(WithDefaults(r, "transaction_items", row))
    ensures fields["package_size_value_snapshot" := JNull]["package_size_unit_snapshot" := JNull]
         == JsonRow(WithDefaults(r, "transaction_items", row)).fields
  {
  }

  lemma OldItemUpgrades(r: Readers, schema: Schema, owner: nat, row: Row)
    requires HasLaterColumns(schema) && RowFits(schema["transaction_items"], owner, row)
    ensures RowFits(schema["transaction_items"], owner, WithDefaults(r, "transaction_items", row))
    ensures UpgradeRow(r, "transaction_items", schema["transaction_items"], OldRow("transaction_items", row).fields)
         == Ok(JsonRow(WithDefaults(r, "transaction_items", row)).fields)
  {
    var columns, fields := schema["transaction_items"], OldRow("transaction_items", row).fields;
    OldFields(columns, owner, "transaction_items", row);
    assert LaterColumns("transaction_items") <= columns.Keys && "package_size_value_snapshot" in columns;
    DefaultedItem(r, row, fields);
  }

  lemma OldRowRestores(r: Readers, schema: Schema, owner: nat, name: string, row: Row)
    requires ReadsBack(r) && HasLaterColumns(schema) && name in schema && RowFits(schema[name], owner, row)
    requires name == "recurring_rules" ==> HasAnchor(r, row)
    ensures WritableRow(row)
    ensures RestoreRow(r, 1, name, schema[name], owner, OldRow(name, row)) == Ok(WithDefaults(r, name, row))
  {
    OldFieldsUpgrade(r, schema, owner, name, row);
    FieldsRoundTrip(r, schema[name], owner, WithDefaults(r, name, row));
  }

  predicate Anchored(r: Readers, rows: map<string, seq<Row>>) {
    && "recurring_rules" in rows
    && forall i :: 0 <= i < |rows["recurring_rules"]| ==> HasAnchor(r, rows["recurring_rules"][i])
  }

  function TableWithDefaults(r: Readers, name: string, rows: seq<Row>): seq<Row>
    requires name == "recurring_rules" ==> forall i :: 0 <= i < |rows| ==> HasAnchor(r, rows[i])
  {
    seq(|rows|, i requires 0 <= i < |rows| => WithDefaults(r, name, rows[i]))
  }

  function TablesWithDefaults(r: Readers, rows: map<string, seq<Row>>): map<string, seq<Row>>
    requires Anchored(r, rows)
  {
    map name | name in rows :: TableWithDefaults(r, name, rows[name])
  }

  lemma {:induction false} SameCount(a: map<string, seq<Row>>, b: map<string, seq<Row>>, names: seq<string>)
    requires a.Keys == b.Keys && forall name :: name in a ==> |a[name]| == |b[name]|
    ensures CountRows(a, names) == CountRows(b, names)
    decreases |names|
  {
    if |names| > 0 {
      SameCount(a, b, names[1..]);
    }
  }

  /** A version 1 document, the same rows without the later columns, is read with the defined defaults in their
      place. */
  lemma OldBackupGetsDefaults(
      r: Readers, schema: Schema, generatedAt: string, p: Profile, rows: map<string, seq<Row>>, media: seq<Json>)
    requires ReadsBack(r) && p.id < UUIDS && TablesFit(schema, p.id, rows) && HasLaterColumns(schema)
    requires Anchored(r, rows)
    ensures WritableTables(rows)
    ensures Validate(r, schema, Document(1, generatedAt, p, OldTables(rows), media)) ==
      if CountRows(rows, TABLES) + |media| <= MAX_ROWS
      then Ok(Restored(TablesWithDefaults(r, rows), JsonProfile(p), |media|, 1))
      else Err(BackupTooLarge)
  {
    FittingIsWritable(schema, p.id, rows);
    var data, full := OldTables(rows), TablesWithDefaults(r, rows);
    forall name | name in TABLES ensures SectionRestores(r, schema, 1, p.id, data, name, full[name]) {
      assert name in rows.Keys;
      forall i | 0 <= i < |rows[name]|
        ensures ReaderOf(r, 1, name, schema[name], p.id)(data[name].items[i]) == Ok(full[name][i])
      {
        OldRowRestores(r, schema, p.id, name, rows[name][i]);
      }
    }
    SameCount(rows, full, TABLES);
    DocumentRestores(r, schema, 1, generatedAt, p, data, media, full);
  }

  // ---- The rest of the document ----

  function TextOf(fields: map<string, Json>, key: string): Option<string> {
    match Field(fields, key)
    case JText(text) => Some(text)
    case _ => None
  }

  /** The profile read by the names of its fields. */
  function ReadProfile(r: Readers, fields: map<string, Json>): Option<Profile> {
    match TextOf(fields, "id")
    case None => None
    case Some(id) =>
      var (owner, email, name) := (r.uuid(id), TextOf(fields, "email"), TextOf(fields, "display_name"));
      var (currency, zone) := (TextOf(fields, "base_currency"), TextOf(fields, "timezone"));
      var (created, updated) := (TextOf(fields, "created_at"), TextOf(fields, "updated_at"));
      if owner.Some? && email.Some? && name.Some? && currency.Some? && zone.Some? && created.Some? && updated.Some?
      then Some(Profile(owner.value, email.value, name.value, currency.value, zone.value, created.value, updated.value))
      else None
  }

  lemma ProfileFields(p: Profile)
    ensures var fields := JsonProfile(p);
      && TextOf(fields, "id") == Some(UuidText(p.id))
      && TextOf(fields, "email") == Some(p.email) && TextOf(fields, "display_name") == Some(p.displayName)
      && TextOf(fields, "base_currency") == Some(p.baseCurrency) && TextOf(fields, "timezone") == Some(p.timezone)
      && TextOf(fields, "created_at") == Some(p.createdAt) && TextOf(fields, "updated_at") == Some(p.updatedAt)
  {
  }

  /** The profile that validation hands on is the one that was written, field by field. */
  lemma ProfileReadsBack(
      r: Readers, schema: Schema, generatedAt: string, p: Profile, rows: map<string, seq<Row>>, media: seq<Json>)
    requires ReadsBack(r) && p.id < UUIDS && TablesFit(schema, p.id, rows)
    requires CountRows(rows, TABLES) + |media| <= MAX_ROWS
    ensures WritableTables(rows)
    ensures var restored := Validate(r, schema, Written(generatedAt, p, rows, media));
      restored.Ok? && ReadProfile(r, restored.value.profile) == Some(p)
  {
    BackupRoundTrip(r, schema, generatedAt, p, rows, media);
    ProfileFields(p);
  }

  /** The document carries its label, its time and the media as they were given. */
  lemma DocumentIsLabelled(
      generatedAt: string, p: Profile, rows: map<string, seq<Row>>, media: seq<Json>)
    requires WritableTables(rows)
    ensures var document := Written(generatedAt, p, rows, media);
      && TextOf(document, "format") == Some("planit-portable-backup") && Field(document, "schema_version") == JInt(2)
      && TextOf(document, "generated_at") == Some(generatedAt)
      && Field(document, "data").JObject? && Field(Field(document, "data").fields, "media_assets") == JList(media)
  {
  }
}
