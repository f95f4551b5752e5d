/** The ledger store of app.py: adding an expense (`manage_expenses`,
    POST), updating and deleting one (`expense_operations`), the filtered
    listing (`api_expenses`) and the import and export branches of
    `import_export`. The user's CSV file is the `rows` field of `Store`. */
module Ledger {
  import opened Wrappers
  import opened Text
  import opened Records

  /** Why a request left the file as it was. */
  datatype LedgerError =
    | MissingField    // a required form field is absent or empty
    | BadAmount       // the amount is not a number
    | NotFound        // no loaded row carries the id to update
    | MissingColumns  // an uploaded table lacks a required column
    | BadDate         // an uploaded date cell makes `pd.to_datetime` raise
    | BadFilterDate   // a date bound of the listing makes `pd.to_datetime` raise

  datatype Outcome = Done | Failed(error: LedgerError)

  /** The add-expense form; `None` is a field the request does not carry. */
  datatype Form = Form(date: Option<string>, kind: Option<string>, category: Option<string>,
                       amount: Option<string>, description: Option<string>)

  /** Date, type, category and amount are all given. */
  predicate Complete(form: Form) {
    Given(form.date) && Given(form.kind) && Given(form.category) && Given(form.amount)
  }

  /** `int(row['id']) == target`; an id that `int()` rejects matches nothing. */
  predicate HasId(row: Row, target: int) {
    ParseInt(row.id) == Some(target)
  }

  // ---------------------------------------------------------------------
  // Id assignment

  /** The running maximum of the append loop: it starts at 0, skips ids
      that do not parse, and takes every larger parsed id. */
  function MaxId(rows: seq<Row>): nat {
    if rows == [] then 0
    else
      var m := MaxId(rows[..|rows| - 1]);
      match ParseInt(rows[|rows| - 1].id)
      case Some(k) => if k > m then k else m
      case None => m
  }

  /** No parsed id exceeds `MaxId`. */
  lemma {:induction false} MaxIdIsUpperBound(rows: seq<Row>)
    ensures forall r :: r in rows && ParseInt(r.id).Some? ==> ParseInt(r.id).value <= MaxId(rows)
  {
    if rows != [] {
      var init, last := rows[..|rows| - 1], rows[|rows| - 1];
      MaxIdIsUpperBound(init);
      assert rows == init + [last];
    }
  }

  /** `MaxId` is 0 or the parsed id of some row. */
  lemma {:induction false} MaxIdIsAttained(rows: seq<Row>)
    ensures MaxId(rows) == 0 || exists r :: r in rows && HasId(r, MaxId(rows))
  {
    if rows != [] {
      var init, last := rows[..|rows| - 1], rows[|rows| - 1];
      MaxIdIsAttained(init);
      if MaxId(rows) != MaxId(init) {
        assert HasId(last, MaxId(rows));
      } else if MaxId(init) != 0 {
        var w :| w in init && HasId(w, MaxId(init));
        assert w in rows;
      }
    }
  }

  /** The loop of app.py:310-319: one past the largest parseable id. */
  method NextId(rows: seq<Row>) returns (id: nat)
    ensures id == MaxId(rows) + 1
    ensures forall r :: r in rows && ParseInt(r.id).Some? ==> ParseInt(r.id).value < id
    ensures id == 1 || exists r :: r in rows && HasId(r, id - 1)
  {
    var maxId := 0;
    for i := 0 to |rows|
      invariant maxId == MaxId(rows[..i])
    {
      assert rows[..i + 1][..i] == rows[..i];
      match ParseInt(rows[i].id) {
        case Some(k) =>
          if k > maxId {
            maxId := k;
          }
        case None =>
      }
    }
    assert rows[..|rows|] == rows;
    MaxIdIsUpperBound(rows);
    MaxIdIsAttained(rows);
    id := maxId + 1;
  }

  /** The row the form adds under `id`; a missing description becomes ''. */
  function NewRow(form: Form, id: nat): Row
    requires Complete(form)
  {
    Row(DecimalText(id), form.date.value, form.kind.value, form.category.value,
        form.amount.value, form.description.GetOr(""))
  }

  /** The appended id reads back as the new maximum and no earlier row
      carries it, so successive appends hand out 1, 2, 3, ... */
  lemma NextIdIsFresh(rows: seq<Row>, row: Row)
    requires row.id == DecimalText(MaxId(rows) + 1)
    ensures HasId(row, MaxId(rows) + 1)
    ensures forall r :: r in rows ==> !HasId(r, MaxId(rows) + 1)
    ensures MaxId(rows + [row]) == MaxId(rows) + 1
  {
    ParseIntDecimal(MaxId(rows) + 1);
    MaxIdIsUpperBound(rows);
    assert (rows + [row])[..|rows|] == rows;
  }

  // ---------------------------------------------------------------------
  // Update

  /** The position of the first element that `hit` selects
      (`df[mask].index[0]`), or `None` when the selection is empty. */
  function FirstMatch<T>(s: seq<T>, hit: T -> bool): (i: Option<nat>)
    ensures i.Some? ==> i.value < |s| && hit(s[i.value])
    ensures i.Some? ==> forall k :: 0 <= k < i.value ==> !hit(s[k])
    ensures i.None? <==> forall k :: 0 <= k < |s| ==> !hit(s[k])
  {
    if s == [] then None
    else if hit(s[0]) then Some(0)
    else
      match FirstMatch(s[1..], hit)
      case Some(k) => Some(k + 1)
      case None => None
  }

  /** The loaded entry an update of `target` edits. */
  function UpdateTarget(es: seq<Entry>, target: int): Option<nat> {
    FirstMatch(es, (e: Entry) => HasId(e.row, target))
  }

  function Pick(changes: map<string, string>, column: string, current: string): string {
    if column in changes then changes[column] else current
  }

  /** `row` after the update request's fields: a key that names a column
      takes the request's value, every other cell is kept, and keys that
      are not columns are ignored. */
  function Patched(row: Row, changes: map<string, string>): (r: Row)
    ensures forall c :: c in Columns ==> Cell(r, c) == if c in changes then changes[c] else Cell(row, c)
  {
    Row(Pick(changes, "id", row.id), Pick(changes, "date", row.date),
        Pick(changes, "type", row.kind), Pick(changes, "category", row.category),
        Pick(changes, "amount", row.amount), Pick(changes, "description", row.description))
  }

  /** The loop of app.py:369-371 over the request's key/value pairs. */
  method PatchRow(row: Row, changes: map<string, string>) returns (r: Row)
    ensures r == Patched(row, changes)
  {
    r := row;
    var pending := changes.Keys;
    while pending != {}
      invariant pending <= changes.Keys
      invariant r == Patched(row, changes - pending)
      decreases pending
    {
      var key :| key in pending;
      if key in Columns {
        r := SetCell(r, key, changes[key]);
      }
      pending := pending - {key};
      forall c | c in Columns
        ensures Cell(r, c) == Cell(Patched(row, changes - pending), c)
      {
      }
      RowsEqualByCells(r, Patched(row, changes - pending));
    }
    assert changes - {} == changes;
  }

  // ---------------------------------------------------------------------
  // Delete

  /** The file after deleting `target`: the loaded rows, minus every row
      whose id is `target`. */
  function Deleted(p: Parsers, rows: seq<Row>, target: int): seq<Row> {
    Keep(RowsOf(Load(p, rows)), (r: Row) => !HasId(r, target))
  }

  /** A row survives a delete exactly when its date parses and its id is
      not the target. */
  lemma DeleteKeepsOthers(p: Parsers, rows: seq<Row>, target: int, row: Row)
    ensures row in Deleted(p, rows, target) <==> row in rows && p.date(row.date).Some? && !HasId(row, target)
  {
    WriteBackIsLenient(p, rows);
  }

  /** Deleting works row by row, so survivors keep their order. */
  lemma DeleteKeepsOrder(p: Parsers, a: seq<Row>, b: seq<Row>, target: int)
    ensures Deleted(p, a + b, target) == Deleted(p, a, target) + Deleted(p, b, target)
  {
    LoadConcat(p, a, b);
    RowsOfConcat(Load(p, a), Load(p, b));
    KeepConcat(RowsOf(Load(p, a)), RowsOf(Load(p, b)), (r: Row) => !HasId(r, target));
  }

  /** Deleting an id nobody has still rewrites the file from the loaded
      rows: nothing else is lost, but rows with bad dates are. */
  lemma DeleteAbsentId(p: Parsers, rows: seq<Row>, target: int)
    requires forall r :: r in rows ==> !HasId(r, target)
    ensures Deleted(p, rows, target) == Keep(rows, (r: Row) => p.date(r.date).Some?)
  {
    WriteBackIsLenient(p, rows);
    KeepAll(RowsOf(Load(p, rows)), (r: Row) => !HasId(r, target));
  }

  /** Deleting the same id twice is deleting it once. */
  lemma DeleteIdempotent(p: Parsers, rows: seq<Row>, target: int)
    ensures Deleted(p, Deleted(p, rows, target), target) == Deleted(p, rows, target)
  {
    var once := Deleted(p, rows, target);
    forall r | r in once
      ensures p.date(r.date).Some? && !HasId(r, target)
    {
      DeleteKeepsOthers(p, rows, target, r);
    }
    LoadKeepsParsableFile(p, once);
    KeepAll(once, (r: Row) => !HasId(r, target));
  }

  /** When every parsed id is below a positive bound, so is `MaxId`. */
  lemma {:induction false} MaxIdBelow(rows: seq<Row>, bound: int)
    requires bound > 0
    requires forall r :: r in rows && ParseInt(r.id).Some? ==> ParseInt(r.id).value < bound
    ensures MaxId(rows) < bound
  {
    if rows != [] {
      assert rows[|rows| - 1] in rows;
      var init := rows[..|rows| - 1];
      forall r | r in init && ParseInt(r.id).Some?
        ensures ParseInt(r.id).value < bound
      {
        assert r in rows;
      }
      MaxIdBelow(init, bound);
    }
  }

  /** Ids are recomputed from the surviving rows: after deleting the
      largest id, the next append hands out an id no larger than it. */
  lemma DeleteMaxLowersNextId(p: Parsers, rows: seq<Row>)
    requires MaxId(rows) > 0
    ensures MaxId(Deleted(p, rows, MaxId(rows))) < MaxId(rows)
  {
    var m := MaxId(rows);
    var after := Deleted(p, rows, m);
    forall r | r in after && ParseInt(r.id).Some?
      ensures ParseInt(r.id).value < m
    {
      DeleteKeepsOthers(p, rows, m, r);
      assert r in rows && !HasId(r, m);
      MaxIdIsUpperBound(rows);
      assert ParseInt(r.id).value <= m && ParseInt(r.id) != Some(m);
    }
    MaxIdBelow(after, m);
  }

  // ---------------------------------------------------------------------
  // Listing with filters

  /** The query string of the listing; a `None` or empty value sets no
      filter. */
  datatype Filters = Filters(start: Option<string>, end: Option<string>,
                             category: Option<string>, kind: Option<string>)

  /** A date bound of the listing: none, not-a-time (which no date is on
      either side of), or a date. */
  datatype Limit = Unbounded | NotATime | At(date: Date)

  /** `pd.to_datetime` of a filter value: the bound it sets, or `None`
      when it raises. */
  function Bound(p: Parsers, text: Option<string>): Option<Limit> {
    if !Given(text) then Some(Unbounded)
    else if MissingDate(text.value) then Some(NotATime)
    else match p.date(text.value)
      case Some(d) => Some(At(d))
      case None => None
  }

  /** Neither date bound of the query makes `pd.to_datetime` raise. */
  predicate BoundsParse(p: Parsers, f: Filters) {
    Bound(p, f.start).Some? && Bound(p, f.end).Some?
  }

  /** `df['date'] >= bound`; a comparison with not-a-time is false. */
  predicate OnOrAfter(bound: Limit, e: Entry) {
    match bound
    case Unbounded => true
    case NotATime => false
    case At(d) => DateLe(d, e.date)
  }

  /** `df['date'] <= bound`. */
  predicate OnOrBefore(bound: Limit, e: Entry) {
    match bound
    case Unbounded => true
    case NotATime => false
    case At(d) => DateLe(e.date, d)
  }

  /** `df['category'] == category`: a missing cell equals nothing. */
  predicate OfCategory(category: Option<string>, e: Entry) {
    category.Some? ==> !IsNa(e.row.category) && e.row.category == category.value
  }

  predicate OfKind(kind: Option<string>, e: Entry) {
    kind.Some? ==> !IsNa(e.row.kind) && e.row.kind == kind.value
  }

  /** The one-pass meaning of the listing: on or after the start, on or
      before the end, of the category and of the type, each where given. */
  predicate Matches(p: Parsers, f: Filters, e: Entry)
    requires BoundsParse(p, f)
  {
    (Given(f.start) ==> var lo := Bound(p, f.start).value; lo.At? && DateLe(lo.date, e.date))
    && (Given(f.end) ==> var hi := Bound(p, f.end).value; hi.At? && DateLe(e.date, hi.date))
    && (Given(f.category) ==> !IsNa(e.row.category) && e.row.category == f.category.value)
    && (Given(f.kind) ==> !IsNa(e.row.kind) && e.row.kind == f.kind.value)
  }

  /** `api_expenses`: the loaded entries through each given filter in
      turn; a date bound on which `pd.to_datetime` raises fails the
      request. */
  function Query(p: Parsers, rows: seq<Row>, f: Filters): (r: Result<seq<Entry>, LedgerError>)
    ensures r.Err? <==> !BoundsParse(p, f)
  {
    if Bound(p, f.start).None? || Bound(p, f.end).None? then Err(BadFilterDate)
    else
      var lo, hi := Bound(p, f.start).value, Bound(p, f.end).value;
      var afterStart := Narrow(Load(p, rows), Given(f.start), (e: Entry) => OnOrAfter(lo, e));
      var beforeEnd := Narrow(afterStart, Given(f.end), (e: Entry) => OnOrBefore(hi, e));
      var inCategory := Narrow(beforeEnd, Given(f.category), (e: Entry) => OfCategory(f.category, e));
      Ok(Narrow(inCategory, Given(f.kind), (e: Entry) => OfKind(f.kind, e)))
  }

  /** One optional filter step: `df = df[mask]` when the filter is given. */
  function Narrow(es: seq<Entry>, given: bool, keep: Entry -> bool): seq<Entry> {
    if given then Keep(es, keep) else es
  }

  /** A filter that may not be given is a selection with a mask that holds
      everywhere when it is not. */
  lemma NarrowIsKeep(s: seq<Entry>, given: bool, keep: Entry -> bool, mask: Entry -> bool)
    requires forall e :: mask(e) == (!given || keep(e))
    ensures Narrow(s, given, keep) == Keep(s, mask)
  {
    if given {
      KeepSameMask(s, keep, mask);
    } else {
      KeepAll(s, mask);
    }
  }

  /** Four selections in turn are one selection with all four masks. */
  lemma KeepFour(es: seq<Entry>, m1: Entry -> bool, m2: Entry -> bool, m3: Entry -> bool,
                 m4: Entry -> bool, all: Entry -> bool)
    requires forall e :: all(e) == (m1(e) && m2(e) && m3(e) && m4(e))
    ensures Keep(Keep(Keep(Keep(es, m1), m2), m3), m4) == Keep(es, all)
  {
    var m12 := (e: Entry) => m1(e) && m2(e);
    var m123 := (e: Entry) => m12(e) && m3(e);
    KeepKeep(es, m1, m2, m12);
    KeepKeep(es, m12, m3, m123);
    KeepKeep(es, m123, m4, all);
  }

  /** The four filters in turn select, in file order, exactly the loaded
      entries that match all of them. */
  lemma QueryIsOneSelection(p: Parsers, rows: seq<Row>, f: Filters)
    requires BoundsParse(p, f)
    ensures Query(p, rows, f) == Ok(Keep(Load(p, rows), (e: Entry) => Matches(p, f, e)))
  {
    var es := Load(p, rows);
    var lo, hi := Bound(p, f.start).value, Bound(p, f.end).value;
    var k1 := (e: Entry) => OnOrAfter(lo, e);
    var k2 := (e: Entry) => OnOrBefore(hi, e);
    var k3 := (e: Entry) => OfCategory(f.category, e);
    var k4 := (e: Entry) => OfKind(f.kind, e);
    var m1 := (e: Entry) => !Given(f.start) || k1(e);
    var m2 := (e: Entry) => !Given(f.end) || k2(e);
    var m3 := (e: Entry) => !Given(f.category) || k3(e);
    var m4 := (e: Entry) => !Given(f.kind) || k4(e);
    var s1 := Narrow(es, Given(f.start), k1);
    var s2 := Narrow(s1, Given(f.end), k2);
    var s3 := Narrow(s2, Given(f.category), k3);
    var s4 := Narrow(s3, Given(f.kind), k4);
    assert Query(p, rows, f) == Ok(s4);
    NarrowIsKeep(es, Given(f.start), k1, m1);
    NarrowIsKeep(s1, Given(f.end), k2, m2);
    NarrowIsKeep(s2, Given(f.category), k3, m3);
    NarrowIsKeep(s3, Given(f.kind), k4, m4);
    var all := (e: Entry) => Matches(p, f, e);
    forall e: Entry
      ensures all(e) == (m1(e) && m2(e) && m3(e) && m4(e))
    {
      MatchesIsFourFilters(p, f, e);
    }
    KeepFour(es, m1, m2, m3, m4, all);
  }

  /** The comparisons with a bound: no bound admits every entry,
      not-a-time none, and a date those on the right side of it. */
  lemma BoundMask(b: Limit, e: Entry)
    ensures OnOrAfter(b, e) == (b.Unbounded? || (b.At? && DateLe(b.date, e.date)))
    ensures OnOrBefore(b, e) == (b.Unbounded? || (b.At? && DateLe(e.date, b.date)))
  {
  }

  /** The one-pass meaning agrees with the four comparisons, each where
      its filter is given. */
  lemma MatchesIsFourFilters(p: Parsers, f: Filters, e: Entry)
    requires BoundsParse(p, f)
    ensures var lo, hi := Bound(p, f.start).value, Bound(p, f.end).value;
      Matches(p, f, e) == ((!Given(f.start) || OnOrAfter(lo, e)) && (!Given(f.end) || OnOrBefore(hi, e))
                           && (!Given(f.category) || OfCategory(f.category, e))
                           && (!Given(f.kind) || OfKind(f.kind, e)))
  {
    BoundMask(Bound(p, f.start).value, e);
    BoundMask(Bound(p, f.end).value, e);
  }

  /** A date bound that pandas reads as not-a-time lists nothing. */
  lemma QueryNotATime(p: Parsers, rows: seq<Row>, f: Filters)
    requires BoundsParse(p, f)
    requires (Given(f.start) && MissingDate(f.start.value)) || (Given(f.end) && MissingDate(f.end.value))
    ensures Query(p, rows, f) == Ok([])
  {
    QueryIsOneSelection(p, rows, f);
    KeepNone(Load(p, rows), (e: Entry) => Matches(p, f, e));
  }

  // ---------------------------------------------------------------------
  // Import and export

  /** An uploaded table: its column names and its records. A record
      without a cell for a column reads that cell as empty. */
  datatype Table = Table(columns: set<string>, records: seq<map<string, string>>)

  /** How an upload was read: `pd.read_csv` first turns the cells in
      `NaTokens` into missing values; `pd.DataFrame` of JSON records
      keeps the texts. */
  datatype Format = Csv | Json

  /** The columns an upload must carry; `id` is optional. */
  const Required: set<string> := {"date", "type", "category", "amount", "description"}

  function Field(record: map<string, string>, column: string): string {
    if column in record then record[column] else ""
  }

  /** `pd.to_datetime` does not raise on the date cell: it parses, or
      it is read as not-a-time (a missing value of a CSV upload, or a
      spelling of NaT). */
  predicate DateAccepted(p: Parsers, format: Format, text: string) {
    (format == Csv && IsNa(text)) || MissingDate(text) || p.date(text).Some?
  }

  /** Record `i` as a file row; without an `id` column the ids are
      1..N in upload order. */
  function ImportedRow(t: Table, i: nat): Row
    requires i < |t.records|
  {
    var rec := t.records[i];
    Row(if "id" in t.columns then Field(rec, "id") else DecimalText(i + 1),
        Field(rec, "date"), Field(rec, "type"), Field(rec, "category"),
        Field(rec, "amount"), Field(rec, "description"))
  }

  /** app.py:462-477 and 504-515: the upload's rows, or why it was
      refused. */
  function Imported(p: Parsers, format: Format, t: Table): (r: Result<seq<Row>, LedgerError>)
    ensures !(Required <= t.columns) ==> r == Err(MissingColumns)
    ensures r.Ok? ==> |r.value| == |t.records|
    ensures r.Ok? ==> forall i :: 0 <= i < |t.records| ==>
      r.value[i].date == Field(t.records[i], "date") && DateAccepted(p, format, r.value[i].date)
      && r.value[i].kind == Field(t.records[i], "type")
      && r.value[i].category == Field(t.records[i], "category")
      && r.value[i].amount == Field(t.records[i], "amount")
      && r.value[i].description == Field(t.records[i], "description")
    ensures r.Ok? && "id" in t.columns ==> forall i :: 0 <= i < |t.records| ==> r.value[i].id == Field(t.records[i], "id")
  {
    if !(Required <= t.columns) then Err(MissingColumns)
    else if exists i :: 0 <= i < |t.records| && !DateAccepted(p, format, Field(t.records[i], "date")) then Err(BadDate)
    else Ok(seq(|t.records|, i requires 0 <= i < |t.records| => ImportedRow(t, i)))
  }

  /** A table with the required columns and no `id` column is numbered
      1..N, so every imported id is distinct. */
  lemma ImportNumbersRows(p: Parsers, format: Format, t: Table)
    requires Imported(p, format, t).Ok? && "id" !in t.columns
    ensures forall i :: 0 <= i < |t.records| ==> HasId(Imported(p, format, t).value[i], i + 1)
    ensures forall i, j :: 0 <= i < j < |t.records| ==> Imported(p, format, t).value[i].id != Imported(p, format, t).value[j].id
  {
    var rows := Imported(p, format, t).value;
    forall i | 0 <= i < |t.records|
      ensures HasId(rows[i], i + 1)
    {
      ParseIntDecimal(i + 1);
    }
  }

  /** The upload is refused exactly when a required column is missing or
      `pd.to_datetime` raises on some date cell. */
  lemma ImportRefusal(p: Parsers, format: Format, t: Table)
    ensures Imported(p, format, t).Err? <==>
      !(Required <= t.columns) || exists i :: 0 <= i < |t.records| && !DateAccepted(p, format, Field(t.records[i], "date"))
  {
    if Imported(p, format, t).Ok? {
      forall i | 0 <= i < |t.records|
        ensures DateAccepted(p, format, Field(t.records[i], "date"))
      {
        assert Imported(p, format, t).value[i] == ImportedRow(t, i);
      }
    }
  }

  /** A date cell pandas reads as missing or as NaT never refuses an
      upload with the required columns, whatever the date parser says. */
  lemma ImportKeepsMissingDates(p: Parsers, format: Format, t: Table)
    requires Required <= t.columns
    requires forall i :: 0 <= i < |t.records| ==>
      var d := Field(t.records[i], "date"); MissingDate(d) || (format == Csv && IsNa(d))
    ensures Imported(p, format, t).Ok?
  {
    ImportRefusal(p, format, t);
  }

  /** A row as a record with one cell per column. */
  function RecordOf(row: Row): map<string, string> {
    map["id" := row.id, "date" := row.date, "type" := row.kind, "category" := row.category,
        "amount" := row.amount, "description" := row.description]
  }

  /** `export_csv`: the file itself, header and all rows. */
  function ExportCsv(rows: seq<Row>): Table {
    Table(Columns, seq(|rows|, i requires 0 <= i < |rows| => RecordOf(rows[i])))
  }

  /** `export_json`: the loaded rows as records; nothing when none load. */
  function ExportJson(p: Parsers, rows: seq<Row>): Option<Table> {
    var es := Load(p, rows);
    if es == [] then None
    else Some(Table(Columns, seq(|es|, i requires 0 <= i < |es| => RecordOf(es[i].row))))
  }

  /** `pd.DataFrame(json_data)` for a list of records: the columns are
      every key any record has. */
  function FromRecords(records: seq<map<string, string>>): (t: Table)
    ensures t.records == records
    ensures forall c :: c in t.columns <==> exists i :: 0 <= i < |records| && c in records[i]
  {
    if records == [] then Table({}, [])
    else
      var rest := FromRecords(records[1..]);
      Table(records[0].Keys + rest.columns, records)
  }

  /** Exporting the file and importing it back (as CSV, or as JSON
      records) succeeds exactly when no date cell makes `pd.to_datetime`
      raise, and then gives back the same rows. */
  lemma CsvRoundTrip(p: Parsers, format: Format, rows: seq<Row>)
    ensures Imported(p, format, ExportCsv(rows)).Ok? <==> forall r :: r in rows ==> DateAccepted(p, format, r.date)
    ensures Imported(p, format, ExportCsv(rows)).Ok? ==> Imported(p, format, ExportCsv(rows)).value == rows
  {
    var t := ExportCsv(rows);
    assert Required <= t.columns;
    forall i | 0 <= i < |rows|
      ensures Field(t.records[i], "date") == rows[i].date
      ensures ImportedRow(t, i) == rows[i]
    {
    }
    ImportRefusal(p, format, t);
    if forall r :: r in rows ==> DateAccepted(p, format, r.date) {
      assert forall i :: 0 <= i < |t.records| ==> DateAccepted(p, format, Field(t.records[i], "date"));
    } else {
      var r :| r in rows && !DateAccepted(p, format, r.date);
      var i :| 0 <= i < |rows| && rows[i] == r;
      assert !DateAccepted(p, format, Field(t.records[i], "date"));
    }
  }

  /** A record made from a row has exactly the file's columns, holding
      the row's cells. */
  lemma RecordOfCells(row: Row)
    ensures RecordOf(row).Keys == Columns
    ensures forall c :: c in Columns ==> Field(RecordOf(row), c) == Cell(row, c)
  {
  }

  /** The records `export_json` produces are the `export_csv` table of
      the rows that load. */
  lemma ExportJsonIsLoadedTable(p: Parsers, rows: seq<Row>)
    requires ExportJson(p, rows).Some?
    ensures ExportJson(p, rows).value == ExportCsv(RowsOf(Load(p, rows)))
  {
  }

  /** Reading a non-empty exported table back as records recovers its
      columns. */
  lemma FromRecordsOfExport(rows: seq<Row>)
    requires rows != []
    ensures FromRecords(ExportCsv(rows).records) == ExportCsv(rows)
  {
    var records := ExportCsv(rows).records;
    var t := FromRecords(records);
    RecordOfCells(rows[0]);
    assert records[0] == RecordOf(rows[0]);
    assert Columns <= t.columns;
    forall c | c in t.columns
      ensures c in Columns
    {
      var i :| 0 <= i < |records| && c in records[i];
      RecordOfCells(rows[i]);
      assert records[i] == RecordOf(rows[i]);
    }
  }

  /** Exporting as records and importing them back restores the loaded
      rows: rows whose date does not parse are gone, the rest keep their
      ids and order. */
  lemma JsonRoundTrip(p: Parsers, rows: seq<Row>)
    requires ExportJson(p, rows).Some?
    ensures Imported(p, Json, FromRecords(ExportJson(p, rows).value.records)) == Ok(RowsOf(Load(p, rows)))
  {
    var es := Load(p, rows);
    var loaded := RowsOf(es);
    ExportJsonIsLoadedTable(p, rows);
    FromRecordsOfExport(loaded);
    forall r | r in loaded
      ensures DateAccepted(p, Json, r.date)
    {
      var i :| 0 <= i < |loaded| && loaded[i] == r;
      assert es[i] in es;
      LoadMembership(p, rows, es[i]);
    }
    CsvRoundTrip(p, Json, loaded);
  }

  // ---------------------------------------------------------------------
  // The store

  /** The user's expenses file and the requests that rewrite it. */
  class Store {
    /** How dates and amounts are read. */
    const parse: Parsers
    /** The data rows of the file, in file order. */
    var rows: seq<Row>

    /** A freshly initialised file: the header and no rows. */
    constructor (parse: Parsers)
      ensures this.parse == parse && rows == []
    {
      this.parse := parse;
      rows := [];
    }

    /** Adding an expense: an incomplete form or a non-numeric amount
        leaves the file alone; otherwise every existing row is kept, raw,
        and one row is added at the end with the next id. */
    method Append(form: Form) returns (result: Result<nat, LedgerError>)
      modifies this
      ensures !Complete(form) ==> result == Err(MissingField)
      ensures Complete(form) && parse.amount(form.amount.value).None? ==> result == Err(BadAmount)
      ensures Complete(form) && parse.amount(form.amount.value).Some? ==> result == Ok(MaxId(old(rows)) + 1)
      ensures result.Err? ==> rows == old(rows)
      ensures result.Ok? ==> Complete(form) && rows == old(rows) + [NewRow(form, result.value)]
    {
      if !Complete(form) {
        return Err(MissingField);
      }
      if parse.amount(form.amount.value).None? {
        return Err(BadAmount);
      }
      var id := NextId(rows);
      rows := rows + [NewRow(form, id)];
      result := Ok(id);
    }

    /** Updating: the file becomes the loaded rows with the first row of
        id `target` patched; without such a row nothing is written. */
    method Update(target: int, changes: map<string, string>) returns (outcome: Outcome)
      modifies this
      ensures UpdateTarget(Load(parse, old(rows)), target).None? ==> outcome == Failed(NotFound) && rows == old(rows)
      ensures UpdateTarget(Load(parse, old(rows)), target).Some? ==>
        var es := Load(parse, old(rows));
        var i := UpdateTarget(es, target).value;
        outcome == Done && rows == RowsOf(es)[i := Patched(es[i].row, changes)]
    {
      var es := Load(parse, rows);
      var found := UpdateTarget(es, target);
      if found.None? {
        return Failed(NotFound);
      }
      var i := found.value;
      var patched := PatchRow(es[i].row, changes);
      rows := RowsOf(es)[i := patched];
      outcome := Done;
    }

    /** Deleting never fails; see `Deleted` for the file it leaves. */
    method Delete(target: int) returns (outcome: Outcome)
      modifies this
      ensures outcome == Done && rows == Deleted(parse, old(rows), target)
    {
      rows := Deleted(parse, rows, target);
      outcome := Done;
    }

    /** Importing a table (CSV upload): the file is replaced wholesale, or
        left alone when the upload is refused. */
    method Import(t: Table) returns (outcome: Outcome)
      modifies this
      ensures var imported := Imported(parse, Csv, t);
        imported.Err? ==> outcome == Failed(imported.error) && rows == old(rows)
      ensures Imported(parse, Csv, t).Ok? ==> outcome == Done && rows == Imported(parse, Csv, t).value
    {
      match Imported(parse, Csv, t) {
        case Err(e) =>
          outcome := Failed(e);
        case Ok(imported) =>
          rows := imported;
          outcome := Done;
      }
    }

    /** Importing a list of records (JSON upload), likewise. */
    method ImportRecords(records: seq<map<string, string>>) returns (outcome: Outcome)
      modifies this
      ensures var imported := Imported(parse, Json, FromRecords(records));
        imported.Err? ==> outcome == Failed(imported.error) && rows == old(rows)
      ensures var imported := Imported(parse, Json, FromRecords(records));
        imported.Ok? ==> outcome == Done && rows == imported.value
    {
      match Imported(parse, Json, FromRecords(records)) {
        case Err(e) =>
          outcome := Failed(e);
        case Ok(imported) =>
          rows := imported;
          outcome := Done;
      }
    }
  }
}
