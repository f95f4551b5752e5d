/** The records of a user's expenses file and the lenient load that turns
    them into dated entries (app.py, `load_user_expenses`). */
module Records {
  import opened Wrappers

  /** A calendar date with no time of day. */
  datatype Date = Date(year: int, month: int, day: int)

  /** Chronological order on dates: `a` is on or before `b`. */
  predicate DateLe(a: Date, b: Date) {
    a.year < b.year
    || (a.year == b.year && (a.month < b.month || (a.month == b.month && a.day <= b.day)))
  }

  /** Any two dates are ordered one way or the other. */
  lemma DateLeTotal(a: Date, b: Date)
    ensures DateLe(a, b) || DateLe(b, a)
  {
  }

  lemma DateLeTransitive(a: Date, b: Date, c: Date)
    requires DateLe(a, b) && DateLe(b, c)
    ensures DateLe(a, c)
  {
  }

  /** One data line of `<user>_expenses.csv`, cell by cell, as the CSV
      reader hands it over: every cell is text. */
  datatype Row = Row(id: string, date: string, kind: string, category: string,
                     amount: string, description: string)

  /** A row kept by the lenient load, with the date it parsed to. */
  datatype Entry = Entry(date: Date, row: Row)

  /** The library parsers the application relies on: date text to a date
      (`pd.to_datetime`), amount text to a number of minor currency units
      (`float`, `pd.to_numeric`). `None` is a text that gives no date or
      number; the load drops such a row whatever the reason, and the
      import and the listing tell the texts pandas reads as not-a-time
      (`MissingDate`, and on a CSV upload `IsNa`) apart from texts that
      make the parser raise. */
  datatype Parsers = Parsers(date: string -> Option<Date>, amount: string -> Option<int>)

  /** The cell texts `pd.read_csv` reads as a missing value (NaN) by
      default. A missing value equals nothing, and `groupby` leaves out
      the rows whose key is missing. */
  const NaTokens: set<string> :=
    {"", "#N/A", "#N/A N/A", "#NA", "-1.#IND", "-1.#QNAN", "-NaN", "-nan",
     "1.#IND", "1.#QNAN", "<NA>", "N/A", "NA", "NULL", "NaN", "None",
     "n/a", "nan", "null"}

  predicate IsNa(cell: string) {
    cell in NaTokens
  }

  /** The texts `pd.to_datetime` reads as not-a-time (`NaT`) without an
      error: the empty text and the spellings of NaT and NaN. */
  const NaTStrings: set<string> := {"", "NaT", "nat", "NAT", "nan", "NaN", "NAN"}

  predicate MissingDate(text: string) {
    text in NaTStrings
  }

  /** The header of the expenses file. */
  const Columns: set<string> := {"id", "date", "type", "category", "amount", "description"}

  /** The cell of `row` under `column`; a column the file does not have
      reads as empty. */
  function Cell(row: Row, column: string): string {
    if column == "id" then row.id
    else if column == "date" then row.date
    else if column == "type" then row.kind
    else if column == "category" then row.category
    else if column == "amount" then row.amount
    else if column == "description" then row.description
    else ""
  }

  /** A row is its six cells. */
  lemma RowsEqualByCells(a: Row, b: Row)
    requires forall c :: c in Columns ==> Cell(a, c) == Cell(b, c)
    ensures a == b
  {
    assert Cell(a, "id") == Cell(b, "id") && Cell(a, "date") == Cell(b, "date");
    assert Cell(a, "type") == Cell(b, "type") && Cell(a, "category") == Cell(b, "category");
    assert Cell(a, "amount") == Cell(b, "amount") && Cell(a, "description") == Cell(b, "description");
  }

  /** `df.at[idx, column] = value`: writing a cell of a known column
      replaces that cell only; writing under any other name changes
      nothing. */
  function SetCell(row: Row, column: string, value: string): (r: Row)
    ensures forall c :: Cell(r, c) == if c == column && column in Columns then value else Cell(row, c)
  {
    if column == "id" then row.(id := value)
    else if column == "date" then row.(date := value)
    else if column == "type" then row.(kind := value)
    else if column == "category" then row.(category := value)
    else if column == "amount" then row.(amount := value)
    else if column == "description" then row.(description := value)
    else row
  }

  /** The elements of `s` for which `keep` holds, in their original order
      (a boolean-mask selection `df[mask]`). */
  function Keep<T(!new)>(s: seq<T>, keep: T -> bool): (r: seq<T>)
    ensures |r| <= |s|
    ensures forall x :: x in r <==> x in s && keep(x)
  {
    if s == [] then []
    else (if keep(s[0]) then [s[0]] else []) + Keep(s[1..], keep)
  }

  /** Selection works piecewise, so it keeps the original order. */
  lemma {:induction false} KeepConcat<T(!new)>(a: seq<T>, b: seq<T>, keep: T -> bool)
    ensures Keep(a + b, keep) == Keep(a, keep) + Keep(b, keep)
  {
    if a != [] {
      assert (a + b)[0] == a[0] && (a + b)[1..] == a[1..] + b;
      KeepConcat(a[1..], b, keep);
      var head := if keep(a[0]) then [a[0]] else [];
      assert Keep(a + b, keep) == head + Keep(a[1..] + b, keep);
      assert Keep(a, keep) == head + Keep(a[1..], keep);
      assert head + (Keep(a[1..], keep) + Keep(b, keep)) == (head + Keep(a[1..], keep)) + Keep(b, keep);
    } else {
      assert a + b == b;
    }
  }

  /** Selecting with a condition every element meets keeps everything. */
  lemma {:induction false} KeepAll<T(!new)>(s: seq<T>, keep: T -> bool)
    requires forall x :: x in s ==> keep(x)
    ensures Keep(s, keep) == s
  {
    if s != [] {
      KeepAll(s[1..], keep);
    }
  }

  /** Selecting with a condition no element meets keeps nothing. */
  lemma {:induction false} KeepNone<T(!new)>(s: seq<T>, keep: T -> bool)
    requires forall x :: x in s ==> !keep(x)
    ensures Keep(s, keep) == []
  {
    if s != [] {
      KeepNone(s[1..], keep);
    }
  }

  /** Two masks that agree on every element select the same elements. */
  lemma {:induction false} KeepSameMask<T(!new)>(s: seq<T>, f: T -> bool, g: T -> bool)
    requires forall x :: x in s ==> f(x) == g(x)
    ensures Keep(s, f) == Keep(s, g)
  {
    if s != [] {
      KeepSameMask(s[1..], f, g);
    }
  }

  /** Selecting twice is selecting once with both conditions. */
  lemma {:induction false} KeepKeep<T(!new)>(s: seq<T>, f: T -> bool, g: T -> bool, both: T -> bool)
    requires forall x :: both(x) == (f(x) && g(x))
    ensures Keep(Keep(s, f), g) == Keep(s, both)
  {
    if s != [] {
      KeepKeep(s[1..], f, g, both);
      var head := if f(s[0]) then [s[0]] else [];
      KeepConcat(head, Keep(s[1..], f), g);
    }
  }

  /** `load_user_expenses`: every row whose date parses, paired with that
      date; a row whose date does not parse is dropped without an error. */
  function Load(p: Parsers, rows: seq<Row>): (es: seq<Entry>)
    ensures |es| <= |rows|
  {
    if rows == [] then []
    else
      (match p.date(rows[0].date)
       case Some(d) => [Entry(d, rows[0])]
       case None => [])
      + Load(p, rows[1..])
  }

  /** An entry is loaded exactly when its row is in the file and its date
      is what the row's date text parses to. */
  lemma {:induction false} LoadMembership(p: Parsers, rows: seq<Row>, e: Entry)
    ensures e in Load(p, rows) <==> e.row in rows && p.date(e.row.date) == Some(e.date)
  {
    if rows != [] {
      LoadMembership(p, rows[1..], e);
      assert rows == [rows[0]] + rows[1..];
    }
  }

  /** Loading works line by line, so it keeps the file's order. */
  lemma {:induction false} LoadConcat(p: Parsers, a: seq<Row>, b: seq<Row>)
    ensures Load(p, a + b) == Load(p, a) + Load(p, b)
  {
    if a != [] {
      assert (a + b)[0] == a[0] && (a + b)[1..] == a[1..] + b;
      LoadConcat(p, a[1..], b);
      var head := Load(p, [a[0]]);
      assert Load(p, a + b) == head + (Load(p, a[1..]) + Load(p, b));
      assert Load(p, a) == head + Load(p, a[1..]);
    } else {
      assert a + b == b;
    }
  }

  /** A file whose dates all parse loads every row, in order. */
  lemma {:induction false} LoadKeepsParsableFile(p: Parsers, rows: seq<Row>)
    requires forall r :: r in rows ==> p.date(r.date).Some?
    ensures |Load(p, rows)| == |rows|
    ensures RowsOf(Load(p, rows)) == rows
  {
    if rows != [] {
      LoadKeepsParsableFile(p, rows[1..]);
    }
  }

  /** The rows of loaded entries, as `df.to_csv` writes them back. */
  function RowsOf(es: seq<Entry>): (rows: seq<Row>)
    ensures |rows| == |es|
    ensures forall i :: 0 <= i < |es| ==> rows[i] == es[i].row
  {
    if es == [] then [] else [es[0].row] + RowsOf(es[1..])
  }

  /** Writing back what was loaded keeps exactly the rows whose date
      parses, in file order. */
  lemma {:induction false} WriteBackIsLenient(p: Parsers, rows: seq<Row>)
    ensures RowsOf(Load(p, rows)) == Keep(rows, (r: Row) => p.date(r.date).Some?)
  {
    if rows != [] {
      WriteBackIsLenient(p, rows[1..]);
      assert RowsOf(Load(p, rows)) == RowsOf(Load(p, [rows[0]])) + RowsOf(Load(p, rows[1..])) by {
        assert rows == [rows[0]] + rows[1..];
        LoadConcat(p, [rows[0]], rows[1..]);
        RowsOfConcat(Load(p, [rows[0]]), Load(p, rows[1..]));
      }
    }
  }

  lemma {:induction false} RowsOfConcat(a: seq<Entry>, b: seq<Entry>)
    ensures RowsOf(a + b) == RowsOf(a) + RowsOf(b)
  {
    if a != [] {
      assert (a + b)[1..] == a[1..] + b;
      RowsOfConcat(a[1..], b);
    }
  }
}
