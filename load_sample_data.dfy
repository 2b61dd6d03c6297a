/**
 * The management command that loads sample market data from a CSV file: it
 * optionally clears the table, then walks the rows, converting each one and
 * handing it to `get_or_create` keyed on `(week, year)`, and reports how
 * many records it created and how many rows failed.
 *
 * A row is given with its cells already converted: a cell is `None` when its
 * column is missing or the conversion (`int(...)`, `float(...)`) raises.
 */
module LoadSampleData {
  import opened Wrappers
  import MM = MarketModels
  import ListOps

  /** The `source` every loaded record carries. */
  const SampleSource: string := "sample_data_load"

  /** One CSV row, cell by cell. The text cells hold `str()` of the cell. */
  datatype CsvRow = CsvRow(
    week: Option<int>,
    year: Option<int>,
    month: Option<string>,
    rainfall: Option<real>,
    temperature: Option<real>,
    marketDay: Option<string>,
    schoolOpen: Option<string>,
    diseaseAlert: Option<string>,
    lastWeekDemand: Option<string>,
    marketDemand: Option<string>)

  /** What reading the file gives: the rows, or one of the two failures the
      command tells apart. */
  datatype CsvFile = NotFound | Unreadable | Parsed(rows: seq<CsvRow>)

  // Reading a flag

  /** `str.lower()` on one character, for ASCII letters. */
  function LowerChar(c: char): (r: char)
    ensures 'A' <= c <= 'Z' ==> 'a' <= r <= 'z'
    ensures !('A' <= c <= 'Z') ==> r == c
  {
    if 'A' <= c <= 'Z' then (c as int + 32) as char else c
  }

  function Lower(s: string): (r: string)
    ensures |r| == |s|
    ensures forall i :: 0 <= i < |s| ==> r[i] == LowerChar(s[i])
  {
    if s == [] then [] else [LowerChar(s[0])] + Lower(s[1..])
  }

  /** Lower-casing twice changes nothing more. */
  lemma {:induction false} LowerIdempotent(s: string)
    ensures Lower(Lower(s)) == Lower(s)
  {
    if s != [] {
      LowerIdempotent(s[1..]);
      assert Lower(s)[1..] == Lower(s[1..]);
    }
  }

  /** A yes/no column: true when the text, lower-cased, is one of "yes",
      "true" and "1"; anything else, "nan" for an empty cell included, is
      false. */
  predicate ParseFlag(text: string) {
    Lower(text) in {"yes", "true", "1"}
  }

  /** The flag does not depend on letter case. */
  lemma ParseFlagIgnoresCase(text: string)
    ensures ParseFlag(Lower(text)) == ParseFlag(text)
  {
    LowerIdempotent(text);
  }

  /** The spellings of yes a spreadsheet or pandas writes. */
  lemma ParseFlagAccepts()
    ensures ParseFlag("Yes") && ParseFlag("TRUE") && ParseFlag("True") && ParseFlag("1")
  {
    assert Lower("Yes") == "yes";
    assert Lower("TRUE") == "true";
    assert Lower("True") == "true";
    assert Lower("1") == "1";
  }

  /** The spellings of no, and the text of an empty cell. */
  lemma ParseFlagRejects()
    ensures !ParseFlag("No") && !ParseFlag("False") && !ParseFlag("0") && !ParseFlag("nan")
  {
    assert Lower("No") == "no";
    assert Lower("False") == "false";
    assert Lower("0") == "0";
    assert Lower("nan") == "nan";
  }

  // Converting a row

  /** The `defaults` handed to `get_or_create`: every column but the key. */
  datatype Defaults = Defaults(
    month: string,
    rainfall: real,
    temperature: real,
    marketDay: bool,
    schoolOpen: bool,
    diseaseAlert: string,
    lastWeekDemand: string,
    marketDemand: string,
    source: string)

  /** A converted row: the key as `int()` gave it and the defaults. */
  datatype RowValues = RowValues(week: int, year: int, defaults: Defaults)

  /** Converts every cell of a row; all of them are converted before the
      table is looked at, so one bad cell fails the row even when its week
      is already stored. */
  function ValuesOf(row: CsvRow): (r: Option<RowValues>)
    ensures r.Some? <==>
      && row.week.Some? && row.year.Some? && row.month.Some?
      && row.rainfall.Some? && row.temperature.Some?
      && row.marketDay.Some? && row.schoolOpen.Some?
      && row.diseaseAlert.Some? && row.lastWeekDemand.Some? && row.marketDemand.Some?
    ensures r.Some? ==>
      && r.value.week == row.week.value && r.value.year == row.year.value
      && r.value.defaults.month == row.month.value
      && r.value.defaults.rainfall == row.rainfall.value
      && r.value.defaults.temperature == row.temperature.value
      && r.value.defaults.diseaseAlert == row.diseaseAlert.value
      && r.value.defaults.lastWeekDemand == row.lastWeekDemand.value
      && r.value.defaults.marketDemand == row.marketDemand.value
      && r.value.defaults.source == SampleSource
      && r.value.defaults.marketDay == ParseFlag(row.marketDay.value)
      && r.value.defaults.schoolOpen == ParseFlag(row.schoolOpen.value)
  {
    if && row.week.Some? && row.year.Some? && row.month.Some?
       && row.rainfall.Some? && row.temperature.Some?
       && row.marketDay.Some? && row.schoolOpen.Some?
       && row.diseaseAlert.Some? && row.lastWeekDemand.Some? && row.marketDemand.Some?
    then
      Some(RowValues(row.week.value, row.year.value,
        Defaults(row.month.value, row.rainfall.value, row.temperature.value,
                 ParseFlag(row.marketDay.value), ParseFlag(row.schoolOpen.value),
                 row.diseaseAlert.value, row.lastWeekDemand.value, row.marketDemand.value,
                 SampleSource)))
    else None
  }

  /** Every column of a record but the key: what `defaults` would have to
      hold to produce it. */
  function DefaultsOf(r: MM.MarketData): Defaults {
    Defaults(r.month, r.rainfall, r.temperature, r.marketDay, r.schoolOpen,
             r.diseaseAlert, r.lastWeekDemand, r.marketDemand, r.source)
  }

  /** The record `get_or_create` would insert for this key and defaults: the
      key, and every other column taken from the defaults. */
  function RecordOf(week: nat, year: nat, d: Defaults): (r: MM.MarketData)
    ensures MM.KeyOf(r) == MM.Key(year, week) && DefaultsOf(r) == d
  {
    MM.MarketData(week, year, d.month, d.rainfall, d.temperature, d.marketDay, d.schoolOpen,
                  d.diseaseAlert, d.lastWeekDemand, d.marketDemand, d.source)
  }

  // The table

  /** A table keyed by `(year, week)`, each key holding the record it names. */
  ghost predicate KeysMatch(m: map<MM.Key, MM.MarketData>) {
    forall k :: k in m ==> MM.KeyOf(m[k]) == k
  }

  /** What `get_or_create` gives back: the record and whether it is new. */
  datatype Fetched = Fetched(record: MM.MarketData, created: bool)

  /** The market data table, unique on `(year, week)`. */
  class MarketDataTable {
    var records: map<MM.Key, MM.MarketData>

    ghost predicate Valid()
      reads this
    {
      KeysMatch(records)
    }

    constructor()
      ensures Valid() && records == map[]
    {
      records := map[];
    }

    /** `MarketData.objects.all().delete()`. */
    method Clear()
      modifies this
      ensures Valid() && records == map[]
    {
      records := map[];
    }

    /** Returns the stored record for `(week, year)` untouched when there is
        one; otherwise inserts one built from the defaults. A negative week
        or year is found nowhere and refused on insert by the columns'
        non-negative constraint: `None`, and nothing changes. */
    method GetOrCreate(week: int, year: int, defaults: Defaults) returns (r: Option<Fetched>)
      requires Valid()
      modifies this
      ensures Valid()
      ensures week < 0 || year < 0 ==> r == None && records == old(records)
      ensures week >= 0 && year >= 0 && MM.Key(year, week) in old(records) ==>
                r == Some(Fetched(old(records)[MM.Key(year, week)], false)) && records == old(records)
      ensures week >= 0 && year >= 0 && MM.Key(year, week) !in old(records) ==>
                var d := RecordOf(week, year, defaults);
                r == Some(Fetched(d, true)) && records == old(records)[MM.Key(year, week) := d]
    {
      if week < 0 || year < 0 {
        return None;
      }
      var key := MM.Key(year, week);
      if key in records {
        return Some(Fetched(records[key], false));
      }
      var d := RecordOf(week, year, defaults);
      records := records[key := d];
      r := Some(Fetched(d, true));
    }
  }

  // The load as a function of the table before it

  /** What happens to one row: a new record, an existing key (left as it
      is), or an error. */
  datatype RowOutcome = Created(record: MM.MarketData) | Existing | Failed

  function OutcomeOf(m: map<MM.Key, MM.MarketData>, row: CsvRow): (o: RowOutcome)
    ensures o.Failed? <==> ValuesOf(row).None? || ValuesOf(row).value.week < 0 || ValuesOf(row).value.year < 0
    ensures o.Created? ==> MM.KeyOf(o.record) !in m && o.record.source == SampleSource
    ensures o.Created? ==> var v := ValuesOf(row).value; o.record == RecordOf(v.week, v.year, v.defaults)
    ensures o.Existing? <==> !o.Failed? && MM.Key(ValuesOf(row).value.year, ValuesOf(row).value.week) in m
  {
    match ValuesOf(row)
    case None => Failed
    case Some(v) =>
      if v.week < 0 || v.year < 0 then Failed
      else if MM.Key(v.year, v.week) in m then Existing
      else Created(RecordOf(v.week, v.year, v.defaults))
  }

  /** The table and the two counters. */
  datatype LoadState = LoadState(table: map<MM.Key, MM.MarketData>, created: nat, errors: nat)

  function Step(s: LoadState, row: CsvRow): LoadState {
    match OutcomeOf(s.table, row)
    case Created(d) => LoadState(s.table[MM.KeyOf(d) := d], s.created + 1, s.errors)
    case Existing => s
    case Failed => LoadState(s.table, s.created, s.errors + 1)
  }

  /** The rows applied in order to the table `m`. */
  function LoadAll(m: map<MM.Key, MM.MarketData>, rows: seq<CsvRow>): LoadState {
    if rows == [] then LoadState(m, 0, 0)
    else Step(LoadAll(m, rows[..|rows| - 1]), rows[|rows| - 1])
  }

  /** Whether a row converts to a key the table can hold. */
  predicate Loadable(row: CsvRow) {
    ValuesOf(row).Some? && ValuesOf(row).value.week >= 0 && ValuesOf(row).value.year >= 0
  }

  function KeyOfRow(row: CsvRow): MM.Key
    requires Loadable(row)
  {
    MM.Key(ValuesOf(row).value.year, ValuesOf(row).value.week)
  }

  /** The outcome of a report. */
  datatype Report = FileNotFound | LoadError | Loaded(createdCount: nat, errorCount: nat)

  /** The command: clear when asked, then read the file and load its rows.
      The table is cleared even when the file then cannot be read. */
  method Handle(table: MarketDataTable, clear: bool, file: CsvFile) returns (report: Report)
    requires table.Valid()
    modifies table
    ensures table.Valid()
    ensures var start := if clear then map[] else old(table.records);
      match file
      case NotFound => report == FileNotFound && table.records == start
      case Unreadable => report == LoadError && table.records == start
      case Parsed(rows) =>
        var s := LoadAll(start, rows);
        report == Loaded(s.created, s.errors) && table.records == s.table
  {
    if clear {
      table.Clear();
    }
    match file
    case NotFound => report := FileNotFound;
    case Unreadable => report := LoadError;
    case Parsed(rows) =>
      ghost var start := table.records;
      var createdCount: nat := 0;
      var errorCount: nat := 0;
      for i := 0 to |rows|
        invariant table.Valid()
        invariant LoadAll(start, rows[..i]) == LoadState(table.records, createdCount, errorCount)
      {
        assert rows[..i + 1][..i] == rows[..i];
        var outcome := LoadRow(table, rows[i]);
        match outcome {
          case Created(_) => createdCount := createdCount + 1;
          case Existing =>
          case Failed => errorCount := errorCount + 1;
        }
      }
      assert rows[..|rows|] == rows;
      report := Loaded(createdCount, errorCount);
  }

  /** One pass of the loop body: convert the row, then `get_or_create`;
      any failure on the way is the row's error. */
  method LoadRow(table: MarketDataTable, row: CsvRow) returns (o: RowOutcome)
    requires table.Valid()
    modifies table
    ensures table.Valid()
    ensures o == OutcomeOf(old(table.records), row)
    ensures table.records == if o.Created? then old(table.records)[MM.KeyOf(o.record) := o.record]
                             else old(table.records)
  {
    var values := ValuesOf(row);
    match values {
      case None =>
        o := Failed;
      case Some(v) =>
        var fetched := table.GetOrCreate(v.week, v.year, v.defaults);
        match fetched {
          case None => o := Failed;
          case Some(f) => o := if f.created then Created(f.record) else Existing;
        }
    }
  }

  // What the load promises

  /** Loading never changes or removes a stored record: `get_or_create`
      only ever inserts. */
  lemma {:induction false} LoadAllKeeps(m: map<MM.Key, MM.MarketData>, rows: seq<CsvRow>)
    ensures forall k :: k in m ==> k in LoadAll(m, rows).table && LoadAll(m, rows).table[k] == m[k]
  {
    if rows != [] {
      LoadAllKeeps(m, rows[..|rows| - 1]);
    }
  }

  /** The loaded table still holds each record under its own key, and every
      record it gained comes from the file. */
  lemma {:induction false} LoadAllValid(m: map<MM.Key, MM.MarketData>, rows: seq<CsvRow>)
    requires KeysMatch(m)
    ensures KeysMatch(LoadAll(m, rows).table)
    ensures forall k :: k in LoadAll(m, rows).table && k !in m ==> LoadAll(m, rows).table[k].source == SampleSource
  {
    if rows != [] {
      LoadAllValid(m, rows[..|rows| - 1]);
    }
  }

  /** Each created record adds one key; no row is both created and an
      error. */
  lemma {:induction false} LoadAllCounts(m: map<MM.Key, MM.MarketData>, rows: seq<CsvRow>)
    ensures |LoadAll(m, rows).table| == |m| + LoadAll(m, rows).created
    ensures LoadAll(m, rows).created + LoadAll(m, rows).errors <= |rows|
  {
    if rows != [] {
      LoadAllCounts(m, rows[..|rows| - 1]);
    }
  }

  /** The rows that fail are the same whatever the table holds. */
  lemma {:induction false} ErrorsIgnoreTable(m1: map<MM.Key, MM.MarketData>, m2: map<MM.Key, MM.MarketData>, rows: seq<CsvRow>)
    ensures LoadAll(m1, rows).errors == LoadAll(m2, rows).errors
    ensures LoadAll(m1, rows).errors == |rows| - ListOps.CountWhere(rows, Loadable)
  {
    if rows != [] {
      ErrorsIgnoreTable(m1, m2, rows[..|rows| - 1]);
    }
  }

  /** After the load, every loadable row's key is stored. */
  lemma {:induction false} LoadAllCovers(m: map<MM.Key, MM.MarketData>, rows: seq<CsvRow>)
    ensures forall i :: 0 <= i < |rows| && Loadable(rows[i]) ==> KeyOfRow(rows[i]) in LoadAll(m, rows).table
  {
    if rows != [] {
      var init := rows[..|rows| - 1];
      LoadAllCovers(m, init);
      LoadAllKeeps(LoadAll(m, init).table, [rows[|rows| - 1]]);
      forall i | 0 <= i < |rows| && Loadable(rows[i])
        ensures KeyOfRow(rows[i]) in LoadAll(m, rows).table
      {
        if i < |rows| - 1 {
          assert rows[i] == init[i];
        }
      }
    }
  }

  /** Rows whose keys are all stored already create nothing and change
      nothing. */
  lemma {:induction false} LoadAllNothingNew(t: map<MM.Key, MM.MarketData>, rows: seq<CsvRow>)
    requires forall i :: 0 <= i < |rows| && Loadable(rows[i]) ==> KeyOfRow(rows[i]) in t
    ensures LoadAll(t, rows).table == t && LoadAll(t, rows).created == 0
  {
    if rows != [] {
      var init := rows[..|rows| - 1];
      forall i | 0 <= i < |init| && Loadable(init[i]) ensures KeyOfRow(init[i]) in t {
        assert init[i] == rows[i];
      }
      LoadAllNothingNew(t, init);
    }
  }

  /** Running the command a second time on the same file leaves the table as
      the first run left it, creates nothing and reports the same errors. */
  lemma ReloadChangesNothing(m: map<MM.Key, MM.MarketData>, rows: seq<CsvRow>)
    ensures var first := LoadAll(m, rows);
      var second := LoadAll(first.table, rows);
      second.table == first.table && second.created == 0 && second.errors == first.errors
  {
    var first := LoadAll(m, rows);
    LoadAllCovers(m, rows);
    LoadAllNothingNew(first.table, rows);
    ErrorsIgnoreTable(m, first.table, rows);
  }

  /** When several rows share a key, the first loadable one is stored (when
      the key was not stored before); later ones are ignored. */
  lemma {:induction false} FirstRowWins(m: map<MM.Key, MM.MarketData>, rows: seq<CsvRow>, i: nat)
    requires i < |rows| && Loadable(rows[i]) && KeyOfRow(rows[i]) !in m
    requires forall j :: 0 <= j < i && Loadable(rows[j]) ==> KeyOfRow(rows[j]) != KeyOfRow(rows[i])
    ensures var v := ValuesOf(rows[i]).value;
      && KeyOfRow(rows[i]) in LoadAll(m, rows).table
      && LoadAll(m, rows).table[KeyOfRow(rows[i])] == RecordOf(v.week, v.year, v.defaults)
  {
    var init := rows[..|rows| - 1];
    var key := KeyOfRow(rows[i]);
    if i == |rows| - 1 {
      assert key !in LoadAll(m, init).table by {
        LoadAllStaysOut(m, init, key);
      }
    } else {
      assert rows[i] == init[i];
      forall j | 0 <= j < i && Loadable(init[j]) ensures KeyOfRow(init[j]) != key {
        assert init[j] == rows[j];
      }
      FirstRowWins(m, init, i);
    }
  }

  /** A key that no loadable row names and the table lacks stays out. */
  lemma {:induction false} LoadAllStaysOut(m: map<MM.Key, MM.MarketData>, rows: seq<CsvRow>, key: MM.Key)
    requires key !in m
    requires forall j :: 0 <= j < |rows| && Loadable(rows[j]) ==> KeyOfRow(rows[j]) != key
    ensures key !in LoadAll(m, rows).table
  {
    if rows != [] {
      var init := rows[..|rows| - 1];
      forall j | 0 <= j < |init| && Loadable(init[j]) ensures KeyOfRow(init[j]) != key {
        assert init[j] == rows[j];
      }
      LoadAllStaysOut(m, init, key);
    }
  }
}
