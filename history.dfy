/** `services/history.py`: the metrics history kept as CSV rows, one per
    (date, community) and run.  The file itself and the CSV codec are left
    out: a row is what `csv.DictReader` hands over, and `int()`/`float()`
    on a cell, and `str()` of a number when writing, are parameters. */
module History {
  import opened Wrappers
  import opened Seqs
  import opened Strings
  import opened Sorting
  import opened Models

  /** A row as `csv.DictReader` yields it: a column missing from the header
      is missing from the map; a cell missing from a short row is `None`. */
  type Row = map<string, Option<string>>

  /** Python's `int(text)` and `float(text)`: `None` where they raise. */
  datatype Parsers = Parsers(toInt: string -> Option<int>, toReal: string -> Option<real>)

  /** `str()` of a number, as `csv.writer` renders it. */
  datatype Printers = Printers(intText: int -> string, realText: real -> string)

  /** The state of the history file before reading. */
  datatype HistoryFile = NoFile | Unreadable | Rows(rows: seq<Row>)

  const FieldNames: seq<string> :=
    ["date", "subreddit", "total_posts", "unanswered", "unanswered_rate", "median_ttf_minutes"]

  const DefaultRecentLimit: int := 6

  /** `row.get(key)`. */
  function Cell(row: Row, key: string): Option<string> {
    if key in row then row[key] else None
  }

  /** `_parse_optional_float`: absent or empty is `None`, and so is text `float()` rejects. */
  function ParseOptionalFloat(value: Option<string>, toReal: string -> Option<real>): (r: Option<real>)
    ensures value.None? || value == Some("") ==> r.None?
    ensures value.Some? && value.value != "" ==> r == toReal(value.value)
  {
    if value.None? || value.value == "" then None else toReal(value.value)
  }

  /** `int(row.get(key, 0))`: 0 for a missing column, failure for a missing cell. */
  function IntField(row: Row, key: string, toInt: string -> Option<int>): (r: Option<int>)
    ensures key !in row ==> r == Some(0)
    ensures key in row && row[key].None? ==> r.None?
    ensures key in row && row[key].Some? ==> r == toInt(row[key].value)
  {
    if key !in row then Some(0)
    else match row[key]
      case None => None
      case Some(text) => toInt(text)
  }

  /** `float(row.get(key, 0.0))`. */
  function RealField(row: Row, key: string, toReal: string -> Option<real>): (r: Option<real>)
    ensures key !in row ==> r == Some(0.0)
    ensures key in row && row[key].None? ==> r.None?
    ensures key in row && row[key].Some? ==> r == toReal(row[key].value)
  {
    if key !in row then Some(0.0)
    else match row[key]
      case None => None
      case Some(text) => toReal(text)
  }

  /** The entry one row yields, or `None` when the row is skipped: a missing
      or empty date or community, or a numeric cell that does not parse. */
  function RowEntry(row: Row, parse: Parsers): (r: Option<HistoryEntry>)
    ensures Cell(row, "date") in {None, Some("")} ==> r.None?
    ensures Cell(row, "subreddit") in {None, Some("")} ==> r.None?
    ensures r.Some? ==>
      && r.value.date != "" && Cell(row, "date") == Some(r.value.date)
      && r.value.subreddit != "" && Cell(row, "subreddit") == Some(r.value.subreddit)
      && r.value.medianTtfMinutes == ParseOptionalFloat(Cell(row, "median_ttf_minutes"), parse.toReal)
  {
    var date := Cell(row, "date");
    var subreddit := Cell(row, "subreddit");
    if date.None? || date.value == "" || subreddit.None? || subreddit.value == "" then None
    else
      var total := IntField(row, "total_posts", parse.toInt);
      var unanswered := IntField(row, "unanswered", parse.toInt);
      var rate := RealField(row, "unanswered_rate", parse.toReal);
      if total.None? || unanswered.None? || rate.None? then None
      else Some(HistoryEntry(date.value, subreddit.value, total.value, unanswered.value, rate.value,
                             ParseOptionalFloat(Cell(row, "median_ttf_minutes"), parse.toReal)))
  }

  /** The entries of the rows in order, skipped rows left out. */
  function Entries(rows: seq<Row>, parse: Parsers): (r: seq<HistoryEntry>)
    ensures |r| <= |rows|
  {
    if rows == [] then []
    else
      var e := RowEntry(rows[|rows| - 1], parse);
      Entries(rows[..|rows| - 1], parse) + (if e.Some? then [e.value] else [])
  }

  lemma {:induction false} EntriesWellFormed(rows: seq<Row>, parse: Parsers)
    ensures forall e :: e in Entries(rows, parse) ==> e.date != "" && e.subreddit != ""
  {
    if rows != [] {
      EntriesWellFormed(rows[..|rows| - 1], parse);
    }
  }

  /** `read_history`: no file or an unreadable one gives no entries;
      otherwise each row is kept or skipped in turn. */
  method ReadHistory(file: HistoryFile, parse: Parsers) returns (entries: seq<HistoryEntry>)
    ensures file.NoFile? || file.Unreadable? ==> entries == []
    ensures file.Rows? ==> entries == Entries(file.rows, parse)
    ensures forall e :: e in entries ==> e.date != "" && e.subreddit != ""
  {
    entries := [];
    if !file.Rows? {
      return;
    }
    var rows := file.rows;
    var i := 0;
    while i < |rows|
      invariant 0 <= i <= |rows|
      invariant entries == Entries(rows[..i], parse)
    {
      assert rows[..i + 1][..i] == rows[..i];
      var row := rows[i];
      var date := Cell(row, "date");
      var subreddit := Cell(row, "subreddit");
      if date.None? || date.value == "" || subreddit.None? || subreddit.value == "" {
        i := i + 1;
        continue;
      }
      var total := IntField(row, "total_posts", parse.toInt);
      var unanswered := IntField(row, "unanswered", parse.toInt);
      var rate := RealField(row, "unanswered_rate", parse.toReal);
      if total.Some? && unanswered.Some? && rate.Some? {
        entries := entries + [HistoryEntry(date.value, subreddit.value, total.value, unanswered.value, rate.value,
                                           ParseOptionalFloat(Cell(row, "median_ttf_minutes"), parse.toReal))];
      }
      i := i + 1;
    }
    assert rows[..i] == rows;
    EntriesWellFormed(rows, parse);
  }

  // ---------------------------------------------------------------------
  // Writing

  /** The cells `append_history` writes for one entry, in `FieldNames` order;
      an absent median is written as the empty cell. */
  function EntryCells(e: HistoryEntry, show: Printers): (cells: seq<string>)
    ensures |cells| == |FieldNames|
    ensures cells[5] == (if e.medianTtfMinutes.None? then "" else show.realText(e.medianTtfMinutes.value))
  {
    [e.date, e.subreddit, show.intText(e.totalPosts), show.intText(e.unanswered),
     show.realText(e.unansweredRate),
     if e.medianTtfMinutes.Some? then show.realText(e.medianTtfMinutes.value) else ""]
  }

  function EntriesCells(entries: seq<HistoryEntry>, show: Printers): (r: seq<seq<string>>)
    ensures |r| == |entries|
    ensures forall i :: 0 <= i < |entries| ==> r[i] == EntryCells(entries[i], show)
  {
    if entries == [] then [] else [EntryCells(entries[0], show)] + EntriesCells(entries[1..], show)
  }

  /** `append_history`: the records appended to the file, the header first
      when the file does not exist yet; nothing at all for no entries. */
  function AppendHistory(fileExists: bool, entries: seq<HistoryEntry>, show: Printers): (records: seq<seq<string>>)
    ensures entries == [] <==> records == []
    ensures entries != [] ==> |records| == |entries| + (if fileExists then 0 else 1)
    ensures entries != [] && !fileExists ==> records[0] == FieldNames
  {
    if entries == [] then []
    else (if fileExists then [] else [FieldNames]) + EntriesCells(entries, show)
  }

  /** The row `csv.DictReader` reads back for a record of cells under the header. */
  function RowOfCells(cells: seq<string>): Row
    requires |cells| == |FieldNames|
  {
    map i | 0 <= i < |FieldNames| :: FieldNames[i] := Some(cells[i])
  }

  /** An absent median is written as "" and read back as absent. */
  lemma AbsentMedianRoundTrip(e: HistoryEntry, show: Printers, parse: Parsers)
    requires e.medianTtfMinutes.None?
    ensures ParseOptionalFloat(Some(EntryCells(e, show)[5]), parse.toReal).None?
  {
  }

  /** Writing an entry and reading the row back gives the entry again, when
      `int()`/`float()` undo `str()` on its numbers. */
  lemma EntryRoundTrip(e: HistoryEntry, show: Printers, parse: Parsers)
    requires e.date != "" && e.subreddit != ""
    requires parse.toInt(show.intText(e.totalPosts)) == Some(e.totalPosts)
    requires parse.toInt(show.intText(e.unanswered)) == Some(e.unanswered)
    requires parse.toReal(show.realText(e.unansweredRate)) == Some(e.unansweredRate)
    requires e.medianTtfMinutes.Some? ==>
      show.realText(e.medianTtfMinutes.value) != ""
      && parse.toReal(show.realText(e.medianTtfMinutes.value)) == e.medianTtfMinutes
    ensures RowEntry(RowOfCells(EntryCells(e, show)), parse) == Some(e)
  {
    var cells := EntryCells(e, show);
    RowOfCellsReads(cells);
  }

  /** Each column of a row read back holds the cell written under it. */
  lemma RowOfCellsReads(cells: seq<string>)
    requires |cells| == |FieldNames|
    ensures var row := RowOfCells(cells);
      && Cell(row, "date") == Some(cells[0]) && Cell(row, "subreddit") == Some(cells[1])
      && "total_posts" in row && row["total_posts"] == Some(cells[2])
      && "unanswered" in row && row["unanswered"] == Some(cells[3])
      && "unanswered_rate" in row && row["unanswered_rate"] == Some(cells[4])
      && Cell(row, "median_ttf_minutes") == Some(cells[5])
  {
    assert FieldNames[0] == "date" && FieldNames[1] == "subreddit";
    assert FieldNames[2] == "total_posts" && FieldNames[3] == "unanswered";
    assert FieldNames[4] == "unanswered_rate" && FieldNames[5] == "median_ttf_minutes";
  }

  // ---------------------------------------------------------------------
  // Recent history of one community

  function DateOf(e: HistoryEntry): string { e.date }

  /** `[entry for entry in entries if entry.subreddit == subreddit]`. */
  function ForSubreddit(entries: seq<HistoryEntry>, subreddit: string): (r: seq<HistoryEntry>)
    ensures |r| <= |entries|
  {
    if entries == [] then []
    else (if entries[0].subreddit == subreddit then [entries[0]] else []) + ForSubreddit(entries[1..], subreddit)
  }

  lemma {:induction false} ForSubredditSound(entries: seq<HistoryEntry>, subreddit: string)
    ensures forall e :: e in ForSubreddit(entries, subreddit) ==> e.subreddit == subreddit
    ensures multiset(ForSubreddit(entries, subreddit)) <= multiset(entries)
  {
    if entries != [] {
      ForSubredditSound(entries[1..], subreddit);
      assert entries == [entries[0]] + entries[1..];
    }
  }

  /** `recent_history_for_subreddit`: that community's entries, newest date
      first (a stable sort on the ISO date text), cut to `limit`. */
  function RecentHistory(entries: seq<HistoryEntry>, subreddit: string, limit: int): (r: seq<HistoryEntry>)
    ensures |r| <= |entries|
    ensures limit >= 0 ==> |r| <= limit
  {
    PyPrefix(SortDesc(ForSubreddit(entries, subreddit), DateOf, LexLe), limit)
  }

  lemma LexLeIsTotalOrder()
    ensures TotalOrder(LexLe)
  {
    forall a ensures LexLe(a, a) { LexLeReflexive(a); }
    forall a, b | LexLe(a, b) && LexLe(b, a) ensures a == b { LexLeAntisymmetric(a, b); }
    forall a, b, c | LexLe(a, b) && LexLe(b, c) ensures LexLe(a, c) { LexLeTransitive(a, b, c); }
    forall a, b ensures LexLe(a, b) || LexLe(b, a) { LexLeTotal(a, b); }
  }

  lemma {:induction false} WithKeyPrefix<T, K>(s: seq<T>, n: nat, key: T -> K, k: K)
    requires n <= |s|
    ensures |WithKey(s[..n], key, k)| <= |WithKey(s, key, k)|
    ensures WithKey(s[..n], key, k) == WithKey(s, key, k)[..|WithKey(s[..n], key, k)|]
  {
    assert s == s[..n] + s[n..];
    WithKeyAppend(s[..n], s[n..], key, k);
  }

  /** The recent history holds only the requested community and at most
      `limit` of its entries, each taken from the input. */
  lemma RecentHistorySound(entries: seq<HistoryEntry>, subreddit: string, limit: int)
    ensures var r := RecentHistory(entries, subreddit, limit);
      && (forall e :: e in r ==> e.subreddit == subreddit)
      && (limit >= 0 ==> |r| <= limit)
      && multiset(r) <= multiset(entries)
  {
    var f := ForSubreddit(entries, subreddit);
    var sorted := SortDesc(f, DateOf, LexLe);
    var r := PyPrefix(sorted, limit);
    ForSubredditSound(entries, subreddit);
    PrefixSubMultiset(sorted, |r|);
    assert r == sorted[..|r|];
    assert multiset(r) <= multiset(f);
    forall e | e in r ensures e.subreddit == subreddit {
      assert e in multiset(r);
      assert e in multiset(f);
    }
  }

  lemma PrefixSubMultiset<T>(s: seq<T>, n: nat)
    requires n <= |s|
    ensures multiset(s[..n]) <= multiset(s)
  {
    assert s == s[..n] + s[n..];
  }

  /** Newest first: the recent history is a prefix of that community's
      entries sorted by date, so it is in descending date order and no
      entry left out is newer than one kept. */
  lemma RecentHistoryNewestFirst(entries: seq<HistoryEntry>, subreddit: string, limit: int)
    ensures var r := RecentHistory(entries, subreddit, limit);
      var sorted := SortDesc(ForSubreddit(entries, subreddit), DateOf, LexLe);
      && multiset(sorted) == multiset(ForSubreddit(entries, subreddit))
      && r == sorted[..|r|]
      && (forall i, j :: 0 <= i < j < |r| ==> LexLe(r[j].date, r[i].date))
      && (forall i, j :: 0 <= i < |r| <= j < |sorted| ==> LexLe(sorted[j].date, r[i].date))
  {
    var f := ForSubreddit(entries, subreddit);
    var sorted := SortDesc(f, DateOf, LexLe);
    var r := RecentHistory(entries, subreddit, limit);
    LexLeIsTotalOrder();
    SortDescSorted(f, DateOf, LexLe);
    assert r == sorted[..|r|];
    forall i, j | 0 <= i < j < |sorted| ensures LexLe(sorted[j].date, sorted[i].date) {
      assert LexLe(DateOf(sorted[j]), DateOf(sorted[i]));
    }
    forall i, j | 0 <= i < j < |r| ensures LexLe(r[j].date, r[i].date) {
      assert r[i] == sorted[i] && r[j] == sorted[j];
    }
    forall i, j | 0 <= i < |r| <= j < |sorted| ensures LexLe(sorted[j].date, r[i].date) {
      assert r[i] == sorted[i];
    }
  }

  /** Entries with the same date keep the order they had in the file. */
  lemma RecentHistoryStable(entries: seq<HistoryEntry>, subreddit: string, limit: int, date: string)
    ensures var r := RecentHistory(entries, subreddit, limit);
      var same := WithKey(ForSubreddit(entries, subreddit), DateOf, date);
      |WithKey(r, DateOf, date)| <= |same| && WithKey(r, DateOf, date) == same[..|WithKey(r, DateOf, date)|]
  {
    var f := ForSubreddit(entries, subreddit);
    var sorted := SortDesc(f, DateOf, LexLe);
    var r := RecentHistory(entries, subreddit, limit);
    LexLeIsTotalOrder();
    SortDescStable(f, DateOf, LexLe, date);
    assert r == sorted[..|r|];
    WithKeyPrefix(sorted, |r|, DateOf, date);
  }

  /** With the default limit, as the command-line run calls it, a community
      gets its six newest entries, or all of them when it has fewer. */
  lemma DefaultRecentHistory(entries: seq<HistoryEntry>, subreddit: string)
    ensures var r := RecentHistory(entries, subreddit, DefaultRecentLimit);
      var n := |ForSubreddit(entries, subreddit)|;
      && |r| == (if n < 6 then n else 6)
      && (forall e :: e in r ==> e.subreddit == subreddit)
  {
    RecentHistorySound(entries, subreddit, DefaultRecentLimit);
  }
}
