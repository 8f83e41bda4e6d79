/**
 * The consolidation script: read every weekly CSV of the backfill in sorted
 * file-name order, concatenate them, rename `id` to `transaction_id`, insist
 * on an `occurred_at` column, sort by it and keep the last row of each
 * transaction id. The concatenated table is a set of column names and a
 * sequence of rows; a row lacks the columns its own file did not have.
 */
module Consolidation {
  import opened Wrappers
  import opened Frames
  import Clock
  import HistoricalCashless

  const INPUT_DIR := "data/historical_cashless"
  const OUTPUT_PATH := "data/cashless_facts_full.csv"

  // ---------------------------------------------------------------------------
  // Orders and sorting
  // ---------------------------------------------------------------------------

  /** Python's `<=` on str: code point by code point, a proper prefix first. */
  predicate StrLe(a: string, b: string)
    decreases |a|
  {
    a == [] || (b != [] && (a[0] < b[0] || (a[0] == b[0] && StrLe(a[1..], b[1..]))))
  }

  lemma {:induction false} StrLeTotal(a: string, b: string)
    ensures StrLe(a, b) || StrLe(b, a)
    decreases |a|
  {
    if a != [] && b != [] && a[0] == b[0] {
      StrLeTotal(a[1..], b[1..]);
    }
  }

  lemma {:induction false} StrLeTransitive(a: string, b: string, c: string)
    requires StrLe(a, b) && StrLe(b, c)
    ensures StrLe(a, c)
    decreases |a|
  {
    if a != [] && a[0] == b[0] && b[0] == c[0] {
      StrLeTransitive(a[1..], b[1..], c[1..]);
    }
  }

  lemma {:induction false} StrLeAntisymmetric(a: string, b: string)
    requires StrLe(a, b) && StrLe(b, a)
    ensures a == b
    decreases |a|
  {
    if a != [] {
      StrLeAntisymmetric(a[1..], b[1..]);
      assert a == [a[0]] + a[1..] && b == [b[0]] + b[1..];
    }
  }

  /** `le` orders every pair and is transitive. */
  ghost predicate TotalPreorder<T(!new)>(le: (T, T) -> bool) {
    && (forall a, b :: le(a, b) || le(b, a))
    && (forall a, b, c :: le(a, b) && le(b, c) ==> le(a, c))
  }

  predicate SortedBy<T>(s: seq<T>, le: (T, T) -> bool) {
    forall i, j :: 0 <= i < j < |s| ==> le(s[i], s[j])
  }

  function InsertBy<T>(x: T, s: seq<T>, le: (T, T) -> bool): seq<T> {
    if s == [] || le(x, s[0]) then [x] + s else [s[0]] + InsertBy(x, s[1..], le)
  }

  /** A sort by `le`: insertion sort. */
  function SortBy<T>(s: seq<T>, le: (T, T) -> bool): seq<T> {
    if s == [] then [] else InsertBy(s[0], SortBy(s[1..], le), le)
  }

  lemma SortedByTail<T>(s: seq<T>, le: (T, T) -> bool)
    requires s != [] && SortedBy(s, le)
    ensures SortedBy(s[1..], le)
  {
    forall i, j | 0 <= i < j < |s| - 1
      ensures le(s[1..][i], s[1..][j])
    {
      assert s[1..][i] == s[i + 1] && s[1..][j] == s[j + 1];
    }
  }

  /** `a` is at or below every element of `s`. */
  predicate AtMostAll<T>(a: T, s: seq<T>, le: (T, T) -> bool) {
    forall k :: 0 <= k < |s| ==> le(a, s[k])
  }

  lemma SortedByCons<T>(a: T, s: seq<T>, le: (T, T) -> bool)
    requires AtMostAll(a, s, le) && SortedBy(s, le)
    ensures SortedBy([a] + s, le)
  {
    forall i, j | 0 <= i < j < |s| + 1
      ensures le(([a] + s)[i], ([a] + s)[j])
    {
      assert ([a] + s)[j] == s[j - 1];
      if i > 0 {
        assert ([a] + s)[i] == s[i - 1];
      }
    }
  }

  /** Being at or below every element does not depend on their order. */
  lemma AtMostAllPermuted<T>(a: T, s: seq<T>, t: seq<T>, le: (T, T) -> bool)
    requires multiset(s) == multiset(t) && AtMostAll(a, t, le)
    ensures AtMostAll(a, s, le)
  {
    forall k | 0 <= k < |s|
      ensures le(a, s[k])
    {
      assert s[k] in multiset(t);
      var m :| 0 <= m < |t| && t[m] == s[k];
    }
  }

  lemma {:induction false} InsertByPermutes<T>(x: T, s: seq<T>, le: (T, T) -> bool)
    ensures multiset(InsertBy(x, s, le)) == multiset(s) + multiset{x}
  {
    if s != [] && !le(x, s[0]) {
      InsertByPermutes(x, s[1..], le);
      assert s == [s[0]] + s[1..];
    }
  }

  lemma {:induction false} InsertBySorted<T(!new)>(x: T, s: seq<T>, le: (T, T) -> bool)
    requires TotalPreorder(le) && SortedBy(s, le)
    ensures SortedBy(InsertBy(x, s, le), le)
    ensures multiset(InsertBy(x, s, le)) == multiset(s) + multiset{x}
  {
    InsertByPermutes(x, s, le);
    if s == [] || le(x, s[0]) {
      assert AtMostAll(x, s, le) by {
        if s != [] {
          assert forall k :: 0 < k < |s| ==> le(s[0], s[k]);
        }
      }
      SortedByCons(x, s, le);
    } else {
      var tail := s[1..];
      SortedByTail(s, le);
      InsertBySorted(x, tail, le);
      var rest := InsertBy(x, tail, le);
      assert AtMostAll(s[0], [x] + tail, le) by {
        assert forall k :: 0 < k < |s| ==> le(s[0], s[k]);
        assert forall k :: 0 <= k < |tail| ==> tail[k] == s[k + 1];
      }
      AtMostAllPermuted(s[0], rest, [x] + tail, le);
      SortedByCons(s[0], rest, le);
    }
  }

  /** The sort returns its input, rearranged into order. */
  lemma {:induction false} SortBySorted<T(!new)>(s: seq<T>, le: (T, T) -> bool)
    requires TotalPreorder(le)
    ensures SortedBy(SortBy(s, le), le) && multiset(SortBy(s, le)) == multiset(s)
  {
    if s != [] {
      SortBySorted(s[1..], le);
      InsertBySorted(s[0], SortBy(s[1..], le), le);
      assert s == [s[0]] + s[1..];
    }
  }

  lemma StrLeIsTotalPreorder()
    ensures TotalPreorder(StrLe)
  {
    forall a: string, b: string
      ensures StrLe(a, b) || StrLe(b, a)
    {
      StrLeTotal(a, b);
    }
    forall a: string, b: string, c: string | StrLe(a, b) && StrLe(b, c)
      ensures StrLe(a, c)
    {
      StrLeTransitive(a, b, c);
    }
  }

  // ---------------------------------------------------------------------------
  // Finding and reading the files
  // ---------------------------------------------------------------------------

  /** `glob("data/historical_cashless/cashless_*.csv")`: the `*` matches anything but "/". */
  predicate MatchesPattern(path: string) {
    var prefix := INPUT_DIR + "/cashless_";
    && |path| >= |prefix| + 4
    && path[..|prefix|] == prefix
    && path[|path| - 4..] == ".csv"
    && '/' !in path[|prefix|..|path| - 4]
  }

  function Matching(listing: seq<string>): (r: seq<string>)
    ensures forall p :: p in r <==> p in listing && MatchesPattern(p)
  {
    if listing == [] then []
    else (if MatchesPattern(listing[0]) then [listing[0]] else []) + Matching(listing[1..])
  }

  /** `sorted(glob(...))` over the directory listing. */
  function CsvFiles(listing: seq<string>): seq<string> {
    SortBy(Matching(listing), StrLe)
  }

  /** The files are exactly the matching ones, in ascending name order. */
  lemma CsvFilesSorted(listing: seq<string>)
    ensures SortedBy(CsvFiles(listing), StrLe)
    ensures forall p :: p in CsvFiles(listing) <==> p in listing && MatchesPattern(p)
  {
    StrLeIsTotalPreorder();
    SortBySorted(Matching(listing), StrLe);
    forall p
      ensures p in CsvFiles(listing) <==> p in Matching(listing)
    {
      assert p in CsvFiles(listing) <==> p in multiset(CsvFiles(listing));
      assert p in Matching(listing) <==> p in multiset(Matching(listing));
    }
  }

  lemma NameMatches(a: string, b: string)
    requires '/' !in a && '/' !in b
    ensures MatchesPattern(INPUT_DIR + "/cashless_" + a + "_to_" + b + ".csv")
  {
    var prefix := INPUT_DIR + "/cashless_";
    var p := prefix + a + "_to_" + b + ".csv";
    assert p == prefix + (a + "_to_" + b) + ".csv";
    assert p[..|prefix|] == prefix;
    assert p[|prefix|..|p| - 4] == a + "_to_" + b;
    assert p[|p| - 4..] == ".csv";
  }

  /** Every file the backfill writes is one that consolidation picks up. */
  lemma BackfillFilesMatch(startDate: Clock.Instant, endDate: Clock.Instant)
    ensures MatchesPattern(HistoricalCashless.CsvName(startDate, endDate))
  {
    Clock.DateStringHasNoSlash(startDate);
    Clock.DateStringHasNoSlash(endDate);
    NameMatches(Clock.DateString(startDate), Clock.DateString(endDate));
  }

  datatype ConsolidateError = NoFiles | ReadFailed(path: string) | MissingOccurredAt

  /** A concatenated table: the union of the columns and the rows in order. */
  datatype Concatenated = Concatenated(columns: set<string>, rows: seq<Row>)

  /**
   * `[pd.read_csv(f) for f in files]` and `pd.concat(...)`: the files read in
   * the given order (`read` is None when read_csv raises), their rows one
   * after the other.
   */
  function ReadAll(paths: seq<string>, read: string -> Option<Frame>): Result<Concatenated, ConsolidateError> {
    if paths == [] then Ok(Concatenated({}, []))
    else match read(paths[0])
      case None => Err(ReadFailed(paths[0]))
      case Some(df) =>
        match ReadAll(paths[1..], read)
        case Err(e) => Err(e)
        case Ok(rest) => Ok(Concatenated((set c | c in Names(df)) + rest.columns, FrameRows(df) + rest.rows))
  }

  // ---------------------------------------------------------------------------
  // Rename, sort, deduplicate
  // ---------------------------------------------------------------------------

  /** `rename(columns={"id": "transaction_id"})` on one row. */
  function RenameRow(row: Row): Row {
    if "id" in row then (row - {"id"})["transaction_id" := row["id"]] else row
  }

  function RenameColumns(columns: set<string>): set<string> {
    if "id" in columns then columns - {"id"} + {"transaction_id"} else columns
  }

  function RenameRows(rows: seq<Row>): (r: seq<Row>)
    ensures |r| == |rows|
    ensures forall i :: 0 <= i < |rows| ==> r[i] == RenameRow(rows[i])
  {
    seq(|rows|, i requires 0 <= i < |rows| => RenameRow(rows[i]))
  }

  /** A row's transaction id (missing reads as NaN; drop_duplicates treats NaNs as equal). */
  function Id(row: Row): Value {
    Get(row, "transaction_id")
  }

  /** A row's `occurred_at` text as read from the CSV; None for a missing value. */
  function Occurred(row: Row): Option<string> {
    if "occurred_at" in row && row["occurred_at"].Str? then Some(row["occurred_at"].s) else None
  }

  /** `sort_values(by="occurred_at")`'s order: text order, missing values last. */
  predicate OccurredLe(a: Row, b: Row) {
    Occurred(b).None? || (Occurred(a).Some? && StrLe(Occurred(a).value, Occurred(b).value))
  }

  lemma OccurredLeIsTotalPreorder()
    ensures TotalPreorder(OccurredLe)
  {
    forall a: Row, b: Row
      ensures OccurredLe(a, b) || OccurredLe(b, a)
    {
      if Occurred(a).Some? && Occurred(b).Some? {
        StrLeTotal(Occurred(a).value, Occurred(b).value);
      }
    }
    forall a: Row, b: Row, c: Row | OccurredLe(a, b) && OccurredLe(b, c)
      ensures OccurredLe(a, c)
    {
      if Occurred(c).Some? {
        StrLeTransitive(Occurred(a).value, Occurred(b).value, Occurred(c).value);
      }
    }
  }

  /** `drop_duplicates(subset=["transaction_id"], keep="last")`: a row stays when no later row has its id. */
  function DedupKeepLast(rows: seq<Row>): seq<Row> {
    if rows == [] then []
    else (if Id(rows[0]) in IdSet(rows[1..]) then [] else [rows[0]]) + DedupKeepLast(rows[1..])
  }

  function IdSet(rows: seq<Row>): set<Value> {
    set i | 0 <= i < |rows| :: Id(rows[i])
  }

  predicate DistinctIds(rows: seq<Row>) {
    forall i, j :: 0 <= i < j < |rows| ==> Id(rows[i]) != Id(rows[j])
  }

  lemma IdSetCons(rows: seq<Row>)
    requires rows != []
    ensures IdSet(rows) == {Id(rows[0])} + IdSet(rows[1..])
  {
    forall v | v in IdSet(rows)
      ensures v in {Id(rows[0])} + IdSet(rows[1..])
    {
      var i :| 0 <= i < |rows| && Id(rows[i]) == v;
      if i > 0 {
        assert rows[1..][i - 1] == rows[i];
      }
    }
    forall v | v in IdSet(rows[1..])
      ensures v in IdSet(rows)
    {
      var i :| 0 <= i < |rows[1..]| && Id(rows[1..][i]) == v;
      assert rows[1..][i] == rows[i + 1];
    }
  }

  lemma {:induction false} DistinctIdsCount(rows: seq<Row>)
    requires DistinctIds(rows)
    ensures |IdSet(rows)| == |rows|
  {
    if rows != [] {
      IdSetCons(rows);
      DistinctIdsCount(rows[1..]);
      forall v | v in IdSet(rows[1..])
        ensures v != Id(rows[0])
      {
        var i :| 0 <= i < |rows[1..]| && Id(rows[1..][i]) == v;
        assert rows[1..][i] == rows[i + 1];
      }
    }
  }

  /** Deduplication keeps every id it is given and no other. */
  lemma {:induction false} DedupKeepsIds(rows: seq<Row>)
    ensures IdSet(DedupKeepLast(rows)) == IdSet(rows)
  {
    if rows != [] {
      DedupKeepsIds(rows[1..]);
      IdSetCons(rows);
      var kept := DedupKeepLast(rows);
      if Id(rows[0]) !in IdSet(rows[1..]) {
        IdSetCons(kept);
        assert kept[1..] == DedupKeepLast(rows[1..]);
      } else {
        assert kept == DedupKeepLast(rows[1..]);
      }
    }
  }

  /** No two kept rows share an id. */
  lemma {:induction false} DedupDistinct(rows: seq<Row>)
    ensures DistinctIds(DedupKeepLast(rows))
  {
    if rows != [] {
      DedupDistinct(rows[1..]);
      DedupKeepsIds(rows[1..]);
      var rest := DedupKeepLast(rows[1..]);
      var kept := DedupKeepLast(rows);
      if Id(rows[0]) !in IdSet(rows[1..]) {
        forall i, j | 0 <= i < j < |kept|
          ensures Id(kept[i]) != Id(kept[j])
        {
          assert kept[j] == rest[j - 1];
          assert Id(rest[j - 1]) in IdSet(rest);
          if i > 0 {
            assert kept[i] == rest[i - 1];
          }
        }
      }
    }
  }

  /** Every kept row is one of the input rows. */
  lemma {:induction false} DedupFromInput(rows: seq<Row>)
    ensures multiset(DedupKeepLast(rows)) <= multiset(rows)
  {
    if rows != [] {
      DedupFromInput(rows[1..]);
      assert rows == [rows[0]] + rows[1..];
    }
  }

  /**
   * Deduplication keeps exactly one row per id: the ids it keeps are the ids
   * it was given, each once; every kept row is one of the input rows, so the
   * number of rows dropped is the input size less the number of ids.
   */
  lemma DedupOnePerId(rows: seq<Row>)
    ensures var kept := DedupKeepLast(rows);
      && IdSet(kept) == IdSet(rows)
      && DistinctIds(kept)
      && multiset(kept) <= multiset(rows)
      && |rows| - |kept| == |rows| - |IdSet(rows)|
  {
    DedupKeepsIds(rows);
    DedupDistinct(rows);
    DedupFromInput(rows);
    DistinctIdsCount(DedupKeepLast(rows));
  }

  /** Every row of `kept` has the greatest `occurred_at` among the rows of `rows` with its id. */
  predicate LatestPerId(rows: seq<Row>, kept: seq<Row>) {
    forall i, k :: 0 <= i < |kept| && 0 <= k < |rows| && Id(rows[k]) == Id(kept[i]) ==> OccurredLe(rows[k], kept[i])
  }

  /** The step of DedupKeepsLatest: the first row is kept only when no later row has its id. */
  lemma LatestPerIdCons(rows: seq<Row>)
    requires rows != [] && SortedBy(rows, OccurredLe)
    requires LatestPerId(rows[1..], DedupKeepLast(rows[1..]))
    requires multiset(DedupKeepLast(rows[1..])) <= multiset(rows[1..])
    ensures LatestPerId(rows, DedupKeepLast(rows))
  {
    forall i, k | 0 <= i < |DedupKeepLast(rows)| && 0 <= k < |rows| && Id(rows[k]) == Id(DedupKeepLast(rows)[i])
      ensures OccurredLe(rows[k], DedupKeepLast(rows)[i])
    {
      KeptRowIsLatest(rows, i, k);
    }
  }

  /** Kept row i is at least every row with its id. */
  lemma KeptRowIsLatest(rows: seq<Row>, i: nat, k: nat)
    requires rows != [] && SortedBy(rows, OccurredLe)
    requires LatestPerId(rows[1..], DedupKeepLast(rows[1..]))
    requires multiset(DedupKeepLast(rows[1..])) <= multiset(rows[1..])
    requires i < |DedupKeepLast(rows)| && k < |rows| && Id(rows[k]) == Id(DedupKeepLast(rows)[i])
    ensures OccurredLe(rows[k], DedupKeepLast(rows)[i])
  {
    var dropped := Id(rows[0]) in IdSet(rows[1..]);
    if !dropped && i == 0 {
      DedupKeepsHead(rows);
      KeptHeadIsLatest(rows, k);
    } else {
      var j := if dropped then i else i - 1;
      if dropped {
        DedupDropsHead(rows);
      } else {
        KeptAfterHead(rows, i);
      }
      RestRowIsLatest(rows, j, k);
    }
  }

  /** Row i of what the tail keeps is at least every row with its id. */
  lemma RestRowIsLatest(rows: seq<Row>, i: nat, k: nat)
    requires rows != [] && SortedBy(rows, OccurredLe)
    requires LatestPerId(rows[1..], DedupKeepLast(rows[1..]))
    requires multiset(DedupKeepLast(rows[1..])) <= multiset(rows[1..])
    requires i < |DedupKeepLast(rows[1..])| && k < |rows| && Id(rows[k]) == Id(DedupKeepLast(rows[1..])[i])
    ensures OccurredLe(rows[k], DedupKeepLast(rows[1..])[i])
  {
    var rest := DedupKeepLast(rows[1..]);
    var r := rest[i];
    assert r in multiset(rows[1..]) by {
      assert r in multiset(rest);
    }
    KeptTailRowIsLatest(rows, rest, r, k);
  }

  lemma DedupDropsHead(rows: seq<Row>)
    requires rows != [] && Id(rows[0]) in IdSet(rows[1..])
    ensures DedupKeepLast(rows) == DedupKeepLast(rows[1..])
  {
  }

  lemma DedupKeepsHead(rows: seq<Row>)
    requires rows != [] && Id(rows[0]) !in IdSet(rows[1..])
    ensures DedupKeepLast(rows) == [rows[0]] + DedupKeepLast(rows[1..])
  {
  }

  lemma KeptAfterHead(rows: seq<Row>, i: nat)
    requires rows != [] && Id(rows[0]) !in IdSet(rows[1..])
    requires 0 < i < |DedupKeepLast(rows)|
    ensures i - 1 < |DedupKeepLast(rows[1..])| && DedupKeepLast(rows)[i] == DedupKeepLast(rows[1..])[i - 1]
  {
    DedupKeepsHead(rows);
  }

  /** A first row kept because no later row has its id is the only row with that id. */
  lemma KeptHeadIsLatest(rows: seq<Row>, k: nat)
    requires rows != [] && Id(rows[0]) !in IdSet(rows[1..])
    requires k < |rows| && Id(rows[k]) == Id(rows[0])
    ensures OccurredLe(rows[k], rows[0])
  {
    LaterIdInTail(rows, k);
    if Occurred(rows[0]).Some? {
      StrLeTotal(Occurred(rows[0]).value, Occurred(rows[0]).value);
    }
  }

  lemma LaterIdInTail(rows: seq<Row>, k: nat)
    requires k < |rows|
    ensures k > 0 ==> Id(rows[k]) in IdSet(rows[1..])
  {
    if k > 0 {
      assert rows[k] == rows[1..][k - 1];
    }
  }

  /** A row kept from the tail is at least every row with its id, the first row included by the sort. */
  lemma KeptTailRowIsLatest(rows: seq<Row>, rest: seq<Row>, r: Row, k: nat)
    requires rows != [] && SortedBy(rows, OccurredLe)
    requires LatestPerId(rows[1..], rest)
    requires r in rest && r in multiset(rows[1..])
    requires k < |rows| && Id(rows[k]) == Id(r)
    ensures OccurredLe(rows[k], r)
  {
    var tail := rows[1..];
    if k == 0 {
      var m :| 0 <= m < |tail| && tail[m] == r;
      assert rows[m + 1] == r;
    } else {
      var i :| 0 <= i < |rest| && rest[i] == r;
      assert rows[k] == tail[k - 1];
    }
  }

  /**
   * On rows sorted by `occurred_at`, every kept row has the greatest
   * `occurred_at` among the rows with its id (missing counting as greatest).
   * Which of several rows with equal greatest values is kept is not stated.
   */
  lemma {:induction false} DedupKeepsLatest(rows: seq<Row>)
    requires SortedBy(rows, OccurredLe)
    ensures LatestPerId(rows, DedupKeepLast(rows))
  {
    if rows != [] {
      SortedByTail(rows, OccurredLe);
      DedupKeepsLatest(rows[1..]);
      DedupFromInput(rows[1..]);
      LatestPerIdCons(rows);
    }
  }

  /**
   * The two facts above hold for every ordering the sort may produce: for any
   * rearrangement of the rows that is sorted by `occurred_at`, keeping the
   * last row per id yields one input row per input id, each with its id's
   * greatest `occurred_at`.
   */
  lemma AnySortedOrder(rows: seq<Row>, sorted: seq<Row>)
    requires multiset(sorted) == multiset(rows) && SortedBy(sorted, OccurredLe)
    ensures var kept := DedupKeepLast(sorted);
      && IdSet(kept) == IdSet(rows)
      && DistinctIds(kept)
      && |sorted| - |kept| == |rows| - |IdSet(rows)|
      && multiset(kept) <= multiset(rows)
      && forall i, k :: 0 <= i < |kept| && 0 <= k < |rows| && Id(rows[k]) == Id(kept[i]) ==> OccurredLe(rows[k], kept[i])
  {
    var kept := DedupKeepLast(sorted);
    DedupOnePerId(sorted);
    DedupKeepsLatest(sorted);
    DedupFromInput(sorted);
    assert |sorted| == |rows| by {
      assert |multiset(sorted)| == |multiset(rows)|;
    }
    forall v | v in IdSet(rows)
      ensures v in IdSet(sorted)
    {
      var k :| 0 <= k < |rows| && Id(rows[k]) == v;
      assert rows[k] in multiset(sorted);
      var m :| 0 <= m < |sorted| && sorted[m] == rows[k];
    }
    forall v | v in IdSet(sorted)
      ensures v in IdSet(rows)
    {
      var k :| 0 <= k < |sorted| && Id(sorted[k]) == v;
      assert sorted[k] in multiset(rows);
      var m :| 0 <= m < |rows| && rows[m] == sorted[k];
    }
    forall i, k | 0 <= i < |kept| && 0 <= k < |rows| && Id(rows[k]) == Id(kept[i])
      ensures OccurredLe(rows[k], kept[i])
    {
      assert rows[k] in multiset(sorted);
      var m :| 0 <= m < |sorted| && sorted[m] == rows[k];
    }
  }

  // ---------------------------------------------------------------------------
  // The script
  // ---------------------------------------------------------------------------

  /** The consolidated table and the number of duplicate rows dropped. */
  datatype Consolidated = Consolidated(columns: set<string>, rows: seq<Row>, dropped: int)

  /** The rows that go into the sort: the concatenated rows with `id` renamed. */
  function Combined(listing: seq<string>, read: string -> Option<Frame>): Result<Concatenated, ConsolidateError> {
    var paths := CsvFiles(listing);
    if paths == [] then Err(NoFiles)
    else match ReadAll(paths, read)
      case Err(e) => Err(e)
      case Ok(t) => Ok(Concatenated(RenameColumns(t.columns), RenameRows(t.rows)))
  }

  /** The whole script, from the directory listing and what reading each file gives. */
  function Consolidate(listing: seq<string>, read: string -> Option<Frame>): Result<Consolidated, ConsolidateError> {
    match Combined(listing, read)
    case Err(e) => Err(e)
    case Ok(t) =>
      if "occurred_at" !in t.columns then Err(MissingOccurredAt)
      else
        var sorted := SortBy(t.rows, OccurredLe);
        var kept := DedupKeepLast(sorted);
        Ok(Consolidated(t.columns, kept, |sorted| - |kept|))
  }

  /**
   * A run that succeeds outputs one of its input rows per transaction id of
   * its input, each row with its id's greatest `occurred_at`, and reports as
   * dropped the input size less the number of ids.
   */
  lemma ConsolidatedOnePerLatestId(listing: seq<string>, read: string -> Option<Frame>)
    requires Consolidate(listing, read).Ok?
    ensures var input := Combined(listing, read).value.rows;
      var out := Consolidate(listing, read).value;
      && IdSet(out.rows) == IdSet(input)
      && DistinctIds(out.rows)
      && out.dropped == |input| - |IdSet(input)|
      && multiset(out.rows) <= multiset(input)
      && forall i, k :: 0 <= i < |out.rows| && 0 <= k < |input| && Id(input[k]) == Id(out.rows[i]) ==>
           OccurredLe(input[k], out.rows[i])
  {
    var input := Combined(listing, read).value.rows;
    OccurredLeIsTotalPreorder();
    SortBySorted(input, OccurredLe);
    AnySortedOrder(input, SortBy(input, OccurredLe));
  }

  /**
   * The script stops before sorting exactly when: there is no matching file,
   * a file cannot be read, or no file has an `occurred_at` column.
   */
  lemma ConsolidateFailures(listing: seq<string>, read: string -> Option<Frame>)
    ensures CsvFiles(listing) == [] ==> Consolidate(listing, read) == Err(NoFiles)
    ensures Combined(listing, read).Ok? ==>
      (Consolidate(listing, read) == Err(MissingOccurredAt) <==> "occurred_at" !in Combined(listing, read).value.columns)
    ensures Combined(listing, read).Err? ==> Consolidate(listing, read) == Err(Combined(listing, read).error)
    ensures Combined(listing, read).Ok? && "occurred_at" in Combined(listing, read).value.columns ==>
      Consolidate(listing, read).Ok?
  {
  }

  /** The columns of the concatenation are the union of the files' columns, and it holds all their rows. */
  lemma {:induction false} ReadAllConcatenates(paths: seq<string>, read: string -> Option<Frame>)
    requires forall i :: 0 <= i < |paths| ==> read(paths[i]).Some?
    ensures ReadAll(paths, read).Ok?
    ensures forall c :: c in ReadAll(paths, read).value.columns <==>
      exists i :: 0 <= i < |paths| && c in Names(read(paths[i]).value)
    ensures |ReadAll(paths, read).value.rows| == SumRows(paths, read)
  {
    if paths != [] {
      ReadAllConcatenates(paths[1..], read);
      forall c | c in ReadAll(paths, read).value.columns
        ensures exists i :: 0 <= i < |paths| && c in Names(read(paths[i]).value)
      {
        if c !in Names(read(paths[0]).value) {
          var i :| 0 <= i < |paths[1..]| && c in Names(read(paths[1..][i]).value);
          assert paths[1..][i] == paths[i + 1];
        }
      }
      forall c | exists i :: 0 <= i < |paths| && c in Names(read(paths[i]).value)
        ensures c in ReadAll(paths, read).value.columns
      {
        var i :| 0 <= i < |paths| && c in Names(read(paths[i]).value);
        if i > 0 {
          assert paths[1..][i - 1] == paths[i];
        }
      }
    }
  }

  /** The total number of rows in the files. */
  function SumRows(paths: seq<string>, read: string -> Option<Frame>): nat
    requires forall i :: 0 <= i < |paths| ==> read(paths[i]).Some?
  {
    if paths == [] then 0 else NRows(read(paths[0]).value) + SumRows(paths[1..], read)
  }
}
