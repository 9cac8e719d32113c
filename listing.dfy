/** The collection listing page: the series of the catalog joined with the
    current user's nexos, narrowed by a search text, ordered by viewing state,
    year and season, and cut into pages of 24. */
module Listing {
  import opened Wrappers
  import opened JsText
  import opened JsNumber
  import opened JsArray
  import opened Records

  const PageSize: nat := 24

  // ---------------------------------------------------------------------
  // Ranks used by the comparator

  /** The three viewing states the comparator knows. */
  predicate KnownState(state: string) {
    state == "En emision" || state == "Finalizado" || state == "Completado"
  }

  /** The `estados` table: En emision 0, Finalizado 1, Completado 2. */
  function StateRank(state: string): (r: int)
    requires KnownState(state)
    ensures 0 <= r < 3
  {
    if state == "En emision" then 0 else if state == "Finalizado" then 1 else 2
  }

  /** The sort tables in order: an airing series comes before a finished one,
      and a finished one before a completed one; within a year the seasons run
      Invierno, Primavera, Verano, Otoño, and an unknown season ranks with
      Invierno. */
  lemma RankTables(unknown: string)
    requires unknown !in ["Invierno", "Primavera", "Verano", "Otoño"]
    ensures StateRank("En emision") < StateRank("Finalizado") < StateRank("Completado")
    ensures SeasonRank("Invierno") < SeasonRank("Primavera") < SeasonRank("Verano") < SeasonRank("Otoño")
    ensures SeasonRank(unknown) == SeasonRank("Invierno")
  {
  }

  /** `seasons[s] ?? 0`: Invierno 0, Primavera 1, Verano 2, Otoño 3, any other 0. */
  function SeasonRank(season: string): (r: int)
    ensures 0 <= r <= 3
  {
    if season == "Invierno" then 0
    else if season == "Primavera" then 1
    else if season == "Verano" then 2
    else if season == "Otoño" then 3
    else 0
  }

  // ---------------------------------------------------------------------
  // Step 1: the series id -> nexo lookup for the current user

  /** `nexo.users_id === userID`. */
  predicate Owned(n: Nexo, userId: Num) {
    userId == Int(n.usersId)
  }

  /** Nexo `n` is one of the user's and is about series `k`. */
  predicate Points(n: Nexo, userId: Num, k: int) {
    Owned(n, userId) && n.seriesId == k
  }

  /** The map the `forEach` loop leaves behind, defined over the list from its
      last element backwards. */
  function NexoMapOf(nexos: seq<Nexo>, userId: Num): map<int, Nexo> {
    if nexos == [] then map[]
    else
      var m := NexoMapOf(nexos[..|nexos| - 1], userId);
      var n := nexos[|nexos| - 1];
      if Owned(n, userId) then m[n.seriesId := n] else m
  }

  /** The `forEach` loop that fills `nexosMap` with `Map.set`. */
  method BuildNexoMap(nexos: seq<Nexo>, userId: Num) returns (m: map<int, Nexo>)
    ensures m == NexoMapOf(nexos, userId)
  {
    m := map[];
    var i := 0;
    while i < |nexos|
      invariant 0 <= i <= |nexos|
      invariant m == NexoMapOf(nexos[..i], userId)
    {
      var n := nexos[i];
      if userId.Int? && n.usersId == userId.value {
        m := m[n.seriesId := n];
      }
      assert nexos[..i + 1][..i] == nexos[..i];
      i := i + 1;
    }
    assert nexos[..|nexos|] == nexos;
  }

  /** A series id is a key exactly when one of the user's nexos points at it,
      and its value is the last such nexo in list order. */
  lemma {:induction false} NexoMapLastWins(nexos: seq<Nexo>, userId: Num, k: int)
    ensures k in NexoMapOf(nexos, userId) <==>
      exists j :: 0 <= j < |nexos| && Points(nexos[j], userId, k)
    ensures k in NexoMapOf(nexos, userId) ==>
      exists j :: 0 <= j < |nexos| && Points(nexos[j], userId, k) &&
        NexoMapOf(nexos, userId)[k] == nexos[j] &&
        forall j' :: j < j' < |nexos| ==> !Points(nexos[j'], userId, k)
  {
    if nexos != [] {
      var init := nexos[..|nexos| - 1];
      var last := |nexos| - 1;
      NexoMapLastWins(init, userId, k);
      assert forall j :: 0 <= j < |init| ==> init[j] == nexos[j];
      if !Points(nexos[last], userId, k) {
        if k in NexoMapOf(nexos, userId) {
          var j :| 0 <= j < |init| && Points(init[j], userId, k) &&
            NexoMapOf(init, userId)[k] == init[j] &&
            forall j' :: j < j' < |init| ==> !Points(init[j'], userId, k);
          assert NexoMapOf(nexos, userId)[k] == nexos[j];
        }
      }
    }
  }

  /** Every value of the lookup is one of the user's nexos, filed under its own series id. */
  lemma {:induction false} NexoMapOwned(nexos: seq<Nexo>, userId: Num)
    ensures forall k :: k in NexoMapOf(nexos, userId) ==>
      Points(NexoMapOf(nexos, userId)[k], userId, k) && NexoMapOf(nexos, userId)[k] in nexos
  {
    if nexos != [] {
      var init := nexos[..|nexos| - 1];
      NexoMapOwned(init, userId);
      assert forall n :: n in init ==> n in nexos;
    }
  }

  // ---------------------------------------------------------------------
  // Step 2: the search filter

  /** `searchSerie ? name.toLowerCase().includes(searchSerie.toLowerCase()) : true`. */
  predicate MatchesSearch(name: string, search: string) {
    search == "" || Contains(Lower(name), Lower(search))
  }

  function SearchFilter(series: seq<Serie>, search: string): (r: seq<Serie>)
    ensures search == "" ==> r == series
    ensures forall s :: s in r <==> s in series && MatchesSearch(s.name, search)
  {
    var keep := (s: Serie) => MatchesSearch(s.name, search);
    FilterKeepsAll(series, keep);
    Filter(series, keep)
  }

  // ---------------------------------------------------------------------
  // Step 3: the join

  /** `map` to `{ ...nexo, ...serie }` or null, then `filter` out the nulls. */
  function JoinRows(series: seq<Serie>, m: map<int, Nexo>): (r: seq<Row>)
    ensures |r| <= |series|
    ensures forall row :: row in r ==>
      row.id in m && SerieOf(row) in series && row == Merge(m[row.id], SerieOf(row))
    ensures forall s :: s in series && s.id in m ==> Merge(m[s.id], s) in r
  {
    if series == [] then []
    else
      var s := series[0];
      (if s.id in m then [Merge(m[s.id], s)] else []) + JoinRows(series[1..], m)
  }

  /** The join keeps the order of the series list: joining two lists one after
      the other gives the rows of the first, then those of the second. */
  lemma {:induction false} JoinRowsAppend(a: seq<Serie>, b: seq<Serie>, m: map<int, Nexo>)
    ensures JoinRows(a + b, m) == JoinRows(a, m) + JoinRows(b, m)
  {
    if a == [] {
      assert a + b == b;
    } else {
      assert (a + b)[0] == a[0];
      assert (a + b)[1..] == a[1..] + b;
      JoinRowsAppend(a[1..], b, m);
    }
  }

  // ---------------------------------------------------------------------
  // Step 4: the comparator and the sort

  /** The comparator passed to `sort`, for rows whose state is known. */
  function Compare(a: Row, b: Row): (r: int)
    requires KnownState(a.state) && KnownState(b.state)
    ensures r == 0 <==>
      StateRank(a.state) == StateRank(b.state) && a.year == b.year &&
      SeasonRank(a.season) == SeasonRank(b.season)
  {
    var stateDiff := StateRank(a.state) - StateRank(b.state);
    if stateDiff != 0 then stateDiff
    else
      var yearDiff := b.year - a.year;
      if yearDiff != 0 then yearDiff
      else SeasonRank(b.season) - SeasonRank(a.season)
  }

  /** What the comparator looks at: two rows compare equal exactly when these agree. */
  function SortKey(r: Row): (int, int, int)
    requires KnownState(r.state)
  {
    (StateRank(r.state), r.year, SeasonRank(r.season))
  }

  /** `a` sorts strictly before `b` exactly when its state ranks lower, or the
      states tie and its year is later, or both tie and its season ranks higher. */
  lemma CompareOrder(a: Row, b: Row)
    requires KnownState(a.state) && KnownState(b.state)
    ensures Compare(a, b) < 0 <==>
      StateRank(a.state) < StateRank(b.state) ||
      (StateRank(a.state) == StateRank(b.state) && a.year > b.year) ||
      (StateRank(a.state) == StateRank(b.state) && a.year == b.year &&
       SeasonRank(a.season) > SeasonRank(b.season))
    ensures Compare(a, b) == 0 <==> SortKey(a) == SortKey(b)
    ensures Compare(b, a) == -Compare(a, b)
  {
  }

  lemma CompareTransitive(a: Row, b: Row, c: Row)
    requires KnownState(a.state) && KnownState(b.state) && KnownState(c.state)
    requires Compare(a, b) <= 0 && Compare(b, c) <= 0
    ensures Compare(a, c) <= 0
  {
  }

  predicate AllKnown(rows: seq<Row>) {
    forall r :: r in rows ==> KnownState(r.state)
  }

  /** Every pair of rows is in comparator order. */
  predicate Sorted(rows: seq<Row>)
    requires AllKnown(rows)
  {
    forall i, j :: 0 <= i < j < |rows| ==> Compare(rows[i], rows[j]) <= 0
  }

  /** Insert `x` before the first row it does not sort after. */
  function Insert(x: Row, t: seq<Row>): (r: seq<Row>)
    requires KnownState(x.state) && AllKnown(t)
    ensures multiset(r) == multiset(t) + multiset{x}
    ensures AllKnown(r)
  {
    if t == [] then [x]
    else if Compare(x, t[0]) <= 0 then [x] + t
    else
      assert t == [t[0]] + t[1..];
      [t[0]] + Insert(x, t[1..])
  }

  /** A stable insertion sort under `Compare`, as JavaScript's stable `sort`. */
  function SortRows(rows: seq<Row>): (r: seq<Row>)
    requires AllKnown(rows)
    ensures multiset(r) == multiset(rows)
    ensures |r| == |rows| && AllKnown(r)
  {
    if rows == [] then []
    else
      assert rows == [rows[0]] + rows[1..];
      Insert(rows[0], SortRows(rows[1..]))
  }

  /** `x` sorts no later than any row of `t`. */
  predicate LeAll(x: Row, t: seq<Row>)
    requires KnownState(x.state) && AllKnown(t)
  {
    forall y :: y in t ==> Compare(x, y) <= 0
  }

  lemma ConsSorted(x: Row, t: seq<Row>)
    requires KnownState(x.state) && AllKnown(t) && LeAll(x, t) && Sorted(t)
    ensures AllKnown([x] + t) && Sorted([x] + t)
  {
    var r := [x] + t;
    forall i, j | 0 <= i < j < |r| ensures Compare(r[i], r[j]) <= 0 {
      if i == 0 {
        assert r[j] == t[j - 1] && r[j] in t;
      } else {
        assert r[i] == t[i - 1] && r[j] == t[j - 1];
      }
    }
  }

  lemma HeadLeAll(x: Row, t: seq<Row>)
    requires KnownState(x.state) && AllKnown(t) && t != [] && Sorted(t)
    requires Compare(x, t[0]) <= 0
    ensures LeAll(x, t)
  {
    forall y | y in t ensures Compare(x, y) <= 0 {
      var k :| 0 <= k < |t| && t[k] == y;
      if k > 0 {
        CompareTransitive(x, t[0], y);
      }
    }
  }

  lemma TailLeAll(t: seq<Row>)
    requires AllKnown(t) && t != [] && Sorted(t)
    ensures t[0] in t && LeAll(t[0], t[1..])
  {
    forall y | y in t[1..] ensures Compare(t[0], y) <= 0 {
      var k :| 0 <= k < |t[1..]| && t[1..][k] == y;
      assert t[k + 1] == y;
    }
  }

  lemma {:induction false} InsertSorted(x: Row, t: seq<Row>)
    requires KnownState(x.state) && AllKnown(t) && Sorted(t)
    ensures Sorted(Insert(x, t))
  {
    if t != [] {
      if Compare(x, t[0]) <= 0 {
        HeadLeAll(x, t);
        ConsSorted(x, t);
      } else {
        var rest := Insert(x, t[1..]);
        assert Sorted(t[1..]) by {
          forall i, j | 0 <= i < j < |t[1..]| ensures Compare(t[1..][i], t[1..][j]) <= 0 {
            assert t[1..][i] == t[i + 1] && t[1..][j] == t[j + 1];
          }
        }
        InsertSorted(x, t[1..]);
        TailLeAll(t);
        CompareOrder(x, t[0]);
        assert LeAll(t[0], rest) by {
          forall y | y in rest ensures Compare(t[0], y) <= 0 {
            assert y in multiset(rest);
          }
        }
        ConsSorted(t[0], rest);
      }
    }
  }

  lemma {:induction false} SortRowsSorted(rows: seq<Row>)
    requires AllKnown(rows)
    ensures Sorted(SortRows(rows))
  {
    if rows != [] {
      assert rows == [rows[0]] + rows[1..];
      SortRowsSorted(rows[1..]);
      InsertSorted(rows[0], SortRows(rows[1..]));
    }
  }

  /** `r` alone when its sort key is `k`, nothing otherwise. */
  function Tie(r: Row, k: (int, int, int)): (t: seq<Row>)
    requires KnownState(r.state)
    ensures t == [] || t == [r]
  {
    if SortKey(r) == k then [r] else []
  }

  /** The rows whose sort key is `k`, in order. */
  function Ties(rows: seq<Row>, k: (int, int, int)): seq<Row>
    requires AllKnown(rows)
  {
    if rows == [] then []
    else
      assert rows[0] in rows;
      Tie(rows[0], k) + Ties(rows[1..], k)
  }

  lemma SortedTail(t: seq<Row>)
    requires AllKnown(t) && Sorted(t) && t != []
    ensures AllKnown(t[1..]) && Sorted(t[1..])
  {
    forall i, j | 0 <= i < j < |t| - 1
      ensures Compare(t[1..][i], t[1..][j]) <= 0
    {
      assert t[1..][i] == t[i + 1] && t[1..][j] == t[j + 1];
    }
  }

  lemma TiesCons(y: Row, rest: seq<Row>, k: (int, int, int))
    requires KnownState(y.state) && AllKnown(rest)
    ensures AllKnown([y] + rest)
    ensures Ties([y] + rest, k) == Tie(y, k) + Ties(rest, k)
  {
    assert ([y] + rest)[0] == y && ([y] + rest)[1..] == rest;
  }

  /** Two rows the comparator separates cannot both have key `k`. */
  lemma TieApart(x: Row, y: Row, k: (int, int, int))
    requires KnownState(x.state) && KnownState(y.state) && Compare(x, y) != 0
    ensures Tie(x, k) == [] || Tie(y, k) == []
  {
    CompareOrder(x, y);
  }

  lemma SwapEmpty(a: seq<Row>, b: seq<Row>, c: seq<Row>)
    requires a == [] || b == []
    ensures a + (b + c) == b + (a + c)
  {
    if a == [] {
      assert a + (b + c) == b + c == b + (a + c);
    } else {
      assert a + (b + c) == a + c == b + (a + c);
    }
  }

  lemma {:induction false} InsertTies(x: Row, t: seq<Row>, k: (int, int, int))
    requires KnownState(x.state) && AllKnown(t) && Sorted(t)
    ensures Ties(Insert(x, t), k) == Tie(x, k) + Ties(t, k)
  {
    if t != [] {
      if Compare(x, t[0]) <= 0 {
        assert Insert(x, t) == [x] + t;
        TiesCons(x, t, k);
      } else {
        SortedTail(t);
        InsertTies(x, t[1..], k);
        InsertTiesAfterHead(x, t, k);
      }
    }
  }

  /** The step of `InsertTies` where `x` goes after the head of `t`. */
  lemma InsertTiesAfterHead(x: Row, t: seq<Row>, k: (int, int, int))
    requires KnownState(x.state) && AllKnown(t) && t != [] && Compare(x, t[0]) > 0
    requires Ties(Insert(x, t[1..]), k) == Tie(x, k) + Ties(t[1..], k)
    ensures Ties(Insert(x, t), k) == Tie(x, k) + Ties(t, k)
  {
    var h, rest := t[0], t[1..];
    assert t == [h] + rest;
    assert Insert(x, t) == [h] + Insert(x, rest);
    TiesCons(h, Insert(x, rest), k);
    TiesCons(h, rest, k);
    TieApart(x, h, k);
    SwapEmpty(Tie(h, k), Tie(x, k), Ties(rest, k));
  }

  /** Stability: rows the comparator cannot tell apart keep their input order. */
  lemma {:induction false} SortRowsStable(rows: seq<Row>, k: (int, int, int))
    requires AllKnown(rows)
    ensures Ties(SortRows(rows), k) == Ties(rows, k)
  {
    if rows != [] {
      assert rows == [rows[0]] + rows[1..];
      SortRowsStable(rows[1..], k);
      SortRowsSorted(rows[1..]);
      InsertTies(rows[0], SortRows(rows[1..]), k);
    }
  }

  // ---------------------------------------------------------------------
  // The whole derivation

  /** Every nexo of the user carries a state the comparator knows. */
  predicate UserStatesKnown(nexos: seq<Nexo>, userId: Num) {
    forall n :: n in nexos && Owned(n, userId) ==> KnownState(n.state)
  }

  lemma JoinedKnown(nexos: seq<Nexo>, userId: Num, series: seq<Serie>)
    requires UserStatesKnown(nexos, userId)
    ensures AllKnown(JoinRows(series, NexoMapOf(nexos, userId)))
  {
    NexoMapOwned(nexos, userId);
  }

  /** `filteredData`: empty while either list is empty; otherwise the search
      filter, then the join with the user's nexos, then the sort. */
  function FilteredData(series: seq<Serie>, nexos: seq<Nexo>, search: string, userId: Num): (r: seq<Row>)
    requires UserStatesKnown(nexos, userId)
    ensures series == [] || nexos == [] ==> r == []
    ensures |r| <= |series|
    ensures AllKnown(r)
  {
    if |series| == 0 || |nexos| == 0 then []
    else
      var rows := JoinRows(SearchFilter(series, search), NexoMapOf(nexos, userId));
      JoinedKnown(nexos, userId, SearchFilter(series, search));
      SortRows(rows)
  }

  /** The listing is in comparator order. */
  lemma ListingSorted(series: seq<Serie>, nexos: seq<Nexo>, search: string, userId: Num)
    requires UserStatesKnown(nexos, userId)
    ensures Sorted(FilteredData(series, nexos, search, userId))
  {
    if |series| != 0 && |nexos| != 0 {
      JoinedKnown(nexos, userId, SearchFilter(series, search));
      SortRowsSorted(JoinRows(SearchFilter(series, search), NexoMapOf(nexos, userId)));
    }
  }

  /** A row is listed exactly when it merges a series matching the search with
      the user's nexo for that series; each listed row's nexo belongs to the
      user and is about that very series. */
  lemma ListingMembers(series: seq<Serie>, nexos: seq<Nexo>, search: string, userId: Num, row: Row)
    requires UserStatesKnown(nexos, userId) && series != [] && nexos != []
    ensures var m := NexoMapOf(nexos, userId);
      row in FilteredData(series, nexos, search, userId) <==>
        SerieOf(row) in series && MatchesSearch(row.name, search) &&
        row.id in m && row == Merge(m[row.id], SerieOf(row))
    ensures row in FilteredData(series, nexos, search, userId) ==>
      userId == Int(row.usersId) && row.seriesId == row.id
  {
    var m := NexoMapOf(nexos, userId);
    var found := SearchFilter(series, search);
    var rows := JoinRows(found, m);
    JoinedKnown(nexos, userId, found);
    NexoMapOwned(nexos, userId);
    assert row in FilteredData(series, nexos, search, userId) <==> row in rows by {
      assert row in multiset(SortRows(rows)) <==> row in multiset(rows);
    }
    if SerieOf(row) in series && MatchesSearch(row.name, search) &&
       row.id in m && row == Merge(m[row.id], SerieOf(row)) {
      assert SerieOf(row) in found;
    }
  }

  /** Rows the comparator ties on appear in the order of the series list. */
  lemma ListingStable(series: seq<Serie>, nexos: seq<Nexo>, search: string, userId: Num, k: (int, int, int))
    requires UserStatesKnown(nexos, userId) && series != [] && nexos != []
    ensures var rows := JoinRows(SearchFilter(series, search), NexoMapOf(nexos, userId));
      AllKnown(rows) && Ties(FilteredData(series, nexos, search, userId), k) == Ties(rows, k)
  {
    JoinedKnown(nexos, userId, SearchFilter(series, search));
    SortRowsStable(JoinRows(SearchFilter(series, search), NexoMapOf(nexos, userId)), k);
  }

  // ---------------------------------------------------------------------
  // Pagination

  /** `filteredData.slice((page - 1) * 24, page * 24)`. */
  function PageRows<T>(rows: seq<T>, page: int): (r: seq<T>)
    ensures |r| <= PageSize
  {
    Slice(rows, (page - 1) * 24, (page - 1) * 24 + 24)
  }

  /** `Math.ceil(filteredData.length / 24)`. */
  function PageCount(n: nat): (c: nat)
    ensures c * 24 >= n
    ensures n > 0 ==> (c - 1) * 24 < n
    ensures n == 0 ==> c == 0
  {
    (n + 23) / 24
  }

  /** The pager is rendered only when the listing has more than one page of rows. */
  predicate ShowPager(n: nat) {
    n > PageSize
  }

  lemma ShowPagerIffSeveralPages(n: nat)
    ensures ShowPager(n) <==> PageCount(n) > 1
  {
  }

  function Min(a: int, b: int): int {
    if a < b then a else b
  }

  /** Page p (from 1) holds rows (p-1)*24 up to p*24, cut at the end of the listing. */
  lemma PageWindow<T>(rows: seq<T>, page: int)
    requires page >= 1
    ensures (page - 1) * 24 < |rows| ==>
      PageRows(rows, page) == rows[(page - 1) * 24 .. Min(page * 24, |rows|)]
    ensures (page - 1) * 24 >= |rows| ==> PageRows(rows, page) == []
  {
  }

  /** Pages 1 to k, one after the other. */
  function FirstPages<T>(rows: seq<T>, k: nat): seq<T> {
    if k == 0 then [] else FirstPages(rows, k - 1) + PageRows(rows, k)
  }

  lemma {:induction false} FirstPagesPrefix<T>(rows: seq<T>, k: nat)
    ensures FirstPages(rows, k) == rows[..Min(k * 24, |rows|)]
  {
    if k > 0 {
      FirstPagesPrefix(rows, k - 1);
      PageWindow(rows, k);
      if (k - 1) * 24 < |rows| {
        assert rows[..(k - 1) * 24] + rows[(k - 1) * 24 .. Min(k * 24, |rows|)]
          == rows[..Min(k * 24, |rows|)];
      }
    }
  }

  /** The pages 1..PageCount, read in order, are the whole listing: no row is
      lost or shown twice. */
  lemma PagesCoverListing<T>(rows: seq<T>)
    ensures FirstPages(rows, PageCount(|rows|)) == rows
  {
    FirstPagesPrefix(rows, PageCount(|rows|));
  }

  /** Row i is shown on page i/24 + 1, at position i mod 24. */
  lemma RowOnItsPage<T>(rows: seq<T>, i: nat)
    requires i < |rows|
    ensures 1 <= i / 24 + 1 <= PageCount(|rows|)
    ensures i % 24 < |PageRows(rows, i / 24 + 1)|
    ensures PageRows(rows, i / 24 + 1)[i % 24] == rows[i]
  {
    PageWindow(rows, i / 24 + 1);
  }

  // ---------------------------------------------------------------------
  // The count shown in the header

  /** The header as written: `{(filteredData.length > 0) || 0}` renders the
      boolean `true` (nothing) for a non-empty listing and `0` otherwise. */
  function HeaderCountAsWritten(n: nat): (r: string)
    ensures r == "" <==> n > 0
  {
    if n > 0 then "" else "0"
  }

  /** For every non-empty listing the header shows no count at all. */
  lemma HeaderCountAsWrittenHidesTotal(n: nat)
    requires n > 0
    ensures HeaderCountAsWritten(n) == "" && ToNumber(HeaderCountAsWritten(n)) != Int(n)
  {
  }

  /** The count the header evidently means to show: the number of listed rows. */
  function HeaderCount(n: nat): (r: string)
    ensures r != "" && ToNumber(r) == Int(n)
  {
    ToNumberRoundTrip(n);
    IntToString(n)
  }

  // ---------------------------------------------------------------------
  // The page component's state

  class ListingPage {
    var series: seq<Serie>
    var nexos: seq<Nexo>
    var loading: bool
    var searchSerie: string
    var userId: Num
    var page: int

    /** Mount: empty lists, loading, no search, user 1, page 1. */
    constructor ()
      ensures series == [] && nexos == [] && loading
      ensures searchSerie == "" && userId == Int(1) && page == 1
    {
      series := [];
      nexos := [];
      loading := true;
      searchSerie := "";
      userId := Int(1);
      page := 1;
    }

    /** `if (stored) setUserID(Number(stored))` for the stored `id`. */
    method ReadStoredId(stored: Option<string>)
      modifies this`userId
      ensures Truthy(stored) ==> userId == ToNumber(stored.value)
      ensures !Truthy(stored) ==> userId == old(userId)
    {
      if stored.Some? && stored.value != "" {
        userId := ToNumber(stored.value);
      }
    }

    /** Both fetches settled: on success both lists are replaced, on failure
        they stay; loading ends either way. */
    method Loaded(fetched: Result<(seq<Serie>, seq<Nexo>), string>)
      modifies this`series, this`nexos, this`loading
      ensures fetched.Ok? ==> series == fetched.value.0 && nexos == fetched.value.1
      ensures fetched.Err? ==> series == old(series) && nexos == old(nexos)
      ensures !loading
    {
      if fetched.Ok? {
        series := fetched.value.0;
        nexos := fetched.value.1;
      }
      loading := false;
    }

    /** Typing in the search box replaces the search and goes back to page 1. */
    method OnSearchInput(text: string)
      modifies this`searchSerie, this`page
      ensures searchSerie == text && page == 1
    {
      searchSerie := text;
      page := 1;
    }

    /** The clear button empties the search and leaves the page as it was. */
    method OnClearSearch()
      modifies this`searchSerie
      ensures searchSerie == ""
    {
      searchSerie := "";
    }

    /** The pager's change handler. */
    method OnPageChange(p: int)
      modifies this`page
      ensures page == p
    {
      page := p;
    }

    predicate Ready()
      reads this
    {
      UserStatesKnown(nexos, userId)
    }

    /** The rows of the current page. */
    function Visible(): (r: seq<Row>)
      reads this
      requires Ready()
      ensures |r| <= PageSize
      ensures forall row :: row in r ==> row in FilteredData(series, nexos, searchSerie, userId)
    {
      var rows := FilteredData(series, nexos, searchSerie, userId);
      PageRows(rows, page)
    }
  }
}
