/**
 * The month summary of the reservation store: for each service, the total
 * cost of the `out` rows closed within [begin, end), as the grouped query
 * computes it over the in-memory tables, and the loop scanning its rows.
 */
module SummaryQuery {
  import opened Wrappers
  import opened UInt64
  import opened Calendar
  import opened Errors
  import opened Tables
  import opened Reports
  import OperationsQuery

  /** `direction = 'out' AND begin <= closed_at AND closed_at < end`; a NULL closed_at never qualifies. */
  predicate InWindow(row: Row, begin: Instant, end: Instant) {
    row.direction == Out && row.closedAt.Some? && NotAfter(begin, row.closedAt.value) && Before(row.closedAt.value, end)
  }

  /** The row qualifies and is joined, through its chain, to service `s`. */
  predicate CountsFor(chains: seq<Chain>, row: Row, s: int, begin: Instant, end: Instant) {
    InWindow(row, begin, end) && OperationsQuery.ChainService(chains, row.chainId) == Some(s)
  }

  /** With the bounds of a calendar month, a row qualifies exactly when it is an `out` row closed in that month. */
  lemma WindowIsCalendarMonth(row: Row, year: int, month: int)
    requires 1 <= month <= 12
    requires row.closedAt.Some? ==> Normalised(row.closedAt.value)
    ensures var (begin, end) := MonthBounds(year, month);
      InWindow(row, begin, end) <==>
        row.direction == Out && row.closedAt.Some? && row.closedAt.value.year == year && row.closedAt.value.month == month
  {
    if row.closedAt.Some? {
      InMonthBoundsIff(row.closedAt.value, year, month);
    }
  }

  /** `SUM(cost)` over the rows that count for service `s`. */
  function ServiceTotal(chains: seq<Chain>, rows: seq<Row>, s: int, begin: Instant, end: Instant): nat {
    if rows == [] then 0
    else (if CountsFor(chains, rows[0], s, begin, end) then rows[0].cost else 0) + ServiceTotal(chains, rows[1..], s, begin, end)
  }

  /** Appending a row adds its cost to its service's total when it counts, and nothing otherwise. */
  lemma {:induction false} ServiceTotalAppend(chains: seq<Chain>, rows: seq<Row>, row: Row, s: int, begin: Instant, end: Instant)
    ensures ServiceTotal(chains, rows + [row], s, begin, end)
         == ServiceTotal(chains, rows, s, begin, end) + (if CountsFor(chains, row, s, begin, end) then row.cost else 0)
  {
    if rows != [] {
      assert (rows + [row])[1..] == rows[1..] + [row];
      ServiceTotalAppend(chains, rows[1..], row, s, begin, end);
    }
  }

  /** The services of the qualifying rows that have a `favors` row (the inner join), with repeats. */
  function ServicesIn(chains: seq<Chain>, favors: map<int, string>, rows: seq<Row>, begin: Instant, end: Instant): (r: seq<int>)
    ensures forall s :: s in r <==> s in favors && exists row :: row in rows && CountsFor(chains, row, s, begin, end)
  {
    if rows == [] then []
    else
      var rest := ServicesIn(chains, favors, rows[1..], begin, end);
      assert forall x :: x in rows <==> x == rows[0] || x in rows[1..];
      var c := OperationsQuery.ChainService(chains, rows[0].chainId);
      assert forall s :: CountsFor(chains, rows[0], s, begin, end) ==> c == Some(s);
      if InWindow(rows[0], begin, end) && c.Some? && c.value in favors then
        assert CountsFor(chains, rows[0], c.value, begin, end) && rows[0] in rows;
        [c.value] + rest
      else rest
  }

  /** The elements of a sequence, each once, in order of first appearance. */
  function Dedup(xs: seq<int>): (r: seq<int>)
    ensures forall i, j :: 0 <= i < j < |r| ==> r[i] != r[j]
    ensures forall x :: x in r <==> x in xs
  {
    if xs == [] then []
    else
      var init, x := xs[..|xs| - 1], xs[|xs| - 1];
      assert xs == init + [x];
      var t := Dedup(init);
      if x in t then t else t + [x]
  }

  /** `GROUP BY service_id`: each qualifying service once. */
  function Groups(chains: seq<Chain>, favors: map<int, string>, rows: seq<Row>, begin: Instant, end: Instant): (g: seq<int>)
    ensures forall i, j :: 0 <= i < j < |g| ==> g[i] != g[j]
    ensures forall s :: s in g <==> s in favors && exists row :: row in rows && CountsFor(chains, row, s, begin, end)
  {
    Dedup(ServicesIn(chains, favors, rows, begin, end))
  }

  /** The summary row of service `s`: its name and its total. */
  function Entry(chains: seq<Chain>, favors: map<int, string>, rows: seq<Row>, begin: Instant, end: Instant, s: int): (string, nat)
    requires s in favors
  {
    (favors[s], ServiceTotal(chains, rows, s, begin, end))
  }

  /** The summary rows of the services of `g`, in the order of `g`. */
  function Entries(chains: seq<Chain>, favors: map<int, string>, rows: seq<Row>, begin: Instant, end: Instant, g: seq<int>): (r: seq<(string, nat)>)
    requires forall s :: s in g ==> s in favors
    ensures |r| == |g|
    ensures forall i :: 0 <= i < |g| ==> r[i] == Entry(chains, favors, rows, begin, end, g[i])
  {
    if g == [] then []
    else
      var init := g[..|g| - 1];
      assert forall s :: s in init ==> s in g;
      Entries(chains, favors, rows, begin, end, init) + [Entry(chains, favors, rows, begin, end, g[|g| - 1])]
  }

  /** A service the grouped query reports: it has a `favors` row and some row counts for it. */
  ghost predicate Qualifies(chains: seq<Chain>, favors: map<int, string>, rows: seq<Row>, s: int, begin: Instant, end: Instant) {
    s in favors && exists row :: row in rows && CountsFor(chains, row, s, begin, end)
  }

  /** The reported services whose summary row is `x`. */
  ghost function ServicesWithEntry(chains: seq<Chain>, favors: map<int, string>, rows: seq<Row>, begin: Instant, end: Instant,
                                   x: (string, nat)): set<int>
  {
    set s | s in favors.Keys && Qualifies(chains, favors, rows, s, begin, end) && Entry(chains, favors, rows, begin, end, s) == x
  }

  /** Over services without repeats, row `x` occurs once per service whose row it is. */
  lemma {:induction false} EntriesCount(chains: seq<Chain>, favors: map<int, string>, rows: seq<Row>, begin: Instant, end: Instant,
                                        g: seq<int>, x: (string, nat))
    requires forall s :: s in g ==> s in favors
    requires forall i, j :: 0 <= i < j < |g| ==> g[i] != g[j]
    ensures multiset(Entries(chains, favors, rows, begin, end, g))[x]
         == |set s | s in g && Entry(chains, favors, rows, begin, end, s) == x|
  {
    if g != [] {
      var init, last := g[..|g| - 1], g[|g| - 1];
      assert forall s :: s in init ==> s in g;
      var e := Entries(chains, favors, rows, begin, end, g);
      assert e == Entries(chains, favors, rows, begin, end, init) + [Entry(chains, favors, rows, begin, end, last)];
      assert multiset(e) == multiset(Entries(chains, favors, rows, begin, end, init)) + multiset{Entry(chains, favors, rows, begin, end, last)};
      EntriesCount(chains, favors, rows, begin, end, init, x);
      EntriesStep(chains, favors, rows, begin, end, g, x);
    }
  }

  /** The services of `g` with row `x`: those of all but the last, and the last if its row is `x`. */
  lemma EntriesStep(chains: seq<Chain>, favors: map<int, string>, rows: seq<Row>, begin: Instant, end: Instant,
                    g: seq<int>, x: (string, nat))
    requires g != [] && forall s :: s in g ==> s in favors
    requires forall i, j :: 0 <= i < j < |g| ==> g[i] != g[j]
    ensures var init, last := g[..|g| - 1], g[|g| - 1];
      |set s | s in g && Entry(chains, favors, rows, begin, end, s) == x|
      == |set s | s in init && Entry(chains, favors, rows, begin, end, s) == x|
         + (if Entry(chains, favors, rows, begin, end, last) == x then 1 else 0)
  {
    var init, last := g[..|g| - 1], g[|g| - 1];
    assert forall s :: s in g <==> s in init || s == last by {
      assert g == init + [last];
    }
    var before := set s | s in init && Entry(chains, favors, rows, begin, end, s) == x;
    var after := set s | s in g && Entry(chains, favors, rows, begin, end, s) == x;
    assert last !in init;
    if Entry(chains, favors, rows, begin, end, last) == x {
      assert after == before + {last};
    } else {
      assert after == before;
    }
  }

  /**
   * The grouped query's rows: a service name and its total, one per reported
   * service. `GROUP BY` promises no order, so only which rows occur, and how
   * often, is stated.
   */
  function SummaryAnswer(chains: seq<Chain>, favors: map<int, string>, rows: seq<Row>, begin: Instant, end: Instant): (r: seq<(string, nat)>)
    ensures |r| == |Groups(chains, favors, rows, begin, end)|
    ensures forall x :: multiset(r)[x] == |ServicesWithEntry(chains, favors, rows, begin, end, x)|
  {
    var g := Groups(chains, favors, rows, begin, end);
    var r := Entries(chains, favors, rows, begin, end, g);
    assert forall x :: multiset(r)[x] == |ServicesWithEntry(chains, favors, rows, begin, end, x)| by {
      forall x ensures multiset(r)[x] == |ServicesWithEntry(chains, favors, rows, begin, end, x)| {
        EntriesCount(chains, favors, rows, begin, end, g, x);
        assert (set s | s in g && Entry(chains, favors, rows, begin, end, s) == x)
            == ServicesWithEntry(chains, favors, rows, begin, end, x);
      }
    }
    r
  }

  /** Rows copied field by field into SummaryRows occur as often as the rows they were copied from. */
  lemma {:induction false} CopiedRowsCount(answer: seq<(string, nat)>, copied: seq<SummaryRow>)
    requires |copied| == |answer|
    requires forall i :: 0 <= i < |answer| ==> copied[i].name == answer[i].0 && copied[i].value == answer[i].1
    ensures forall n: string, v: uint64 :: multiset(copied)[SummaryRow(n, v)] == multiset(answer)[(n, v)]
  {
    if answer != [] {
      var k := |answer| - 1;
      assert answer == answer[..k] + [answer[k]];
      assert copied == copied[..k] + [copied[k]];
      CopiedRowsCount(answer[..k], copied[..k]);
    }
  }

  /**
   * The scan loop of GetMonthSummary: a total that does not fit the uint64
   * destination stops the loop with an error; otherwise every row is kept.
   */
  method ScanSummary(answer: seq<(string, nat)>) returns (r: Result<seq<SummaryRow>, Error>)
    ensures r.Err? <==> exists i :: 0 <= i < |answer| && answer[i].1 >= Modulus
    ensures r.Err? ==> r.error == Wrapped("can't get row of month summary", Db(ConvertFault))
    ensures r.Ok? ==> |r.value| == |answer|
    ensures r.Ok? ==> forall i :: 0 <= i < |answer| ==> r.value[i].name == answer[i].0 && r.value[i].value == answer[i].1
  {
    var sum: seq<SummaryRow> := [];
    var i := 0;
    while i < |answer|
      invariant 0 <= i <= |answer|
      invariant |sum| == i
      invariant forall k :: 0 <= k < i ==> answer[k].1 < Modulus && sum[k].name == answer[k].0 && sum[k].value == answer[k].1
    {
      if answer[i].1 >= Modulus {
        return Err(Wrapped("can't get row of month summary", Db(ConvertFault)));
      }
      sum := sum + [SummaryRow(answer[i].0, answer[i].1)];
      i := i + 1;
    }
    return Ok(sum);
  }
}
