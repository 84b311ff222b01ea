/**
 * The operations listing of the reservation store: which statement is chosen
 * for a page, sort key and direction, the offset of a page, and the rows
 * that statement yields from the in-memory tables. SQL's ORDER BY is
 * modelled by an insertion sort; only that its output is ordered and a
 * permutation of its input is stated, not how it orders equal keys.
 */
module OperationsQuery {
  import opened Wrappers
  import opened UInt64
  import opened Calendar
  import opened Errors
  import opened Tables
  import opened Reports

  const SortAsc := "ASC"
  const SortDesc := "DESC"
  const SortDate := "date"
  const SortSum := "sum"

  /**
   * The case mapping of strings.ToLower and strings.ToUpper on the letters
   * whose image is an ASCII letter: the ASCII letters themselves, and the
   * non-ASCII letters Go maps into ASCII (KELVIN SIGN and CAPITAL I WITH DOT
   * ABOVE lower to 'k' and 'i'; DOTLESS I and LONG S upper to 'I' and 'S').
   * Every other character is kept as it is.
   */
  function LowerChar(c: char): (d: char)
    ensures 'A' <= c <= 'Z' ==> d as int == c as int + 32
    ensures c == '\U{212A}' ==> d == 'k'
    ensures c == '\U{0130}' ==> d == 'i'
  {
    if 'A' <= c <= 'Z' then (c as int + 32) as char
    else if c == '\U{212A}' then 'k'
    else if c == '\U{0130}' then 'i'
    else c
  }

  function UpperChar(c: char): (d: char)
    ensures 'a' <= c <= 'z' ==> d as int == c as int - 32
    ensures c == '\U{0131}' ==> d == 'I'
    ensures c == '\U{017F}' ==> d == 'S'
  {
    if 'a' <= c <= 'z' then (c as int - 32) as char
    else if c == '\U{0131}' then 'I'
    else if c == '\U{017F}' then 'S'
    else c
  }

  function Lower(s: string): (r: string)
    ensures |r| == |s| && forall i :: 0 <= i < |s| ==> r[i] == LowerChar(s[i])
  {
    seq(|s|, i requires 0 <= i < |s| => LowerChar(s[i]))
  }

  function Upper(s: string): (r: string)
    ensures |r| == |s| && forall i :: 0 <= i < |s| ==> r[i] == UpperChar(s[i])
  {
    seq(|s|, i requires 0 <= i < |s| => UpperChar(s[i]))
  }

  lemma CaseMappingIdempotent(s: string)
    ensures Lower(Lower(s)) == Lower(s) && Upper(Upper(s)) == Upper(s)
  {
    assert Lower(Lower(s)) == Lower(s);
    assert Upper(Upper(s)) == Upper(s);
  }

  datatype SortKey = ByDate | BySum

  /** The statement chosen: sorted or in storage order, descending or not, with LIMIT/OFFSET or without. */
  datatype Plan = Plan(key: Option<SortKey>, descending: bool, paged: bool)

  /**
   * The plan selection of GetOperations. The sort key is lower-cased and the
   * direction upper-cased first; page 0 without a sort key is the plain
   * listing, any other page without one is paged; a sort key is paged only
   * for a positive page; an unknown key is ErrSortParamNotFound.
   */
  function SelectPlan(page: int, sortby: string, direction: string): (r: Result<Plan, Error>)
    ensures r.Err? <==> Lower(sortby) != "" && Lower(sortby) != SortDate && Lower(sortby) != SortSum
    ensures r.Err? ==> r.error == Store(ErrSortParamNotFound)
    ensures r.Ok? ==> (r.value.key.None? <==> Lower(sortby) == "")
    ensures r.Ok? ==> (r.value.key == Some(ByDate) <==> Lower(sortby) == SortDate)
    ensures r.Ok? ==> (r.value.descending <==> r.value.key.Some? && Upper(direction) == SortDesc)
    ensures r.Ok? ==> (r.value.paged <==> page > 0 || (page < 0 && Lower(sortby) == ""))
  {
    var s, d := Lower(sortby), Upper(direction);
    if page == 0 && s == "" then Ok(Plan(None, false, false))
    else if s == "" then Ok(Plan(None, false, true))
    else if s == SortDate then Ok(Plan(Some(ByDate), d == SortDesc, page > 0))
    else if s == SortSum then Ok(Plan(Some(BySum), d == SortDesc, page > 0))
    else Err(Store(ErrSortParamNotFound))
  }

  /** Only the normalised forms matter: re-normalising the parameters selects the same plan. */
  lemma SelectPlanNormalised(page: int, sortby: string, direction: string)
    ensures SelectPlan(page, Lower(sortby), Upper(direction)) == SelectPlan(page, sortby, direction)
  {
    CaseMappingIdempotent(sortby);
    CaseMappingIdempotent(direction);
  }

  /** A product as Go's 64-bit `int` holds it: reduced into [-2^63, 2^63) modulo 2^64. */
  function WrapInt64(x: int): (w: int)
    ensures -Int64Bound <= w < Int64Bound
    ensures (w - x) % (2 * Int64Bound) == 0
    ensures -Int64Bound <= x < Int64Bound ==> w == x
  {
    (x + Int64Bound) % (2 * Int64Bound) - Int64Bound
  }

  /**
   * Page p > 0 starts (p - 1) pages in, computed in Go's 64-bit `int`, so a
   * product past 2^63 wraps; any other page starts at 0.
   */
  function Offset(page: int, pageLimit: int): (offset: int)
    ensures page > 0 ==> offset == WrapInt64((page - 1) * pageLimit)
    ensures page > 0 && -Int64Bound <= (page - 1) * pageLimit < Int64Bound ==> offset == (page - 1) * pageLimit
    ensures page <= 0 ==> offset == 0
  {
    if page > 0 then WrapInt64((page - 1) * pageLimit) else 0
  }

  /**
   * Pages far enough in wrap around: with 4 operations per page, page
   * 2^61 + 1 starts at -2^63, which the database refuses, and page 2^62 + 1
   * starts at 0 again.
   */
  lemma OffsetWrapsAround()
    ensures Offset(0x2000_0000_0000_0001, 4) == -Int64Bound
    ensures Offset(0x4000_0000_0000_0001, 4) == 0
  {
  }

  function Min(a: int, b: int): int {
    if a <= b then a else b
  }

  /** `LIMIT limit OFFSET offset`: at most `limit` rows, the ones from position `offset` on. */
  function Window<T>(s: seq<T>, offset: nat, limit: nat): (w: seq<T>)
    ensures |w| == if offset >= |s| then 0 else Min(limit, |s| - offset)
    ensures forall i :: 0 <= i < |w| ==> w[i] == s[offset + i]
  {
    if offset >= |s| then [] else s[offset .. Min(offset + limit, |s|)]
  }

  /** The step from page n - 1 to page n: one more page's worth of rows. */
  lemma PageStep(n: nat, limit: nat)
    requires 0 < n
    ensures n * limit == (n - 1) * limit + limit
    ensures 0 <= (n - 1) * limit
  {
  }

  /** Pages 1 to n, one after another, while their offsets fit Go's `int`. */
  function Pages<T>(s: seq<T>, limit: nat, n: nat): seq<T>
    requires n * limit < Int64Bound
  {
    if n == 0 then []
    else
      PageStep(n, limit);
      Pages(s, limit, n - 1) + Window(s, (n - 1) * limit, limit)
  }

  /** Reading pages 1..n neither skips nor repeats a row: together they are the first n * limit rows. */
  lemma {:induction false} PagesCover<T>(s: seq<T>, limit: nat, n: nat)
    requires n * limit < Int64Bound
    ensures Pages(s, limit, n) == s[..Min(n * limit, |s|)]
  {
    if n > 0 {
      PageStep(n, limit);
      var start: nat := (n - 1) * limit;
      PagesCover(s, limit, n - 1);
      PrefixThenWindow(s, start, limit);
      assert Pages(s, limit, n) == Pages(s, limit, n - 1) + Window(s, start, limit);
    }
  }

  /** Page n of the listing is the window Pages reads for it. */
  lemma PageIsWindowAtOffset<T>(s: seq<T>, limit: nat, n: nat)
    requires 0 < n && n * limit < Int64Bound
    ensures Offset(n, limit) == (n - 1) * limit
    ensures Pages(s, limit, n) == Pages(s, limit, n - 1) + Window(s, Offset(n, limit), limit)
  {
    PageStep(n, limit);
  }

  lemma PrefixThenWindow<T>(s: seq<T>, start: nat, limit: nat)
    ensures s[..Min(start, |s|)] + Window(s, start, limit) == s[..Min(start + limit, |s|)]
  {
    if start < |s| {
      assert Window(s, start, limit) == s[start .. Min(start + limit, |s|)];
    }
  }

  /** One row of the listing query's result, before scanning: service name and comment may be NULL. */
  datatype ResultRow = ResultRow(direction: string, favor: Option<string>, sum: uint64, comment: Option<string>, time: Option<Instant>)

  /** The service of the chain a row is joined to (`LEFT JOIN chains ON chain_id = chains.id`). */
  function ChainService(chains: seq<Chain>, chainId: Option<int>): (r: Option<int>)
    ensures r.Some? ==> exists c :: c in chains && Some(c.id) == chainId && c.serviceId == r.value
    ensures r.None? && chainId.Some? ==> forall c :: c in chains ==> c.id != chainId.value
  {
    if chainId.None? || |chains| == 0 then None
    else if chains[0].id == chainId.value then Some(chains[0].serviceId)
    else ChainService(chains[1..], chainId)
  }

  /** The service name of a row (`LEFT JOIN favors ON chains.service_id = favors.id`), NULL when there is none. */
  function FavorName(chains: seq<Chain>, favors: map<int, string>, chainId: Option<int>): Option<string> {
    var s := ChainService(chains, chainId);
    if s.Some? && s.value in favors then Some(favors[s.value]) else None
  }

  function Project(chains: seq<Chain>, favors: map<int, string>, row: Row): ResultRow {
    ResultRow(DirectionName(row.direction), FavorName(chains, favors, row.chainId), row.cost, row.comment, row.closedAt)
  }

  /** `WHERE user_id = userId AND is_completed = true`, in storage order. */
  function UserCompleted(rows: seq<Row>, userId: int): (r: seq<Row>)
    ensures |r| <= |rows|
    ensures forall x :: x in r <==> x in rows && x.userId == userId && x.isCompleted
  {
    if rows == [] then []
    else
      var rest := UserCompleted(rows[1..], userId);
      assert forall x :: x in rows <==> x == rows[0] || x in rows[1..];
      if rows[0].userId == userId && rows[0].isCompleted then [rows[0]] + rest else rest
  }

  /** The listing query's rows in storage order, joined to their service names. */
  function Listing(chains: seq<Chain>, favors: map<int, string>, rows: seq<Row>, userId: int): (r: seq<ResultRow>)
    ensures var mine := UserCompleted(rows, userId);
      |r| == |mine| && forall i :: 0 <= i < |mine| ==> r[i] == Project(chains, favors, mine[i])
  {
    var mine := UserCompleted(rows, userId);
    seq(|mine|, i requires 0 <= i < |mine| => Project(chains, favors, mine[i]))
  }

  // The orders of the sorted statements

  /** Timestamps in SQL order: a NULL time sorts after every time. */
  predicate TimeLeq(a: Option<Instant>, b: Option<Instant>) {
    b.None? || (a.Some? && NotAfter(a.value, b.value))
  }

  predicate KeyLeq(key: SortKey, a: ResultRow, b: ResultRow) {
    match key
    case ByDate => TimeLeq(a.time, b.time)
    case BySum => a.sum <= b.sum
  }

  /** `a` may come before `b` under ORDER BY key ASC (or DESC when descending). */
  predicate InOrder(key: SortKey, descending: bool, a: ResultRow, b: ResultRow) {
    if descending then KeyLeq(key, b, a) else KeyLeq(key, a, b)
  }

  lemma InOrderTotal(key: SortKey, descending: bool, a: ResultRow, b: ResultRow)
    ensures InOrder(key, descending, a, b) || InOrder(key, descending, b, a)
  {
  }

  lemma InOrderTransitive(key: SortKey, descending: bool, a: ResultRow, b: ResultRow, c: ResultRow)
    requires InOrder(key, descending, a, b) && InOrder(key, descending, b, c)
    ensures InOrder(key, descending, a, c)
  {
  }

  ghost predicate Sorted(key: SortKey, descending: bool, s: seq<ResultRow>) {
    forall i, j :: 0 <= i < j < |s| ==> InOrder(key, descending, s[i], s[j])
  }

  lemma SortedCons(key: SortKey, descending: bool, h: ResultRow, t: seq<ResultRow>)
    requires Sorted(key, descending, t)
    requires forall y :: y in t ==> InOrder(key, descending, h, y)
    ensures Sorted(key, descending, [h] + t)
  {
    var s := [h] + t;
    forall i, j | 0 <= i < j < |s| ensures InOrder(key, descending, s[i], s[j]) {
      if i > 0 {
        assert s[i] == t[i - 1] && s[j] == t[j - 1];
      } else {
        assert s[j] in t;
      }
    }
  }

  /** Inserts `x` into an ordered sequence, keeping it ordered. */
  function Insert(key: SortKey, descending: bool, x: ResultRow, s: seq<ResultRow>): (r: seq<ResultRow>)
    requires Sorted(key, descending, s)
    ensures multiset(r) == multiset(s) + multiset{x}
    ensures Sorted(key, descending, r)
    decreases |s|
  {
    if s == [] then [x]
    else if InOrder(key, descending, x, s[0]) then
      assert forall y :: y in s ==> InOrder(key, descending, x, y) by {
        forall y | y in s ensures InOrder(key, descending, x, y) {
          var k :| 0 <= k < |s| && s[k] == y;
          if k > 0 { InOrderTransitive(key, descending, x, s[0], y); }
        }
      }
      SortedCons(key, descending, x, s);
      [x] + s
    else
      InOrderTotal(key, descending, x, s[0]);
      assert s == [s[0]] + s[1..];
      var t := Insert(key, descending, x, s[1..]);
      assert forall y :: y in t ==> InOrder(key, descending, s[0], y) by {
        forall y | y in t ensures InOrder(key, descending, s[0], y) {
          assert y in multiset(t);
          if y != x {
            assert y in multiset(s[1..]);
            var k :| 0 <= k < |s[1..]| && s[1..][k] == y;
            assert s[k + 1] == y;
          }
        }
      }
      SortedCons(key, descending, s[0], t);
      [s[0]] + t
  }

  /** ORDER BY key ASC or DESC: an ordered permutation of its input. */
  function Sort(key: SortKey, descending: bool, s: seq<ResultRow>): (r: seq<ResultRow>)
    ensures multiset(r) == multiset(s)
    ensures Sorted(key, descending, r)
  {
    if s == [] then []
    else
      assert s == [s[0]] + s[1..];
      Insert(key, descending, s[0], Sort(key, descending, s[1..]))
  }

  /** The rows of the statement a plan stands for, before LIMIT and OFFSET. */
  function Ordered(plan: Plan, all: seq<ResultRow>): seq<ResultRow> {
    if plan.key.None? then all else Sort(plan.key.value, plan.descending, all)
  }

  /** What the scan loop makes of a row: NULL service name and comment become empty strings. */
  function ToOperation(r: ResultRow): Operation {
    Operation(r.direction, if r.favor.Some? then r.favor.value else "", r.sum,
              if r.comment.Some? then r.comment.value else "", r.time)
  }

  /** The scan loop of the listing: one operation per result row, in order. */
  method ScanOperations(rows: seq<ResultRow>) returns (ops: seq<Operation>)
    ensures |ops| == |rows|
    ensures forall i :: 0 <= i < |rows| ==> ops[i] == ToOperation(rows[i])
  {
    ops := [];
    var i := 0;
    while i < |rows|
      invariant 0 <= i <= |rows|
      invariant |ops| == i
      invariant forall k :: 0 <= k < i ==> ops[k] == ToOperation(rows[k])
    {
      var row := rows[i];
      var o := Operation(row.direction, "", row.sum, "", row.time);
      if row.favor.Some? {
        o := o.(favor := row.favor.value);
      }
      if row.comment.Some? {
        o := o.(comment := row.comment.value);
      }
      ops := ops + [o];
      i := i + 1;
    }
  }
}
