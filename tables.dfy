/**
 * The two tables of the reservation store, held in memory: `chains` binds an
 * order to a service, `transactions` holds the ledger rows. Columns that the
 * schema lets be NULL are Options.
 */
module Tables {
  import opened Wrappers
  import opened UInt64
  import opened Calendar

  /** A row of `chains`. Nothing makes (orderId, serviceId) unique. */
  datatype Chain = Chain(id: int, orderId: int, serviceId: int)

  /** The `direction` column: 'in' for a credit, 'out' for a reservation. */
  datatype Direction = In | Out

  function DirectionName(d: Direction): string {
    match d
    case In => "in"
    case Out => "out"
  }

  /** A row of `transactions`. */
  datatype Row = Row(
    id: int,
    userId: int,
    direction: Direction,
    isCompleted: bool,
    chainId: Option<int>,
    closedAt: Option<Instant>,
    cost: uint64,
    comment: Option<string>)

  /** `sql.NullString{String: c, Valid: c != ""}`: an empty comment is stored as NULL. */
  function NullableComment(c: string): (r: Option<string>)
    ensures r.None? <==> c == ""
    ensures r.Some? ==> r.value == c
  {
    if c == "" then None else Some(c)
  }

  /** The `in` row CreateIn inserts; it is completed from the start and has no chain. */
  function InRow(id: int, userId: int, at: Option<Instant>, value: uint64, comment: string): Row {
    Row(id, userId, In, true, None, at, value, NullableComment(comment))
  }

  /** The `out` row CreateOut inserts: open, not closed, bound to its chain. */
  function OutRow(id: int, userId: int, chainId: int, cost: uint64, comment: string): Row {
    Row(id, userId, Out, false, Some(chainId), None, cost, NullableComment(comment))
  }

  function ChainIds(chains: seq<Chain>): set<int> {
    set c | c in chains :: c.id
  }

  function RowChainIds(rows: seq<Row>): set<int> {
    set r | r in rows && r.chainId.Some? :: r.chainId.value
  }

  /**
   * What every storage operation keeps: identities are positive, below their
   * counters and unique; an `in` row is completed and unchained; an open row is an
   * `out` row without a closing time; every `out` row has a chain, every
   * chain has a transaction, and no chain has two.
   */
  ghost predicate TablesValid(chains: seq<Chain>, rows: seq<Row>, nextChainId: int, nextRowId: int) {
    && 0 < nextChainId && 0 < nextRowId
    && (forall i :: 0 <= i < |chains| ==> 0 < chains[i].id < nextChainId)
    && (forall i, j :: 0 <= i < j < |chains| ==> chains[i].id != chains[j].id)
    && (forall i :: 0 <= i < |rows| ==> 0 < rows[i].id < nextRowId)
    && (forall i, j :: 0 <= i < j < |rows| ==> rows[i].id != rows[j].id)
    && (forall i :: 0 <= i < |rows| && rows[i].direction == In ==> rows[i].chainId.None? && rows[i].isCompleted)
    && (forall i :: 0 <= i < |rows| && rows[i].direction == Out ==> rows[i].chainId.Some?)
    && (forall i :: 0 <= i < |rows| && !rows[i].isCompleted ==> rows[i].closedAt.None?)
    && (forall i :: 0 <= i < |rows| ==> Storable(rows[i].cost))
    && (forall i, j :: 0 <= i < j < |rows| && rows[i].chainId.Some? ==> rows[i].chainId != rows[j].chainId)
    && ChainIds(chains) == RowChainIds(rows)
  }

  /**
   * `UPDATE transactions SET closed_at = at, is_completed = true WHERE chain_id = chainId`:
   * the rows of that chain become completed with the closing time; the others are untouched.
   */
  function CloseChain(rows: seq<Row>, chainId: int, at: Option<Instant>): (r: seq<Row>)
    ensures |r| == |rows|
    ensures forall i :: 0 <= i < |rows| && rows[i].chainId == Some(chainId) ==>
      r[i] == rows[i].(isCompleted := true, closedAt := at)
    ensures forall i :: 0 <= i < |rows| && rows[i].chainId != Some(chainId) ==> r[i] == rows[i]
  {
    seq(|rows|, i requires 0 <= i < |rows| =>
      if rows[i].chainId == Some(chainId) then rows[i].(isCompleted := true, closedAt := at) else rows[i])
  }

  /** Closing a chain keeps the tables valid. */
  lemma CloseChainKeepsValid(chains: seq<Chain>, rows: seq<Row>, nextChainId: int, nextRowId: int, chainId: int, at: Option<Instant>)
    requires TablesValid(chains, rows, nextChainId, nextRowId)
    ensures TablesValid(chains, CloseChain(rows, chainId, at), nextChainId, nextRowId)
  {
    var r := CloseChain(rows, chainId, at);
    assert RowChainIds(r) == RowChainIds(rows) by {
      forall c | c in RowChainIds(rows) ensures c in RowChainIds(r) {
        var k :| 0 <= k < |rows| && rows[k].chainId == Some(c);
        assert r[k].chainId == Some(c);
      }
      forall c | c in RowChainIds(r) ensures c in RowChainIds(rows) {
        var k :| 0 <= k < |r| && r[k].chainId == Some(c);
        assert rows[k].chainId == Some(c);
      }
    }
  }

  /** Appending a fresh chain with its open `out` row keeps the tables valid. */
  lemma AppendReservationKeepsValid(chains: seq<Chain>, rows: seq<Row>, nextChainId: int, nextRowId: int,
                                    userId: int, orderId: int, serviceId: int, cost: uint64, comment: string)
    requires TablesValid(chains, rows, nextChainId, nextRowId) && Storable(cost)
    ensures TablesValid(chains + [Chain(nextChainId, orderId, serviceId)],
                        rows + [OutRow(nextRowId, userId, nextChainId, cost, comment)],
                        nextChainId + 1, nextRowId + 1)
  {
    var chains', rows' := chains + [Chain(nextChainId, orderId, serviceId)], rows + [OutRow(nextRowId, userId, nextChainId, cost, comment)];
    forall i | 0 <= i < |rows| && rows[i].chainId.Some?
      ensures rows[i].chainId != Some(nextChainId)
    {
      assert rows[i].chainId.value in RowChainIds(rows);
      var c :| c in chains && c.id == rows[i].chainId.value;
    }
    assert ChainIds(chains') == ChainIds(chains) + {nextChainId};
    assert RowChainIds(rows') == RowChainIds(rows) + {nextChainId} by {
      assert forall r :: r in rows' <==> r in rows || r == rows'[|rows|];
    }
  }

  /** Appending an `in` row keeps the tables valid. */
  lemma AppendCreditKeepsValid(chains: seq<Chain>, rows: seq<Row>, nextChainId: int, nextRowId: int,
                               userId: int, at: Option<Instant>, value: uint64, comment: string)
    requires TablesValid(chains, rows, nextChainId, nextRowId) && Storable(value)
    ensures TablesValid(chains, rows + [InRow(nextRowId, userId, at, value, comment)], nextChainId, nextRowId + 1)
  {
    var rows' := rows + [InRow(nextRowId, userId, at, value, comment)];
    assert RowChainIds(rows') == RowChainIds(rows) by {
      assert forall r :: r in rows' <==> r in rows || r == rows'[|rows|];
    }
  }
}
