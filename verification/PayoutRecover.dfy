/** Boot recovery re-establishes the invariant from whatever a crash left behind. */
module PayoutRecover {
  import opened Prelude
  import opened AccrualStore
  import opened Settlement
  import opened WriteChain
  import opened PayoutLine
  import opened PayoutWorld
  import opened PayoutSteps
  import opened PayoutAccrue

  // ----- filtering what is already handled -----

  lemma {:induction false} UnhandledKeeps(rs: seq<Rec>, handled: set<RequestId>)
    ensures forall r :: r in Unhandled(rs, handled) <==> r in rs && r.requestId !in handled
    ensures Ids(Unhandled(rs, handled)) == Ids(rs) - handled
    ensures Ids(rs) !! handled ==> Unhandled(rs, handled) == rs
  {
    if rs != [] {
      UnhandledKeeps(rs[1..], handled);
      assert rs == [rs[0]] + rs[1..];
      assert forall r :: r in rs <==> r == rs[0] || r in rs[1..];
      assert Ids(rs) == {rs[0].requestId} + Ids(rs[1..]);
    }
  }

  lemma {:induction false} UnhandledDistinct(rs: seq<Rec>, handled: set<RequestId>)
    requires Distinct(rs)
    ensures Distinct(Unhandled(rs, handled))
  {
    if rs != [] {
      var tail := Unhandled(rs[1..], handled);
      UnhandledDistinct(rs[1..], handled);
      UnhandledKeeps(rs[1..], handled);
      forall i | 0 <= i < |tail|
        ensures tail[i].requestId != rs[0].requestId
      {
        assert tail[i] in rs[1..];
      }
    }
  }

  lemma {:induction false} SumPositive(rs: seq<Rec>)
    requires rs != [] && forall r | r in rs :: r.payout > 0
    ensures Sum(rs) > 0
  {}

  lemma {:induction false} PayableOk(rs: seq<Rec>, op: Operator, recs: map<RequestId, Rec>, handled: set<RequestId>)
    requires RecsOk(rs, op, recs)
    ensures var p := Unhandled(rs, handled);
      p != [] ==> RecsOk(p, op, recs) && Sum(p) > 0
  {
    UnhandledKeeps(rs, handled);
    UnhandledDistinct(rs, handled);
    var p := Unhandled(rs, handled);
    if p != [] { SumPositive(p); }
  }

  // ----- the state between two recovered rows -----

  /** The batches of `op` that are loadable, or listed by now. */
  ghost function Held(v: World, op: Operator): map<BatchId, Row> {
    map b | b in v.table && v.table[b].operator == op
            && (b in LoadedBatches(v.store) || b in v.svc.liabilities) :: v.table[b]
  }

  ghost predicate RecoveryLine(v: World, op: Operator, waiting: bool) {
    var part := Part(v.store, v.table, op);
    var chain := Chain(v.svc.chains, op);
    var f := ExecAll(part, [], chain);
    && BatchesFit(part, v.table)
    && ChainFits(chain, op, v.table, 0)
    && Safe(part, [], chain, op, PaidOf(v, op))
    && LoadedOpen(f, op) == (if waiting then LoadedOpen(v.store, op) else None)
    && LoadedBatches(f) == Held(v, op)
  }

  /** An open row of `op` is still to come. */
  ghost predicate Waiting(rows: seq<Row>, op: Operator) {
    exists i :: 0 <= i < |rows| && !Resumed(rows[i]) && rows[i].operator == op
  }

  ghost predicate RowFits(v: World, row: Row) {
    if Resumed(row) then
      var b := row.batchId.value;
      b in LoadedBatches(v.store) && b in v.table && row == v.table[b] && b !in v.svc.liabilities
    else
      row.batchId == None && LoadedOpen(v.store, row.operator) == Some(row)
  }

  ghost predicate RowsFit(v: World, rows: seq<Row>) {
    && (forall i | 0 <= i < |rows| :: RowFits(v, rows[i]))
    && (forall i, j | 0 <= i < j < |rows| :: rows[i] != rows[j])
    && (forall i, j | 0 <= i < j < |rows| && Resumed(rows[j]) :: Resumed(rows[i]))
    && (forall b | b in LoadedBatches(v.store) ::
          && b in v.table && Resumed(v.table[b]) && v.table[b].batchId == Some(b)
          && (b in v.svc.liabilities || v.table[b] in rows))
  }

  ghost predicate IdsFresh(v: World, ids: seq<BatchId>) {
    && (forall i | 0 <= i < |ids| :: Fresh(v, ids[i]))
    && (forall i, j | 0 <= i < j < |ids| :: ids[i] != ids[j])
  }

  /** The requests of the batches listed so far. */
  ghost function Listed(v: World): set<RequestId> {
    set b, r | b in v.svc.liabilities && b in v.table && r in v.table[b].records :: r.requestId
  }

  ghost predicate Recovering(v: World) {
    && v.up && v.svc.heap == [] && v.svc.accruals == map[]
    && (forall id | id in v.svc.jobs :: id.Batch?)
    && (forall b | b in v.svc.liabilities :: Batch(b) in v.svc.jobs)
  }

  // ----- one row puts one batch on the list -----

  /** `row` is listed, claimed and handed to a payout under `b`; `writes` are queued for it. */
  ghost predicate Lists(v: World, b: BatchId, row: Row, writes: seq<Cmd>, resumed: bool, v': World) {
    v' == v.(
      svc := v.svc.(
        claimed := v.svc.claimed + Ids(row.records),
        liabilities := v.svc.liabilities[b :=
          Liability(row.operator, Sum(row.records), |row.records|, row.firstAt, 0, None, None)],
        chains := v.svc.chains[row.operator := Chain(v.svc.chains, row.operator) + writes],
        jobs := v.svc.jobs[Batch(b) :=
          Job(row.operator, Sum(row.records), row.records, Some(b), resumed)]),
      table := v.table[b := row])
  }

  /** `b` is not listed yet, stands for `row` if for anything, and no other batch has its requests. */
  ghost predicate Listable(v: World, b: BatchId, row: Row) {
    && b != "" && b !in v.svc.liabilities && row.batchId == Some(b)
    && (b in v.table ==> v.table[b] == row)
    && RecsOk(row.records, row.operator, v.recs)
    && (forall c | Active(v, c) && c != b :: c in v.table && Ids(v.table[c].records) !! Ids(row.records))
    && (forall x | IsSingle(v, x) :: x !in Ids(row.records))
  }

  lemma {:induction false} ListTables(v: World, b: BatchId, row: Row, writes: seq<Cmd>, resumed: bool, v': World)
    requires TableOk(v.table, v.recs) && StoreOk(v.store, v.table, v.recs)
    requires Recovering(v) && HeapOk(v.svc, v.recs) && Listable(v, b, row)
    requires Lists(v, b, row, writes, resumed, v') && forall c | c in writes :: !c.SetOpen?
    ensures TableOk(v'.table, v'.recs) && StoreOk(v'.store, v'.table, v'.recs)
    ensures HeapOk(v'.svc, v'.recs)
  {}

  lemma {:induction false} ListTransfers(v: World, b: BatchId, row: Row, writes: seq<Cmd>, resumed: bool, v': World)
    requires TransfersOk(v) && Listable(v, b, row) && Lists(v, b, row, writes, resumed, v')
    ensures TransfersOk(v')
  {
    FixedStays(v, v');
    forall id | id in v'.svc.jobs
      ensures Known(v', id) && TransferOf(v'.svc.jobs[id]) == Fixed(v', id)
    {
      if id != Batch(b) { assert id in v.svc.jobs; }
    }
  }

  lemma {:induction false} ListDisjoint(v: World, b: BatchId, row: Row, writes: seq<Cmd>, resumed: bool, v': World)
    requires DisjointOk(v) && Recovering(v) && Listable(v, b, row)
    requires Lists(v, b, row, writes, resumed, v')
    ensures DisjointOk(v')
  {
    ListGrows(v, b, row, writes, resumed, v');
    ListRecovering(v, b, row, writes, resumed, v');
    hide Lists, LoadedBatches, RecsOk, IsSingle;
    assert forall c | Active(v', c) :: c == b || Active(v, c);
  }

  lemma {:induction false} ListSingles(v: World, b: BatchId, row: Row, writes: seq<Cmd>, resumed: bool, v': World)
    requires SinglesOk(v) && Listable(v, b, row) && Lists(v, b, row, writes, resumed, v')
    ensures SinglesOk(v')
  {
    forall x | IsSingle(v', x)
      ensures x in v'.recs && Batchless(v', x)
    {
      assert IsSingle(v, x);
    }
  }

  lemma {:induction false} ListSeen(v: World, b: BatchId, row: Row, writes: seq<Cmd>, resumed: bool, v': World)
    requires SeenOk(v) && Lists(v, b, row, writes, resumed, v')
    ensures SeenOk(v')
  {}

  lemma {:induction false} ListRecovering(
      v: World, b: BatchId, row: Row, writes: seq<Cmd>, resumed: bool, v': World)
    requires Recovering(v) && Lists(v, b, row, writes, resumed, v')
    ensures Recovering(v') && v'.up
  {}

  lemma {:induction false} ListCore(v: World, b: BatchId, row: Row, writes: seq<Cmd>, resumed: bool, v': World)
    requires Core(v) && Recovering(v) && Listable(v, b, row)
    requires Lists(v, b, row, writes, resumed, v') && forall c | c in writes :: !c.SetOpen?
    ensures Core(v') && Recovering(v')
  {
    ListTables(v, b, row, writes, resumed, v');
    ListTransfers(v, b, row, writes, resumed, v');
    ListDisjoint(v, b, row, writes, resumed, v');
    ListSingles(v, b, row, writes, resumed, v');
    ListSeen(v, b, row, writes, resumed, v');
    ListRecovering(v, b, row, writes, resumed, v');
    hide Lists, Recovering, TableOk, StoreOk, HeapOk, SeenOk, DisjointOk, SinglesOk, TransfersOk, Listable;
  }

  lemma {:induction false} ListViews(
      v: World, b: BatchId, row: Row, writes: seq<Cmd>, resumed: bool, v': World, op: Operator)
    requires BatchesKnown(v) && Listable(v, b, row) && Lists(v, b, row, writes, resumed, v')
    ensures Part(v'.store, v'.table, op) == Part(v.store, v.table, op)
    ensures PaidOf(v', op) == PaidOf(v, op)
    ensures Held(v', op) == if op == row.operator then Held(v, op)[b := row] else Held(v, op)
    ensures op != row.operator ==> Chain(v'.svc.chains, op) == Chain(v.svc.chains, op)
  {
    hide PaidOf, Part, Held, Listable;
    ListGrows(v, b, row, writes, resumed, v');
    ListHeld(v, b, row, writes, resumed, v', op);
    PartOfGrownTable(v.store, v.table, v'.table, op);
    PaidSame(v, v', op);
  }

  lemma {:induction false} ListGrows(v: World, b: BatchId, row: Row, writes: seq<Cmd>, resumed: bool, v': World)
    requires Listable(v, b, row) && Lists(v, b, row, writes, resumed, v')
    ensures v'.store == v.store && v'.table == v.table[b := row] && v'.committed == v.committed
    ensures v'.svc.liabilities.Keys == v.svc.liabilities.Keys + {b}
    ensures b in v.table ==> v.table[b] == row
  {
    hide RecsOk, IsSingle, Active, Ids;
  }

  lemma {:induction false} HeldIsRowsOf(v: World, op: Operator)
    ensures Held(v, op) == RowsOf(v.table, LoadedBatches(v.store).Keys + v.svc.liabilities.Keys, op)
  {
    hide LoadedBatches;
  }

  lemma {:induction false} ListHeld(
      v: World, b: BatchId, row: Row, writes: seq<Cmd>, resumed: bool, v': World, op: Operator)
    requires Listable(v, b, row) && Lists(v, b, row, writes, resumed, v')
    ensures Held(v', op) == if op == row.operator then Held(v, op)[b := row] else Held(v, op)
  {
    ListGrows(v, b, row, writes, resumed, v');
    hide Listable, Lists, LoadedBatches, Held, RowsOf;
    HeldIsRowsOf(v, op);
    HeldIsRowsOf(v', op);
    var held := LoadedBatches(v.store).Keys + v.svc.liabilities.Keys;
    RowsOfPut(v.table, held, op, b, row);
    assert held + {b} == LoadedBatches(v.store).Keys + v'.svc.liabilities.Keys;
  }

  lemma {:induction false} ListQueueOther(
      v: World, b: BatchId, row: Row, writes: seq<Cmd>, resumed: bool, v': World, op: Operator)
    requires op != row.operator && QueueOk(v, op) && Lists(v, b, row, writes, resumed, v')
    ensures QueueOk(v', op)
  {
    assert Chain(v'.svc.chains, op) == Chain(v.svc.chains, op);
  }

  lemma {:induction false} ListOtherLine(
      v: World, b: BatchId, row: Row, writes: seq<Cmd>, resumed: bool, v': World, op: Operator, waiting: bool)
    requires BatchesKnown(v) && Listable(v, b, row) && Lists(v, b, row, writes, resumed, v')
    requires op != row.operator && RecoveryLine(v, op, waiting) && QueueOk(v, op)
    ensures RecoveryLine(v', op, waiting) && QueueOk(v', op)
  {
    hide PaidOf, Part, Held, Listable, BatchesKnown, Lists, Safe, ExecAll;
    ListViews(v, b, row, writes, resumed, v', op);
    ListGrows(v, b, row, writes, resumed, v');
    ListQueueOther(v, b, row, writes, resumed, v', op);
    hide QueueOk;
    ChainFitsMore(Chain(v.svc.chains, op), op, v.table, 0, v'.table, 0);
    assert BatchesFit(Part(v.store, v.table, op), v'.table);
  }

  lemma {:induction false} ListQueue(
      v: World, b: BatchId, row: Row, writes: seq<Cmd>, resumed: bool, v': World)
    requires QueueOk(v, row.operator) && Lists(v, b, row, writes, resumed, v')
    requires forall c | c in writes :: !c.DelBatch? && !c.SremBatch?
    requires forall c | c in writes && (c.SetBatch? || c.SaddBatch?) :: c.b == b
    ensures QueueOk(v', row.operator)
  {
    forall c | c in Chain(v'.svc.chains, row.operator)
      ensures c in Chain(v.svc.chains, row.operator) || c in writes
    {}
  }

  lemma {:induction false} ListListed(v: World, b: BatchId, row: Row, writes: seq<Cmd>, resumed: bool, v': World)
    requires Listable(v, b, row) && Lists(v, b, row, writes, resumed, v')
    ensures Listed(v') == Listed(v) + Ids(row.records)
  {
    ListGrows(v, b, row, writes, resumed, v');
    hide Listable, Lists;
    forall x | x in Listed(v) + Ids(row.records)
      ensures x in Listed(v')
    {
      if x in Ids(row.records) {
        var r :| r in row.records && r.requestId == x;
        assert b in v'.svc.liabilities && v'.table[b] == row;
      } else {
        var c, r :| c in v.svc.liabilities && c in v.table && r in v.table[c].records && r.requestId == x;
        assert c in v'.svc.liabilities && v'.table[c] == v.table[c];
      }
    }
  }

  // ----- a batch row is resumed -----

  lemma {:induction false} ListedApart(v: World, b: BatchId)
    requires DisjointOk(v) && b in LoadedBatches(v.store) && b !in v.svc.liabilities
    ensures b in v.table && Ids(v.table[b].records) !! Listed(v)
  {
    assert Active(v, b);
    forall x | x in Listed(v)
      ensures x !in Ids(v.table[b].records)
    {
      var c, r :| c in v.svc.liabilities && c in v.table && r in v.table[c].records && r.requestId == x;
      assert Active(v, c) && x in Ids(v.table[c].records);
    }
  }

  lemma {:induction false} ResumeListable(v: World, b: BatchId)
    requires Core(v) && b in LoadedBatches(v.store) && b !in v.svc.liabilities
    ensures b in v.table && Listable(v, b, v.table[b])
  {
    assert Active(v, b);
    forall x | IsSingle(v, x)
      ensures x !in Ids(v.table[b].records)
    {
      assert Batchless(v, x);
    }
  }

  lemma {:induction false} LoadableIsHeld(v: World, b: BatchId)
    requires b in v.table && b in LoadedBatches(v.store)
    ensures var held := Held(v, v.table[b].operator);
      b in held && held[b] == v.table[b] && held[b := v.table[b]] == held
  {
    hide LoadedBatches;
  }

  lemma {:induction false} ResumeOwnLine(v: World, b: BatchId, v': World, waiting: bool)
    requires BatchesKnown(v) && b in v.table && Listable(v, b, v.table[b])
    requires b in LoadedBatches(v.store)
    requires Lists(v, b, v.table[b], PutBatchCmds(b, v.table[b]), true, v')
    requires RecoveryLine(v, v.table[b].operator, waiting)
    ensures RecoveryLine(v', v.table[b].operator, waiting)
  {
    var op := v.table[b].operator;
    assert v.table[b := v.table[b]] == v.table;
    hide PaidOf, Part, Held, Listable, BatchesKnown, Lists, PutBatchCmds, Safe, ExecAll, LoadedOpen,
      LoadedBatches, BatchesFit, ChainFits;
    LoadableIsHeld(v, b);
    ListViews(v, b, v.table[b], PutBatchCmds(b, v.table[b]), true, v', op);
    ListGrows(v, b, v.table[b], PutBatchCmds(b, v.table[b]), true, v');
    ListChain(v, b, v.table[b], PutBatchCmds(b, v.table[b]), true, v');
    ResumeIsSafe(Part(v.store, v.table, op), [], Chain(v.svc.chains, op), op, PaidOf(v, op), v.table, b);
  }

  // ----- an open row is recovered -----

  /** Whatever of an open row is handled already sits in a batch row of the same operator. */
  lemma {:induction false} HandledIsHeld(v: World, row: Row)
    requires Core(v) && LoadedOpen(v.store, row.operator) == Some(row)
    requires BatchesFit(v.store, v.table)
    ensures forall x | x in Ids(row.records) && x in Listed(v) ::
              exists b :: b in Held(v, row.operator) && x in Ids(v.table[b].records)
  {
    forall x | x in Ids(row.records) && x in Listed(v)
      ensures exists b :: b in Held(v, row.operator) && x in Ids(v.table[b].records)
    {
      var c, r :| c in v.svc.liabilities && c in v.table && r in v.table[c].records && r.requestId == x;
      assert RecsOk(v.table[c].records, v.table[c].operator, v.recs);
      assert RecsOk(row.records, row.operator, v.recs);
      assert x in Ids(v.table[c].records);
      SameOperator(v.table[c].records, v.table[c].operator, row.records, row.operator, v.recs, x);
      assert c in Held(v, row.operator);
    }
  }

  lemma {:induction false} HeldIsBatched(v: World, op: Operator, f: Store, row: Row, payable: set<RequestId>)
    requires LoadedBatches(f) == Held(v, op)
    requires forall x | x in Ids(row.records) && x !in payable ::
               exists b :: b in Held(v, op) && x in Ids(v.table[b].records)
    ensures Ids(row.records) <= payable + BatchIds(f)
  {
    forall x | x in Ids(row.records) && x !in payable
      ensures x in BatchIds(f)
    {
      var b :| b in Held(v, op) && x in Ids(v.table[b].records);
      var r :| r in v.table[b].records && r.requestId == x;
      assert b in LoadedBatches(f) && LoadedBatches(f)[b] == v.table[b];
    }
  }

  /** What is left of an open row has not been paid, and no listed or loadable batch has it. */
  lemma {:induction false} PayableIsFresh(v: World, row: Row, payable: seq<Rec>)
    requires Core(v) && LoadedOpen(v.store, row.operator) == Some(row)
    requires forall b | b in LoadedBatches(v.store) :: b in v.svc.liabilities
    requires PaidIsBatched(Part(v.store, v.table, row.operator), row.operator, PaidOf(v, row.operator))
    requires Ids(payable) == Ids(row.records) - Listed(v)
    ensures forall c | Active(v, c) :: c in v.table && Ids(v.table[c].records) !! Ids(payable)
  {
    var op := row.operator;
    var part := Part(v.store, v.table, op);
    PartLoads(v.store, v.table, op);
    forall c | Active(v, c)
      ensures c in v.table && Ids(v.table[c].records) !! Ids(payable)
    {
      if c in v.svc.liabilities {
        assert Ids(v.table[c].records) <= Listed(v) by {
          assert forall r | r in v.table[c].records :: r.requestId in Listed(v);
        }
      } else {
        assert Batch(c) in v.committed;
        CommittedApart(v, row, payable, c);
      }
    }
  }

  lemma {:induction false} CommittedApart(v: World, row: Row, payable: seq<Rec>, c: BatchId)
    requires Core(v) && LoadedOpen(v.store, row.operator) == Some(row)
    requires forall b | b in LoadedBatches(v.store) :: b in v.svc.liabilities
    requires PaidIsBatched(Part(v.store, v.table, row.operator), row.operator, PaidOf(v, row.operator))
    requires Ids(payable) == Ids(row.records) - Listed(v)
    requires Batch(c) in v.committed && c in v.table
    ensures Ids(v.table[c].records) !! Ids(payable)
  {
    var op := row.operator;
    var part := Part(v.store, v.table, op);
    PartLoads(v.store, v.table, op);
    assert RecsOk(row.records, op, v.recs);
    if v.table[c].operator != op {
      OperatorsApart(v.table[c].records, v.table[c].operator, row.records, op, v.recs);
    } else {
      forall x | x in Ids(v.table[c].records)
        ensures x !in Ids(payable)
      {
        var r :| r in v.table[c].records && r.requestId == x;
        assert x in PaidOf(v, op);
        if x in Ids(row.records) {
          assert x in OpenIds(part, op);
          LoadableIsListed(v, op, x);
        }
      }
    }
  }

  lemma {:induction false} LoadableIsListed(v: World, op: Operator, x: RequestId)
    requires BatchesFit(v.store, v.table)
    requires forall b | b in LoadedBatches(v.store) :: b in v.svc.liabilities
    requires x in BatchIds(Part(v.store, v.table, op))
    ensures x in Listed(v)
  {
    var part := Part(v.store, v.table, op);
    PartLoads(v.store, v.table, op);
    var b, r :| b in LoadedBatches(part) && r in LoadedBatches(part)[b].records && r.requestId == x;
    assert LoadedBatches(part)[b] == v.table[b];
  }

  lemma {:induction false} MintListable(v: World, row: Row, b: BatchId, payable: seq<Rec>)
    requires Core(v) && LoadedOpen(v.store, row.operator) == Some(row) && Fresh(v, b)
    requires forall c | c in LoadedBatches(v.store) :: c in v.svc.liabilities
    requires PaidIsBatched(Part(v.store, v.table, row.operator), row.operator, PaidOf(v, row.operator))
    requires payable == Unhandled(row.records, Listed(v)) && payable != []
    ensures Listable(v, b, row.(records := payable, batchId := Some(b)))
  {
    UnhandledKeeps(row.records, Listed(v));
    PayableOk(row.records, row.operator, v.recs, Listed(v));
    PayableIsFresh(v, row, payable);
    CoreKnowsBatches(v);
    forall x | IsSingle(v, x)
      ensures x !in Ids(payable)
    {
      assert Batchless(v, x);
    }
  }

  /** What an open row holds is payable now or already in a batch row. */
  ghost predicate Covered(v: World, row: Row, payable: seq<Rec>) {
    var op := row.operator;
    Ids(row.records)
      <= Ids(payable) + BatchIds(ExecAll(Part(v.store, v.table, op), [], Chain(v.svc.chains, op)))
  }

  lemma {:induction false} OpenIsCovered(v: World, row: Row)
    requires Core(v) && LoadedOpen(v.store, row.operator) == Some(row)
    requires RecoveryLine(v, row.operator, true)
    ensures Covered(v, row, Unhandled(row.records, Listed(v)))
  {
    var op := row.operator;
    UnhandledKeeps(row.records, Listed(v));
    HandledIsHeld(v, row);
    hide Core;
    HeldIsBatched(v, op, ExecAll(Part(v.store, v.table, op), [], Chain(v.svc.chains, op)), row,
                  Ids(Unhandled(row.records, Listed(v))));
  }

  lemma {:induction false} ListChain(v: World, b: BatchId, row: Row, writes: seq<Cmd>, resumed: bool, v': World)
    requires Lists(v, b, row, writes, resumed, v')
    ensures Chain(v'.svc.chains, row.operator) == Chain(v.svc.chains, row.operator) + writes
    ensures v'.svc.heap == v.svc.heap
  {}

  lemma {:induction false} MintOwnLine(v: World, row: Row, b: BatchId, payable: seq<Rec>, v': World)
    requires BatchesKnown(v) && LoadedOpen(v.store, row.operator) == Some(row) && Fresh(v, b)
    requires Covered(v, row, payable) && RecoveryLine(v, row.operator, true)
    requires var minted := row.(records := payable, batchId := Some(b));
      && Listable(v, b, minted)
      && Lists(v, b, minted, PutBatchCmds(b, minted) + RemoveOpenCmds(row.operator), false, v')
    ensures RecoveryLine(v', row.operator, false)
  {
    hide PaidOf, Part, Held, Listable, BatchesKnown, BatchIds, LoadedBatches, Safe, ExecAll,
      ChainFits, RemoveOpenCmds, PutBatchCmds, Ids, Lists;
    var op := row.operator;
    var minted := row.(records := payable, batchId := Some(b));
    var writes := PutBatchCmds(b, minted) + RemoveOpenCmds(op);
    ListViews(v, b, minted, writes, false, v', op);
    ListGrows(v, b, minted, writes, false, v');
    ListChain(v, b, minted, writes, false, v');
    assert BatchesFit(Part(v.store, v.table, op), v'.table);
    hide BatchesFit;
    RecoverOpenIsSafe(Part(v.store, v.table, op), [], Chain(v.svc.chains, op), op, PaidOf(v, op),
                      v.table, b, minted);
    hide OpenIds;
  }

  /** An open row with nothing left to pay is dropped. */
  ghost predicate Drops(v: World, op: Operator, v': World) {
    v' == v.(svc := Enqueue(v.svc, op, RemoveOpenCmds(op)))
  }

  lemma {:induction false} DropCore(v: World, op: Operator, v': World)
    requires Core(v) && Recovering(v) && Drops(v, op, v')
    ensures Core(v') && Recovering(v')
  {
    forall p, c | p in v'.svc.chains && c in v'.svc.chains[p] && c.SetOpen?
      ensures p in v.svc.chains && c in v.svc.chains[p]
    {}
    NarrowsCore(v, v');
  }

  lemma {:induction false} DropOwnLine(v: World, row: Row, v': World)
    requires LoadedOpen(v.store, row.operator) == Some(row) && Covered(v, row, [])
    requires RecoveryLine(v, row.operator, true) && Drops(v, row.operator, v')
    ensures RecoveryLine(v', row.operator, false)
  {
    var op := row.operator;
    assert Held(v', op) == Held(v, op) && PaidOf(v', op) == PaidOf(v, op);
    hide PaidOf, Part, Held;
    DropOpenIsSafe(Part(v.store, v.table, op), [], Chain(v.svc.chains, op), op, PaidOf(v, op));
  }

  lemma {:induction false} DropQueue(v: World, op: Operator, v': World)
    requires QueueOk(v, op) && Drops(v, op, v')
    ensures QueueOk(v', op)
  {}

  lemma {:induction false} DropOtherLine(v: World, op: Operator, v': World, p: Operator, waiting: bool)
    requires Drops(v, op, v') && p != op && RecoveryLine(v, p, waiting) && QueueOk(v, p)
    ensures RecoveryLine(v', p, waiting) && QueueOk(v', p)
  {
    assert Held(v', p) == Held(v, p) && PaidOf(v', p) == PaidOf(v, p);
    assert Chain(v'.svc.chains, p) == Chain(v.svc.chains, p);
  }
}
