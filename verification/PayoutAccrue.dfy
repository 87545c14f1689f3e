/** Settlements and flushes keep the invariant. */
module PayoutAccrue {
  import opened Prelude
  import opened AccrualStore
  import opened Settlement
  import opened Owing
  import opened WriteChain
  import opened PayoutLine
  import opened PayoutWorld
  import opened PayoutSteps

  ghost function ArrayOf(w: World, op: Operator): nat
    requires op in w.svc.accruals
  {
    w.svc.accruals[op].arr
  }

  /** Between pushing a record and deciding whether to pay: `op`'s line is inside its turn. */
  ghost predicate MidState(w: World, op: Operator) {
    && w.up && Core(w) && op in w.svc.accruals
    && (forall p | p != op :: OperatorOk(w, p))
    && QueueOk(w, op)
    && InMidTurn(w, op)
  }

  lemma {:induction false} AccrualArray(w: World, op: Operator)
    requires HeapOk(w.svc, w.recs) && op in w.svc.accruals
    ensures var a := ArrayOf(w, op);
      && a < |w.svc.heap| && ArrayAt(w.svc.heap, a) == w.svc.heap[a]
      && w.svc.heap[a] != [] && RecsOk(w.svc.heap[a], op, w.recs)
  {}

  // ----- an accrual becomes a batch -----

  /** The change a flush makes, `row` being the batch it carves off. */
  ghost predicate Promotes(w: World, op: Operator, b: BatchId, row: Row, w': World) {
    && op in w.svc.accruals && ArrayOf(w, op) < |w.svc.heap|
    && row == Row(op, w.svc.heap[ArrayOf(w, op)], w.svc.accruals[op].firstAt, Some(b))
    && w' == w.(
         svc := w.svc.(
           accruals := w.svc.accruals - {op},
           liabilities := w.svc.liabilities[b :=
             Liability(op, Sum(row.records), |row.records|, row.firstAt, 0, None, None)],
           chains := w.svc.chains[op :=
             Chain(w.svc.chains, op) + (PutBatchCmds(b, row) + RemoveOpenCmds(op))],
           jobs := w.svc.jobs[Batch(b) := Job(op, Sum(row.records), row.records, Some(b), false)]),
         table := w.table[b := row])
  }

  lemma {:induction false} MintedOne(w: World, s: Service, b: BatchId, row: Row)
    requires forall c | c in s.liabilities :: c in w.table || c == b
    requires b in s.liabilities && b !in w.table && Batch(b) in s.jobs
    requires row == Row(s.liabilities[b].operator, s.jobs[Batch(b)].records, s.liabilities[b].oldestAt, Some(b))
    ensures WithService(w, s) == w.(svc := s, table := w.table[b := row])
  {
    assert Minted(s, w.table) == map[b := row];
  }

  lemma {:induction false} FlushPromotes(w: World, op: Operator, b: BatchId, w': World) returns (row: Row)
    requires HeapOk(w.svc, w.recs) && op in w.svc.accruals && Fresh(w, b)
    requires forall c | c in w.svc.liabilities :: c in w.table
    requires w' == WithService(w, FlushAccrual(w.svc, op, b))
    ensures Promotes(w, op, b, row, w')
  {
    AccrualArray(w, op);
    row := Row(op, w.svc.heap[ArrayOf(w, op)], w.svc.accruals[op].firstAt, Some(b));
    hide HeapOk;
    MintedOne(w, FlushAccrual(w.svc, op, b), b, row);
  }

  lemma {:induction false} PromoteTransfers(w: World, op: Operator, b: BatchId, row: Row, w': World)
    requires TransfersOk(w) && Fresh(w, b) && Promotes(w, op, b, row, w')
    ensures TransfersOk(w')
  {
    FixedStays(w, w');
    forall id | id in w'.svc.jobs
      ensures Known(w', id) && TransferOf(w'.svc.jobs[id]) == Fixed(w', id)
    {
      if id != Batch(b) { assert id in w.svc.jobs; }
    }
  }

  lemma {:induction false} PromoteDisjoint(w: World, op: Operator, b: BatchId, row: Row, w': World)
    requires DisjointOk(w) && HeapOk(w.svc, w.recs) && Fresh(w, b) && Promotes(w, op, b, row, w')
    ensures DisjointOk(w')
  {
    AccrualArray(w, op);
    forall c | Active(w', c)
      ensures c == b || Active(w, c)
    {}
    forall p | p in w'.svc.accruals
      ensures Ids(row.records) !! Ids(ArrayAt(w.svc.heap, w.svc.accruals[p].arr))
    {
      AccrualArray(w, p);
      OperatorsApart(row.records, op, w.svc.heap[ArrayOf(w, p)], p, w.recs);
    }
  }

  lemma {:induction false} PromoteSingles(w: World, op: Operator, b: BatchId, row: Row, w': World)
    requires SinglesOk(w) && Promotes(w, op, b, row, w')
    ensures SinglesOk(w')
  {
    forall x | IsSingle(w', x)
      ensures x in w'.recs && Batchless(w', x)
    {
      assert IsSingle(w, x);
    }
  }

  lemma {:induction false} PromoteTables(w: World, op: Operator, b: BatchId, row: Row, w': World)
    requires TableOk(w.table, w.recs) && StoreOk(w.store, w.table, w.recs)
    requires HeapOk(w.svc, w.recs) && Fresh(w, b) && Promotes(w, op, b, row, w')
    ensures TableOk(w'.table, w'.recs) && StoreOk(w'.store, w'.table, w'.recs)
  {
    AccrualArray(w, op);
  }

  lemma {:induction false} PromoteHeap(w: World, op: Operator, b: BatchId, row: Row, w': World)
    requires HeapOk(w.svc, w.recs) && Promotes(w, op, b, row, w')
    ensures HeapOk(w'.svc, w'.recs)
  {
    forall p, c | p in w'.svc.chains && c in w'.svc.chains[p] && c.SetOpen?
      ensures p in w.svc.chains && c in w.svc.chains[p]
    {}
  }

  lemma {:induction false} PromoteCore(w: World, op: Operator, b: BatchId, row: Row, w': World)
    requires Core(w) && Fresh(w, b) && w.up && Promotes(w, op, b, row, w')
    ensures Core(w')
  {
    PromoteTransfers(w, op, b, row, w');
    PromoteDisjoint(w, op, b, row, w');
    PromoteSingles(w, op, b, row, w');
    PromoteTables(w, op, b, row, w');
    PromoteHeap(w, op, b, row, w');
    hide TableOk, StoreOk, HeapOk, DisjointOk, SinglesOk, TransfersOk;
  }

  lemma {:induction false} PaidSame(w: World, w': World, op: Operator)
    requires forall b | b in w.table :: b in w'.table && w'.table[b] == w.table[b]
    requires w'.committed.Keys == w.committed.Keys
    requires forall b | Batch(b) in w.committed :: b in w.table
    ensures PaidOf(w', op) == PaidOf(w, op)
  {}

  ghost predicate BatchesKnown(w: World) {
    && BatchesFit(w.store, w.table)
    && (forall b | Batch(b) in w.committed :: b in w.table)
    && (forall b | b in w.svc.liabilities :: b in w.table)
  }

  lemma {:induction false} CoreKnowsBatches(w: World)
    requires Core(w)
    ensures BatchesKnown(w)
  {
    forall b | Batch(b) in w.committed
      ensures b in w.table
    {
      assert Known(w, Batch(b));
    }
  }

  ghost predicate InMidTurn(w: World, op: Operator) {
    && op in w.svc.accruals
    && MidTurn(Part(w.store, w.table, op), w.svc.heap, Chain(w.svc.chains, op), op, PaidOf(w, op),
               w.table, ArrayOf(w, op), DueTo(w, op))
  }

  lemma {:induction false} PromoteGrows(w: World, op: Operator, b: BatchId, row: Row, w': World)
    requires Fresh(w, b) && Promotes(w, op, b, row, w')
    ensures forall c | c in w.table :: c in w'.table && w'.table[c] == w.table[c]
    ensures w'.store == w.store && w'.committed == w.committed
    ensures w'.table == w.table[b := row] && w'.svc.liabilities.Keys == w.svc.liabilities.Keys + {b}
    ensures row.operator == op && b !in w.table
  {}

  /** The rows `table` has for those of the batches `bs` that are `op`'s. */
  ghost function RowsOf(table: map<BatchId, Row>, bs: set<BatchId>, op: Operator): map<BatchId, Row> {
    map b | b in table && b in bs && table[b].operator == op :: table[b]
  }

  lemma {:induction false} RowsOfPut(table: map<BatchId, Row>, bs: set<BatchId>, op: Operator, b: BatchId, row: Row)
    requires b in table ==> table[b] == row
    ensures RowsOf(table[b := row], bs + {b}, op)
      == if op == row.operator then RowsOf(table, bs, op)[b := row] else RowsOf(table, bs, op)
  {}

  lemma {:induction false} DueIsRowsOf(w: World, op: Operator)
    ensures DueTo(w, op) == RowsOf(w.table, w.svc.liabilities.Keys, op)
  {}

  lemma {:induction false} PromoteDue(w: World, op: Operator, b: BatchId, row: Row, w': World, p: Operator)
    requires Fresh(w, b) && Promotes(w, op, b, row, w')
    ensures DueTo(w', p) == if p == op then DueTo(w, p)[b := row] else DueTo(w, p)
  {
    PromoteGrows(w, op, b, row, w');
    hide Promotes, DueTo, RowsOf;
    DueIsRowsOf(w, p);
    DueIsRowsOf(w', p);
    RowsOfPut(w.table, w.svc.liabilities.Keys, p, b, row);
  }

  lemma {:induction false} PromoteRest(w: World, op: Operator, b: BatchId, row: Row, w': World, p: Operator)
    requires Promotes(w, op, b, row, w')
    ensures AccrualOf(w'.svc, p) == if p == op then None else AccrualOf(w.svc, p)
    ensures p != op ==> Chain(w'.svc.chains, p) == Chain(w.svc.chains, p)
  {}

  lemma {:induction false} PromoteViews(w: World, op: Operator, b: BatchId, row: Row, w': World, p: Operator)
    requires BatchesKnown(w) && Fresh(w, b) && Promotes(w, op, b, row, w')
    ensures Part(w'.store, w'.table, p) == Part(w.store, w.table, p)
    ensures PaidOf(w', p) == PaidOf(w, p)
    ensures DueTo(w', p) == if p == op then DueTo(w, p)[b := row] else DueTo(w, p)
    ensures AccrualOf(w'.svc, p) == if p == op then None else AccrualOf(w.svc, p)
    ensures p != op ==> Chain(w'.svc.chains, p) == Chain(w.svc.chains, p)
  {
    hide PaidOf, Part, DueTo, Promotes;
    PromoteGrows(w, op, b, row, w');
    PromoteDue(w, op, b, row, w', p);
    PromoteRest(w, op, b, row, w', p);
    PartOfGrownTable(w.store, w.table, w'.table, p);
    PaidSame(w, w', p);
  }

  lemma {:induction false} PromoteOwnLine(w: World, op: Operator, b: BatchId, row: Row, w': World)
    requires BatchesKnown(w) && w.up && InMidTurn(w, op)
    requires Fresh(w, b) && Promotes(w, op, b, row, w')
    ensures LineHolds(w', op)
  {
    hide LineOk, MidTurn, DueTo, PaidOf, Part;
    PromoteViews(w, op, b, row, w', op);
    hide BatchesKnown;
    MidTurnPromote(Part(w.store, w.table, op), w.svc.heap, Chain(w.svc.chains, op), op, PaidOf(w, op),
                   w.table, ArrayOf(w, op), DueTo(w, op), b, row);
  }

  lemma {:induction false} PromoteOtherLine(w: World, op: Operator, b: BatchId, row: Row, w': World, p: Operator)
    requires BatchesKnown(w) && w.up && OperatorOk(w, p) && p != op
    requires Fresh(w, b) && Promotes(w, op, b, row, w')
    ensures OperatorOk(w', p)
  {
    hide LineOk, DueTo, PaidOf, Part;
    PromoteViews(w, op, b, row, w', p);
    hide BatchesKnown;
    LineUntouched(Part(w.store, w.table, p), w.svc.heap, w.svc.heap, Chain(w.svc.chains, p), p,
                  PaidOf(w, p), w.table, w'.table, AccrualOf(w.svc, p), DueTo(w, p));
  }

  lemma {:induction false} PromoteQueue(w: World, op: Operator, b: BatchId, row: Row, w': World)
    requires QueueOk(w, op) && Promotes(w, op, b, row, w')
    ensures QueueOk(w', op)
  {}

  lemma {:induction false} PromoteOwed(w: World, op: Operator, b: BatchId, row: Row, w': World)
    requires Core(w) && Fresh(w, b) && Promotes(w, op, b, row, w')
    ensures Owed(w'.svc) == Owed(w.svc)
  {
    PromotedTotals(w, op, b, row, w');
    hide Core, Promotes, Fresh, SumTotals, SumOwed;
    SumTotalsAt(w.svc.accruals, op);
    SumOwedPut(w.svc.liabilities, b, w'.svc.liabilities[b]);
  }

  lemma {:induction false} PromotedTotals(w: World, op: Operator, b: BatchId, row: Row, w': World)
    requires Core(w) && Fresh(w, b) && Promotes(w, op, b, row, w')
    ensures op in w.svc.accruals && w.svc.accruals[op].total == Sum(row.records) && b !in w.svc.liabilities
    ensures b in w'.svc.liabilities && w'.svc.liabilities[b].owed == Sum(row.records)
    ensures w'.svc.accruals == w.svc.accruals - {op}
    ensures w'.svc.liabilities == w.svc.liabilities[b := w'.svc.liabilities[b]]
  {
    CoreKnowsBatches(w);
    assert HeapOk(w.svc, w.recs);
    hide Core, RecsOk, Distinct;
  }

  lemma {:induction false} CoreHeap(w: World)
    requires Core(w)
    ensures HeapOk(w.svc, w.recs)
  {}

  lemma {:induction false} PromotedRest(w: World, op: Operator, b: BatchId, row: Row, w': World)
    requires Promotes(w, op, b, row, w')
    ensures w'.up == w.up && w'.svc.cfg == w.svc.cfg && w'.books == w.books
    ensures w'.svc.jobs.Keys == w.svc.jobs.Keys + {Batch(b)}
  {}

  lemma {:induction false} PromoteStep(w: World, op: Operator, b: BatchId, w': World)
    requires MidState(w, op) && Fresh(w, b)
    requires w' == WithService(w, FlushAccrual(w.svc, op, b))
    ensures Core(w') && w'.up && (forall p :: OperatorOk(w', p))
    ensures Owed(w'.svc) == Owed(w.svc)
    ensures w'.svc.cfg == w.svc.cfg && w'.books == w.books
    ensures w'.svc.jobs.Keys == w.svc.jobs.Keys + {Batch(b)}
  {
    CoreKnowsBatches(w);
    CoreHeap(w);
    hide Core, OperatorOk, HeapOk, InMidTurn, QueueOk, LineHolds, Owed, WithService, FlushAccrual, Fresh;
    var row := FlushPromotes(w, op, b, w');
    PromotedRest(w, op, b, row, w');
    hide Promotes;
    PromoteCore(w, op, b, row, w');
    PromoteOwed(w, op, b, row, w');
    forall p
      ensures OperatorOk(w', p)
    {
      if p == op {
        PromoteOwnLine(w, op, b, row, w');
        PromoteQueue(w, op, b, row, w');
        LineAndQueue(w', op);
      } else {
        PromoteOtherLine(w, op, b, row, w', p);
      }
    }
  }

  lemma {:induction false} LineAndQueue(w: World, op: Operator)
    requires LineHolds(w, op) && QueueOk(w, op)
    ensures OperatorOk(w, op)
  {}

  lemma {:induction false} SettledToMidState(w: World, op: Operator)
    requires Core(w) && w.up && (forall p :: OperatorOk(w, p)) && op in w.svc.accruals
    ensures MidState(w, op)
  {
    hide Core;
    assert OperatorOk(w, op);
    LineToMidTurn(Part(w.store, w.table, op), w.svc.heap, Chain(w.svc.chains, op), op, PaidOf(w, op),
                  w.table, AccrualOf(w.svc, op), DueTo(w, op));
  }

  lemma {:induction false} FlushStep(w: World, op: Operator, b: BatchId, w': World)
    requires Core(w) && (forall p :: OperatorOk(w, p)) && Next(w, Flush(op, b), w')
    ensures Core(w') && (forall p :: OperatorOk(w', p)) && w.up && w'.up
    ensures Owed(w'.svc) == Owed(w.svc) && w'.svc.cfg == w.svc.cfg && w'.books == w.books
    ensures forall id | id in w'.svc.jobs :: id in w.svc.jobs || id.Batch?
  {
    FlushIsFlush(w, op, b, w');
    hide Core, OperatorOk, Next, Owed, WithService, FlushAccrual, Fresh, MidState;
    if op in w.svc.accruals {
      SettledToMidState(w, op);
      PromoteStep(w, op, b, w');
    } else {
      NothingMinted(w);
    }
  }

  lemma {:induction false} FlushInv(w: World, op: Operator, b: BatchId, w': World)
    requires Inv(w) && Next(w, Flush(op, b), w')
    ensures Inv(w')
  {
    hide Core, OperatorOk, Next, Owed;
    FlushStep(w, op, b, w');
  }

  lemma {:induction false} FlushIsFlush(w: World, op: Operator, b: BatchId, w': World)
    requires Next(w, Flush(op, b), w')
    ensures w.up && Fresh(w, b) && w' == WithService(w, FlushAccrual(w.svc, op, b))
    ensures op !in w.svc.accruals ==> FlushAccrual(w.svc, op, b) == w.svc
  {
    hide WithService;
  }

  lemma {:induction false} NothingMinted(w: World)
    requires Core(w)
    ensures WithService(w, w.svc) == w
  {
    CoreKnowsBatches(w);
    hide Core;
    NothingMintedWith(w, w.svc);
  }

  lemma {:induction false} NothingMintedWith(w: World, s: Service)
    requires forall b | b in s.liabilities :: b in w.table
    ensures WithService(w, s) == w.(svc := s)
  {
    assert Minted(s, w.table) == map[];
  }
}
