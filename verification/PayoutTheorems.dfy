/** What holds over every run of the payout engine, whatever the interleaving and the crashes. */
module PayoutTheorems {
  import opened Prelude
  import opened AccrualStore
  import opened Settlement
  import opened Owing
  import opened WriteChain
  import opened PayoutLine
  import opened PayoutWorld
  import opened PayoutSteps
  import opened PayoutAccrue
  import opened PayoutSettle
  import opened PayoutRecover
  import opened PayoutBoot

  lemma {:induction false} StepInv(w: World, e: Event, w': World)
    requires Inv(w) && Next(w, e, w')
    ensures Inv(w')
  {
    hide Inv, Next;
    match e
    case Route(id, nodeId, op, at) => RouteInv(w, id, nodeId, op, at, w');
    case Settle(inbound, at, newId) => SettleInv(w, inbound, at, newId, w');
    case Flush(op, newId) => FlushInv(w, op, newId, w');
    case Apply(op) => ApplyInv(w, op, w');
    case Submit(id) => SubmitInv(w, id, w');
    case Commit(id) => CommitInv(w, id, w');
    case PaidOut(id) => PaidOutInv(w, id, w');
    case GaveUp(id, reason, at) => GaveUpInv(w, id, reason, at, w');
    case Crash => CrashInv(w, w');
    case Recover(cfg, hydrated, open, batches, ids) =>
      RecoverInv(w, cfg, hydrated, open, batches, ids, w');
  }

  /** A run from an empty store: `ws[i]` steps to `ws[i + 1]` by `es[i]`. */
  ghost predicate IsRun(ws: seq<World>, es: seq<Event>) {
    && |ws| == |es| + 1
    && Init(ws[0])
    && forall i | 0 <= i < |es| :: Next(ws[i], es[i], ws[i + 1])
  }

  lemma {:induction false} RunStep(ws: seq<World>, es: seq<Event>, i: nat)
    requires IsRun(ws, es) && i < |es|
    ensures Next(ws[i], es[i], ws[i + 1])
  {}

  lemma {:induction false} RunInv(ws: seq<World>, es: seq<Event>, i: nat)
    requires IsRun(ws, es) && i < |ws|
    ensures Inv(ws[i])
  {
    hide Inv, Next, Init;
    if i == 0 {
      InitInv(ws[0]);
    } else {
      RunInv(ws, es, i - 1);
      StepInv(ws[i - 1], es[i - 1], ws[i]);
    }
  }

  // ----- at most once -----

  ghost predicate Covers(t: Transfer, x: RequestId) {
    x in Ids(t.records)
  }

  lemma {:induction false} CommittedOnce(w: World, p: PayoutId, q: PayoutId, x: RequestId)
    requires Core(w) && p in w.committed && q in w.committed
    requires Covers(w.committed[p], x) && Covers(w.committed[q], x)
    ensures p == q
    ensures Distinct(w.committed[p].records)
  {
    assert Known(w, p) && w.committed[p] == Fixed(w, p);
    assert Known(w, q) && w.committed[q] == Fixed(w, q);
    if p.Batch? { assert x in Ids(w.table[p.batch].records); }
    if q.Batch? { assert x in Ids(w.table[q.batch].records); }
    if p.Single? { assert IsSingle(w, p.request) && Batchless(w, p.request); }
    if q.Single? { assert IsSingle(w, q.request) && Batchless(w, q.request); }
    if p.Batch? && q.Batch? {
      assert Active(w, p.batch) && Active(w, q.batch);
    }
  }

  /** Over every run no request is covered by two committed transfers, or twice by one. */
  lemma {:induction false} AtMostOnce(ws: seq<World>, es: seq<Event>, i: nat, p: PayoutId, q: PayoutId, x: RequestId)
    requires IsRun(ws, es) && i < |ws|
    requires p in ws[i].committed && Covers(ws[i].committed[p], x)
    requires q in ws[i].committed && Covers(ws[i].committed[q], x)
    ensures p == q
    ensures Distinct(ws[i].committed[p].records)
    ensures ws[i].committed[p].amount == Sum(ws[i].committed[p].records)
  {
    RunInv(ws, es, i);
    CommittedOnce(ws[i], p, q, x);
    CommittedAmount(ws[i], p);
  }

  lemma {:induction false} CommittedAmount(w: World, p: PayoutId)
    requires Core(w) && p in w.committed
    ensures w.committed[p].amount == Sum(w.committed[p].records)
  {
    assert Known(w, p) && w.committed[p] == Fixed(w, p);
  }

  // ----- a payout id stands for one transfer for ever -----

  lemma {:induction false} FixedByOneStep(w: World, e: Event, w': World, id: PayoutId)
    requires Core(w) && Next(w, e, w') && id in w.submitted
    ensures id in w'.submitted && w'.submitted[id] == w.submitted[id]
    ensures id in w.committed ==> id in w'.committed && w'.committed[id] == w.submitted[id]
  {
    ChainGrows(w, e, w');
    hide Next;
    if id in w.svc.jobs {
      assert TransferOf(w.svc.jobs[id]) == Fixed(w, id) == w.submitted[id];
    }
  }

  /** What is submitted stays unless the same payout is submitted again; what is committed stays. */
  lemma {:induction false} ChainGrows(w: World, e: Event, w': World)
    requires Next(w, e, w')
    ensures forall id | id in w.committed :: id in w'.committed && w'.committed[id] == w.committed[id]
    ensures forall id | id in w.submitted ::
              id in w'.submitted && (w'.submitted[id] == w.submitted[id]
                || (id in w.svc.jobs && w'.submitted[id] == TransferOf(w.svc.jobs[id])))
    ensures !e.Apply? ==> w'.store == w.store
  {
    hide SettleInbound, FlushAccrual, RecoverAccruals, RecordRouting, FinalizeSettled, FinalizeFailed,
      Admitted, Minted, Owed, LoadedBatches, IsLoad, TransferOf, AfterSettle, WithService, Exec, Boot,
      MayCommit, Fresh, Chain;
    match e
    case Settle(inbound, at, newId) => SettleKeepsChain(w, inbound, at, newId);
    case Flush(op, newId) => MintKeepsChain(w, FlushAccrual(w.svc, op, newId));
    case Recover(cfg, hydrated, open, batches, ids) =>
      MintKeepsChain(w, RecoverAccruals(Boot(cfg, hydrated), open, batches, ids));
    case _ =>
  }

  lemma {:induction false} MintKeepsChain(w: World, s: Service)
    ensures var w' := WithService(w, s);
      w'.store == w.store && w'.submitted == w.submitted && w'.committed == w.committed
  {}

  lemma {:induction false} SettleKeepsChain(w: World, inbound: Inbound, at: int, newId: BatchId)
    ensures var w' := AfterSettle(w, inbound, at, newId);
      w'.store == w.store && w'.submitted == w.submitted && w'.committed == w.committed
  {
    MintKeepsChain(w, SettleInbound(w.svc, inbound, at, newId));
    hide WithService, SettleInbound, Admitted;
  }

  lemma {:induction false} CommittedIsSubmitted(w: World, id: PayoutId)
    requires Core(w)
    ensures id in w.committed ==> id in w.submitted && w.committed[id] == w.submitted[id]
  {}

  /**
   * Whatever is submitted under a payout id, before or after any number of crashes, has the
   * receiver, amount and requests of its first submission.
   */
  lemma {:induction false} FixedForEver(ws: seq<World>, es: seq<Event>, i: nat, j: nat, id: PayoutId)
    requires IsRun(ws, es) && i <= j < |ws| && id in ws[i].submitted
    ensures id in ws[j].submitted && ws[j].submitted[id] == ws[i].submitted[id]
    ensures id in ws[j].committed ==> ws[j].committed[id] == ws[i].submitted[id]
    decreases j - i
  {
    hide Core, BooksOk, OperatorOk, Next, Fixed;
    RunInv(ws, es, j);
    CommittedIsSubmitted(ws[j], id);
    if i < j {
      FixedForEver(ws, es, i, j - 1, id);
      RunInv(ws, es, j - 1);
      RunStep(ws, es, j - 1);
      FixedByOneStep(ws[j - 1], es[j - 1], ws[j], id);
    }
  }

  // ----- a loadable request stays loadable until it is paid -----

  /** A boot now would find `x` in an open or a batch row. */
  ghost predicate Found(st: Store, x: RequestId) {
    x in BatchIds(st) || exists op :: x in OpenIds(st, op)
  }

  ghost predicate PaidFor(w: World, x: RequestId) {
    exists id :: id in w.committed && Covers(w.committed[id], x)
  }

  lemma {:induction false} PartFinds(st: Store, table: map<BatchId, Row>, op: Operator, x: RequestId)
    requires BatchesFit(st, table)
    ensures x in Loadable(Part(st, table, op), op) ==> Found(st, x)
    ensures x in OpenIds(st, op) ==> x in Loadable(Part(st, table, op), op)
  {
    var part := Part(st, table, op);
    PartLoads(st, table, op);
    assert OpenIds(part, op) == OpenIds(st, op);
    if x in BatchIds(part) {
      var b, r :| b in LoadedBatches(part) && r in LoadedBatches(part)[b].records && r.requestId == x;
      assert b in LoadedBatches(st) && LoadedBatches(st)[b] == LoadedBatches(part)[b];
    }
  }

  lemma {:induction false} BatchInPart(st: Store, table: map<BatchId, Row>, x: RequestId) returns (op: Operator)
    requires BatchesFit(st, table) && x in BatchIds(st)
    ensures x in Loadable(Part(st, table, op), op)
  {
    var b, r :| b in LoadedBatches(st) && r in LoadedBatches(st)[b].records && r.requestId == x;
    op := table[b].operator;
    PartLoads(st, table, op);
    assert b in LoadedBatches(Part(st, table, op)) && LoadedBatches(Part(st, table, op))[b] == table[b];
  }

  lemma {:induction false} FoundInPart(st: Store, table: map<BatchId, Row>, x: RequestId) returns (op: Operator)
    requires BatchesFit(st, table) && Found(st, x)
    ensures x in Loadable(Part(st, table, op), op)
  {
    if x in BatchIds(st) {
      op := BatchInPart(st, table, x);
    } else {
      op :| x in OpenIds(st, op);
      PartFinds(st, table, op, x);
    }
  }

  lemma {:induction false} PaidOfIsPaidFor(w: World, op: Operator, x: RequestId)
    requires Core(w) && x in PaidOf(w, op)
    ensures PaidFor(w, x)
  {
    var b, r :| b in w.table && Batch(b) in w.committed && r in w.table[b].records && r.requestId == x;
    assert w.committed[Batch(b)] == Fixed(w, Batch(b));
    assert Covers(w.committed[Batch(b)], x);
  }

  lemma {:induction false} ApplyOwn(w: World, op: Operator, w': World, x: RequestId)
    requires OperatorOk(w, op) && Next(w, Apply(op), w') && BatchesFit(w'.store, w'.table)
    requires x in Loadable(Part(w.store, w.table, op), op)
    ensures Found(w'.store, x) || x in PaidOf(w, op)
  {
    var chain := Chain(w.svc.chains, op);
    assert CmdFits(chain[0], op, w.table, |w.svc.heap|);
    hide CmdFits, Found, Part, PaidOf, DueTo, QueueOk, BatchesFit, Exec, Loadable;
    LineExec(Part(w.store, w.table, op), w.svc.heap, chain, op, PaidOf(w, op), w.table,
             AccrualOf(w.svc, op), DueTo(w, op));
    hide LineOk;
    PartOfExec(w.store, w.table, w.svc.heap, chain[0], op);
    PartFinds(w'.store, w'.table, op, x);
  }

  lemma {:induction false} ApplyOther(w: World, op: Operator, w': World, p: Operator, x: RequestId)
    requires OperatorOk(w, op) && Next(w, Apply(op), w') && BatchesFit(w'.store, w'.table) && p != op
    requires x in Loadable(Part(w.store, w.table, p), p)
    ensures Found(w'.store, x)
  {
    var chain := Chain(w.svc.chains, op);
    assert CmdFits(chain[0], op, w.table, |w.svc.heap|);
    hide CmdFits, Found, Part, OperatorOk, BatchesFit, Exec, Loadable;
    PartOfOthersExec(w.store, w.table, w.svc.heap, chain[0], op, p);
    PartFinds(w'.store, w'.table, p, x);
  }

  lemma {:induction false} InvFacts(w: World, op: Operator)
    requires Inv(w)
    ensures OperatorOk(w, op) && BatchesFit(w.store, w.table)
  {
    CoreTables(w);
    hide Core, OperatorOk;
  }

  lemma {:induction false} ApplyFacts(w: World, op: Operator, w': World)
    requires Inv(w) && Next(w, Apply(op), w')
    ensures OperatorOk(w, op) && BatchesFit(w.store, w.table) && BatchesFit(w'.store, w'.table)
    ensures w'.committed == w.committed
  {
    hide Inv, Next, OperatorOk, BatchesFit;
    ApplyInv(w, op, w');
    ApplyShape(w, op, w');
    InvFacts(w, op);
    InvFacts(w', op);
  }

  lemma {:induction false} ApplyKeepsFound(w: World, op: Operator, w': World, x: RequestId)
    requires Inv(w) && Next(w, Apply(op), w') && Found(w.store, x)
    ensures Found(w'.store, x) || (PaidFor(w, x) && w'.committed == w.committed)
  {
    hide Inv, Next, OperatorOk, BatchesFit, Found, PaidFor, Loadable, Part;
    ApplyFacts(w, op, w');
    var p := FoundInPart(w.store, w.table, x);
    if p != op {
      ApplyOther(w, op, w', p, x);
    } else {
      ApplyOwn(w, op, w', x);
      if x in PaidOf(w, op) { PaidAtApply(w, op, x); }
    }
  }

  lemma {:induction false} PaidAtApply(w: World, op: Operator, x: RequestId)
    requires Inv(w) && x in PaidOf(w, op)
    ensures PaidFor(w, x)
  {
    PaidOfIsPaidFor(w, op, x);
  }

  lemma {:induction false} StepKeepsFound(w: World, e: Event, w': World, x: RequestId)
    requires Inv(w) && Next(w, e, w') && (Found(w.store, x) || PaidFor(w, x))
    ensures Found(w'.store, x) || PaidFor(w', x)
  {
    hide Inv, Next, Found;
    ChainGrows(w, e, w');
    if PaidFor(w, x) {
      PaidStaysPaid(w, w', x);
    } else if e.Apply? {
      ApplyKeepsFound(w, e.op, w', x);
    }
    hide Covers;
  }

  lemma {:induction false} PaidStaysPaid(w: World, w': World, x: RequestId)
    requires forall id | id in w.committed :: id in w'.committed && w'.committed[id] == w.committed[id]
    requires PaidFor(w, x)
    ensures PaidFor(w', x)
  {
    var id :| id in w.committed && Covers(w.committed[id], x);
    assert Covers(w'.committed[id], x);
  }

  /**
   * Once a boot would find a request, it keeps finding it after every single command, crash and
   * recovery, until a transfer covering it has committed.
   */
  lemma {:induction false} NeverUncovered(ws: seq<World>, es: seq<Event>, i: nat, j: nat, x: RequestId)
    requires IsRun(ws, es) && i <= j < |ws| && Found(ws[i].store, x)
    ensures Found(ws[j].store, x) || PaidFor(ws[j], x)
    decreases j - i
  {
    hide Inv, Next, Found, PaidFor;
    if i < j {
      NeverUncovered(ws, es, i, j - 1, x);
      RunInv(ws, es, j - 1);
      RunStep(ws, es, j - 1);
      StepKeepsFound(ws[j - 1], es[j - 1], ws[j], x);
    }
  }

  // ----- the store follows memory -----

  /** What memory holds for an operator: its open row, and the rows of its listed batches. */
  ghost function MemoryRow(w: World, op: Operator): Option<Row> {
    match AccrualOf(w.svc, op)
    case None => None
    case Some(a) => Some(Row(op, ArrayAt(w.svc.heap, a.arr), a.firstAt, None))
  }

  /**
   * At the end of every turn, draining an operator's queue leaves exactly what memory holds:
   * its open row or none, and one batch row for each batch it is still owed.
   */
  lemma {:induction false} QueueDrainsToMemory(ws: seq<World>, es: seq<Event>, i: nat, op: Operator)
    requires IsRun(ws, es) && i < |ws| && ws[i].up
    ensures var w := ws[i];
      var drained := ExecAll(Part(w.store, w.table, op), w.svc.heap, Chain(w.svc.chains, op));
      LoadedOpen(drained, op) == MemoryRow(w, op) && LoadedBatches(drained) == DueTo(w, op)
  {
    RunInv(ws, es, i);
    assert OperatorOk(ws[i], op);
  }

  /** Hence a store with nothing left to write is memory, whichever order the queues ran in. */
  lemma {:induction false} QuietStoreIsMemory(ws: seq<World>, es: seq<Event>, i: nat)
    requires IsRun(ws, es) && i < |ws| && ws[i].up
    requires forall op :: Chain(ws[i].svc.chains, op) == []
    ensures forall op :: LoadedOpen(ws[i].store, op) == MemoryRow(ws[i], op)
    ensures LoadedBatches(ws[i].store).Keys == ws[i].svc.liabilities.Keys
    ensures forall b | b in LoadedBatches(ws[i].store) ::
              var l := ws[i].svc.liabilities[b]; var row := LoadedBatches(ws[i].store)[b];
              l.operator == row.operator && l.owed == Sum(row.records)
  {
    var w := ws[i];
    RunInv(ws, es, i);
    CoreKnowsBatches(w);
    forall op
      ensures LoadedOpen(w.store, op) == MemoryRow(w, op)
      ensures LoadedBatches(Part(w.store, w.table, op)) == DueTo(w, op)
    {
      QueueDrainsToMemory(ws, es, i, op);
      PartLoads(w.store, w.table, op);
    }
    forall b
      ensures b in LoadedBatches(w.store) <==> b in w.svc.liabilities
    {
      if b in w.table {
        var op := w.table[b].operator;
        PartLoads(w.store, w.table, op);
        assert LoadedBatches(Part(w.store, w.table, op)) == DueTo(w, op);
      }
    }
  }

  // ----- nothing a boot finds is forgotten by the process it boots -----

  lemma {:induction false} SafeKeepsLoadable(
      st: Store, heap: Heap, chain: seq<Cmd>, op: Operator, paid: set<RequestId>)
    requires Safe(st, heap, chain, op, paid)
    ensures Loadable(st, op) <= Loadable(ExecAll(st, heap, chain), op) + paid
    decreases |chain|
  {
    if chain != [] {
      SafeKeepsLoadable(Exec(st, heap, chain[0]), heap, chain[1..], op, paid);
    }
  }

  lemma {:induction false} FoundIsKept(w: World, x: RequestId)
    requires Inv(w) && w.up && Found(w.store, x)
    ensures
      || x in Listed(w)
      || (exists op :: op in w.svc.accruals && x in Ids(ArrayAt(w.svc.heap, w.svc.accruals[op].arr)))
      || PaidFor(w, x)
  {
    CoreKnowsBatches(w);
    hide Core, BooksOk, Found, Part, LineOk, OperatorOk, Listed, PaidFor, PaidOf;
    var op := FoundInPart(w.store, w.table, x);
    assert OperatorOk(w, op);
    if x in PaidOf(w, op) { PaidOfIsPaidFor(w, op, x); } else { LoadableIsKept(w, op, x); }
  }

  /** A loadable request is accruing in memory, or in a listed batch, or paid. */
  lemma {:induction false} FoundIsOwedOrPaid(ws: seq<World>, es: seq<Event>, i: nat, x: RequestId)
    requires IsRun(ws, es) && i < |ws| && ws[i].up && Found(ws[i].store, x)
    ensures var w := ws[i];
      || x in Listed(w)
      || (exists op :: op in w.svc.accruals && x in Ids(ArrayAt(w.svc.heap, w.svc.accruals[op].arr)))
      || PaidFor(w, x)
  {
    hide Inv, Found, Listed, PaidFor;
    RunInv(ws, es, i);
    FoundIsKept(ws[i], x);
  }

  lemma {:induction false} LoadableIsKept(w: World, op: Operator, x: RequestId)
    requires OperatorOk(w, op) && w.up
    requires x in Loadable(Part(w.store, w.table, op), op) && x !in PaidOf(w, op)
    ensures x in Listed(w)
      || (op in w.svc.accruals && x in Ids(ArrayAt(w.svc.heap, w.svc.accruals[op].arr)))
  {
    var part, chain := Part(w.store, w.table, op), Chain(w.svc.chains, op);
    hide Part, PaidOf, ChainFits, BatchesFit, KeepsOnceWritten, QueueOk;
    SafeKeepsLoadable(part, w.svc.heap, chain, op, PaidOf(w, op));
    hide Safe;
    var f := ExecAll(part, w.svc.heap, chain);
    assert Drained(f, w.svc.heap, op, AccrualOf(w.svc, op), DueTo(w, op));
    if x in BatchIds(f) {
      var b, r :| b in LoadedBatches(f) && r in LoadedBatches(f)[b].records && r.requestId == x;
      assert b in DueTo(w, op) && r in w.table[b].records;
    }
  }

  lemma {:induction false} LoadableEndsHeld(u: World, op: Operator, x: RequestId) returns (b: BatchId)
    requires RowsFit(u, []) && RecoveryLine(u, op, false)
    requires x in Loadable(Part(u.store, u.table, op), op) && x !in PaidOf(u, op)
    ensures b in u.svc.liabilities && b in u.table && x in Ids(u.table[b].records)
  {
    var part, chain := Part(u.store, u.table, op), Chain(u.svc.chains, op);
    SafeKeepsLoadable(part, [], chain, op, PaidOf(u, op));
    var f := ExecAll(part, [], chain);
    var r;
    b, r :| b in LoadedBatches(f) && r in LoadedBatches(f)[b].records && r.requestId == x;
    assert b in Held(u, op);
  }

  // ----- conservation -----

  /**
   * In batching mode: what the process owed at boot plus every charge accepted since is margin
   * kept, payouts settled, or listed as owed; and an accrual's running total is always the sum
   * of its records, so the mismatch alert cannot fire.
   */
  lemma {:induction false} Conservation(ws: seq<World>, es: seq<Event>, i: nat)
    requires IsRun(ws, es) && i < |ws| && ws[i].up && ws[i].svc.cfg.batchMin > 0
    ensures var w := ws[i];
      w.books.opening + w.books.accepted == w.books.margins + w.books.settled + Owed(w.svc)
    ensures forall op | op in ws[i].svc.accruals ::
              var a := ws[i].svc.accruals[op]; a.total == Sum(ArrayAt(ws[i].svc.heap, a.arr))
  {
    RunInv(ws, es, i);
    forall op | op in ws[i].svc.accruals
      ensures var a := ws[i].svc.accruals[op]; a.total == Sum(ArrayAt(ws[i].svc.heap, a.arr))
    {
      AccrualArray(ws[i], op);
    }
  }
}
