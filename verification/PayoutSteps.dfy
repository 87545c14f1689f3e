/** Every event that is neither a settlement nor a recovery keeps the invariant. */
module PayoutSteps {
  import opened Prelude
  import opened AccrualStore
  import opened Settlement
  import opened Owing
  import opened WriteChain
  import opened PayoutLine
  import opened PayoutWorld

  // ----- what carries over when little changes -----

  ghost predicate SameFixed(w: World, w': World) {
    && (forall b | b in w.table :: b in w'.table && w'.table[b] == w.table[b])
    && (forall x | x in w.recs :: x in w'.recs && w'.recs[x] == w.recs[x])
  }

  lemma {:induction false} FixedStays(w: World, w': World)
    requires SameFixed(w, w')
    ensures forall id | Known(w, id) :: Known(w', id) && Fixed(w', id) == Fixed(w, id)
  {
    forall id | Known(w, id)
      ensures Known(w', id) && Fixed(w', id) == Fixed(w, id)
    {}
  }

  lemma {:induction false} SinglesCarry(w: World, w': World)
    requires SinglesOk(w)
    requires w'.recs == w.recs && w'.table == w.table
    requires w'.svc.heap == w.svc.heap || w'.svc.heap == []
    requires forall op | op in w'.store.openKeys ::
               || (op in w.store.openKeys && w'.store.openKeys[op] == w.store.openKeys[op])
               || w'.store.openKeys[op].records in w.svc.heap
    requires forall x | IsSingle(w', x) :: IsSingle(w, x)
    ensures SinglesOk(w')
  {
    forall x | IsSingle(w', x)
      ensures x in w'.recs && Batchless(w', x)
    {
      assert IsSingle(w, x);
    }
  }

  lemma {:induction false} DisjointCarry(w: World, w': World)
    requires DisjointOk(w) && w'.table == w.table
    requires forall b | Active(w', b) :: Active(w, b)
    requires w'.svc.accruals == map[] || (w'.svc.heap == w.svc.heap && w'.svc.accruals == w.svc.accruals)
    ensures DisjointOk(w')
  {}

  lemma {:induction false} TransfersCarry(w: World, w': World)
    requires TransfersOk(w) && w'.table == w.table && w'.recs == w.recs
    requires forall id | id in w'.svc.jobs ::
               id in w.svc.jobs && w'.svc.jobs[id] == w.svc.jobs[id]
               && (id.Batch? ==> id.batch in w'.svc.liabilities)
    requires forall b | b in w'.svc.liabilities ::
               && b in w.svc.liabilities
               && w'.svc.liabilities[b].operator == w.svc.liabilities[b].operator
               && w'.svc.liabilities[b].owed == w.svc.liabilities[b].owed
    requires forall id | id in w'.submitted ::
               || (id in w.submitted && w'.submitted[id] == w.submitted[id])
               || (id in w.svc.jobs && w'.submitted[id] == TransferOf(w.svc.jobs[id]))
    requires forall id | id in w.submitted :: id in w'.submitted && w'.submitted[id] == w.submitted[id]
    requires forall id | id in w'.committed :: id in w'.submitted && w'.committed[id] == w'.submitted[id]
    ensures TransfersOk(w')
  {
    FixedStays(w, w');
  }

  /** The store stays, and nothing new is accrued, started or owed. */
  ghost predicate Narrows(w: World, w': World) {
    && w'.store == w.store && w'.table == w.table && w'.recs == w.recs
    && ((w'.svc.heap == w.svc.heap && w'.svc.accruals == w.svc.accruals)
        || (w'.svc.heap == [] && w'.svc.accruals == map[]))
    && (forall op, c | op in w'.svc.chains && c in w'.svc.chains[op] && c.SetOpen? ::
          op in w.svc.chains && c in w.svc.chains[op] && w'.svc.heap == w.svc.heap)
    && (forall id | id in w'.svc.jobs ::
          && id in w.svc.jobs && w'.svc.jobs[id] == w.svc.jobs[id]
          && (id.Batch? && id.batch in w.svc.liabilities ==> id.batch in w'.svc.liabilities))
    && (forall b | b in w'.svc.liabilities ::
          && b in w.svc.liabilities
          && w'.svc.liabilities[b].operator == w.svc.liabilities[b].operator
          && w'.svc.liabilities[b].owed == w.svc.liabilities[b].owed)
    && (forall id | id in w'.submitted ::
          || (id in w.submitted && w'.submitted[id] == w.submitted[id])
          || (id in w.svc.jobs && w'.submitted[id] == TransferOf(w.svc.jobs[id])))
    && w.submitted.Keys <= w'.submitted.Keys
    && (forall id | id in w'.committed ::
          || (id in w.committed && w'.committed[id] == w.committed[id])
          || (id in w.submitted && w'.committed[id] == w.submitted[id]))
  }

  lemma {:induction false} NarrowsTransfers(w: World, w': World)
    requires TransfersOk(w) && Narrows(w, w')
    ensures TransfersOk(w')
  {
    FixedStays(w, w');
    forall id | id in w'.submitted
      ensures Known(w, id) && w'.submitted[id] == Fixed(w, id)
    {}
    forall id | id in w.submitted
      ensures id in w'.submitted && w'.submitted[id] == w.submitted[id]
    {}
  }

  lemma {:induction false} NarrowsHeap(w: World, w': World)
    requires HeapOk(w.svc, w.recs) && Narrows(w, w')
    ensures HeapOk(w'.svc, w'.recs)
  {
    hide RecsOk;
  }

  lemma {:induction false} NarrowsDisjoint(w: World, w': World)
    requires DisjointOk(w) && Narrows(w, w') && w'.committed == w.committed
    ensures DisjointOk(w')
  {
    assert forall b | Active(w', b) :: Active(w, b);
    DisjointCarry(w, w');
  }

  lemma {:induction false} NarrowsSingles(w: World, w': World)
    requires SinglesOk(w) && Narrows(w, w')
    ensures SinglesOk(w')
  {
    SinglesCarry(w, w');
  }

  lemma {:induction false} NarrowsCore(w: World, w': World)
    requires Core(w) && Narrows(w, w') && SeenOk(w') && w'.committed == w.committed
    requires !w'.up ==> exists cfg :: w'.svc == Boot(cfg, {})
    ensures Core(w')
  {
    NarrowsTransfers(w, w');
    NarrowsHeap(w, w');
    NarrowsDisjoint(w, w');
    NarrowsSingles(w, w');
    hide HeapOk, DisjointOk, SinglesOk, TransfersOk, StoreOk, TableOk, SeenOk;
  }

  /** Nothing an operator's line depends on has changed. */
  lemma {:induction false} SameLine(w: World, w': World, op: Operator)
    requires OperatorOk(w, op)
    requires w'.up == w.up && w'.store == w.store && w'.table == w.table
    requires w'.committed.Keys == w.committed.Keys
    requires w'.svc.heap == w.svc.heap && w'.svc.chains == w.svc.chains
    requires w'.svc.accruals == w.svc.accruals
    requires w'.svc.liabilities.Keys == w.svc.liabilities.Keys
    ensures OperatorOk(w', op)
  {
    assert DueTo(w', op) == DueTo(w, op) && PaidOf(w', op) == PaidOf(w, op);
  }

  /** A request belongs to one operator. */
  lemma {:induction false} OperatorsApart(
      a: seq<Rec>, opA: Operator, b: seq<Rec>, opB: Operator, recs: map<RequestId, Rec>)
    requires RecsOk(a, opA, recs) && RecsOk(b, opB, recs) && opA != opB
    ensures Ids(a) !! Ids(b)
  {
    forall r, q | r in a && q in b
      ensures r.requestId != q.requestId
    {
      assert recs[r.requestId] == r && recs[q.requestId] == q;
    }
  }

  lemma {:induction false} SameOperator(
      a: seq<Rec>, opA: Operator, b: seq<Rec>, opB: Operator, recs: map<RequestId, Rec>, x: RequestId)
    requires RecsOk(a, opA, recs) && RecsOk(b, opB, recs)
    requires x in Ids(a) && x in Ids(b)
    ensures opA == opB
  {
    var r :| r in a && r.requestId == x;
    var q :| q in b && q.requestId == x;
    assert r == recs[x] == q;
  }

  // ----- a queued command runs -----

  lemma {:induction false} ExecStore(
      st: Store, table: map<BatchId, Row>, recs: map<RequestId, Rec>, heap: Heap, c: Cmd, op: Operator)
    requires StoreOk(st, table, recs) && CmdFits(c, op, table, |heap|)
    requires c.SetOpen? ==> RecsOk(heap[c.arr], op, recs)
    ensures StoreOk(Exec(st, heap, c), table, recs)
    ensures forall b | b in LoadedBatches(Exec(st, heap, c)) ::
              b in LoadedBatches(st) || ((c.SetBatch? || c.SaddBatch?) && c.b == b)
    ensures forall p | p in Exec(st, heap, c).openKeys ::
              || (p in st.openKeys && Exec(st, heap, c).openKeys[p] == st.openKeys[p])
              || Exec(st, heap, c).openKeys[p].records in heap
  {
    if c.SetOpen? { assert ArrayAt(heap, c.arr) == heap[c.arr]; }
  }

  /** The command that runs, and what the step leaves as it was. */
  lemma {:induction false} ApplyShape(w: World, op: Operator, w': World)
    requires Next(w, Apply(op), w')
    ensures var chain := Chain(w.svc.chains, op);
      && w.up && chain != []
      && w'.store == Exec(w.store, w.svc.heap, chain[0])
      && Chain(w'.svc.chains, op) == chain[1..]
      && (forall p | p != op :: Chain(w'.svc.chains, p) == Chain(w.svc.chains, p))
    ensures w'.svc == w.svc.(chains := w'.svc.chains)
    ensures w' == w.(store := w'.store, svc := w'.svc)
    ensures forall p, c | p in w'.svc.chains && c in w'.svc.chains[p] :: p in w.svc.chains && c in w.svc.chains[p]
  {
    hide Exec;
    assert forall d | d in Chain(w.svc.chains, op)[1..] :: d in Chain(w.svc.chains, op);
  }

  lemma {:induction false} ApplyFits(w: World, op: Operator, w': World)
    requires OperatorOk(w, op) && Next(w, Apply(op), w')
    ensures var c := Chain(w.svc.chains, op)[0];
      && CmdFits(c, op, w.table, |w.svc.heap|)
      && op in w.svc.chains && c in w.svc.chains[op]
      && ((c.SetBatch? || c.SaddBatch?) ==> c.b in w.svc.liabilities || Batch(c.b) in w.committed)
  {
    var c := Chain(w.svc.chains, op)[0];
    assert c in Chain(w.svc.chains, op);
    hide Exec, Safe, ExecAll, Part, PaidOf, DueTo, BatchesFit;
  }

  lemma {:induction false} ApplyViews(w: World, op: Operator, w': World, p: Operator)
    requires Next(w, Apply(op), w')
    ensures DueTo(w', p) == DueTo(w, p) && PaidOf(w', p) == PaidOf(w, p)
    ensures AccrualOf(w'.svc, p) == AccrualOf(w.svc, p)
  {
    ApplyShape(w, op, w');
    hide Next;
  }

  lemma {:induction false} ApplyQueue(w: World, op: Operator, w': World, p: Operator)
    requires QueueOk(w, p) && Next(w, Apply(op), w')
    ensures QueueOk(w', p)
  {
    ApplyShape(w, op, w');
    hide Next, Exec;
    assert forall d | d in Chain(w'.svc.chains, p) :: d in Chain(w.svc.chains, p);
  }

  lemma {:induction false} ApplyLine(w: World, op: Operator, w': World, p: Operator)
    requires OperatorOk(w, op) && LineHolds(w, p) && Next(w, Apply(op), w')
    ensures LineHolds(w', p)
  {
    var chain := Chain(w.svc.chains, op);
    ApplyShape(w, op, w');
    ApplyFits(w, op, w');
    ApplyViews(w, op, w', p);
    hide Next, OperatorOk, Part, PaidOf, DueTo, LineOk, Exec, CmdFits, Chain;
    if p == op {
      PartOfExec(w.store, w.table, w.svc.heap, chain[0], op);
      LineExec(Part(w.store, w.table, op), w.svc.heap, chain, op, PaidOf(w, op), w.table,
               AccrualOf(w.svc, op), DueTo(w, op));
    } else {
      PartOfOthersExec(w.store, w.table, w.svc.heap, chain[0], op, p);
    }
  }

  lemma {:induction false} ApplyOperator(w: World, op: Operator, w': World, p: Operator)
    requires OperatorOk(w, op) && OperatorOk(w, p) && Next(w, Apply(op), w')
    ensures OperatorOk(w', p)
  {
    assert LineHolds(w, p) && QueueOk(w, p);
    ApplyLine(w, op, w', p);
    ApplyQueue(w, op, w', p);
    hide LineHolds, QueueOk, Next;
  }

  lemma {:induction false} ApplyStore(w: World, op: Operator, w': World)
    requires StoreOk(w.store, w.table, w.recs) && HeapOk(w.svc, w.recs)
    requires OperatorOk(w, op) && Next(w, Apply(op), w')
    ensures StoreOk(w'.store, w'.table, w'.recs) && HeapOk(w'.svc, w'.recs)
    ensures forall b | Active(w', b) :: Active(w, b)
    ensures forall p | p in w'.store.openKeys ::
              || (p in w.store.openKeys && w'.store.openKeys[p] == w.store.openKeys[p])
              || w'.store.openKeys[p].records in w.svc.heap
  {
    var c := Chain(w.svc.chains, op)[0];
    ApplyShape(w, op, w');
    ApplyFits(w, op, w');
    assert c.SetOpen? ==> RecsOk(w.svc.heap[c.arr], op, w.recs);
    hide Next, OperatorOk, Exec, StoreOk, RecsOk, CmdFits, Chain;
    ExecStore(w.store, w.table, w.recs, w.svc.heap, c, op);
  }

  lemma {:induction false} ApplyCore(w: World, op: Operator, w': World)
    requires Core(w) && OperatorOk(w, op) && Next(w, Apply(op), w')
    ensures Core(w')
  {
    ApplyShape(w, op, w');
    ApplyStore(w, op, w');
    hide Next, OperatorOk, StoreOk, HeapOk, Active, IsSingle, Known;
    DisjointCarry(w, w');
    SinglesCarry(w, w');
    TransfersCarry(w, w');
    hide TransfersOk, SinglesOk, DisjointOk, TableOk;
  }

  lemma {:induction false} ApplyInv(w: World, op: Operator, w': World)
    requires Inv(w) && Next(w, Apply(op), w')
    ensures Inv(w')
  {
    ApplyBooks(w, op, w');
    hide Core, OperatorOk, Next, BooksOk;
    ApplyCore(w, op, w');
    forall p ensures OperatorOk(w', p) { ApplyOperator(w, op, w', p); }
  }

  lemma {:induction false} ApplyBooks(w: World, op: Operator, w': World)
    requires Next(w, Apply(op), w')
    ensures BooksOk(w) ==> BooksOk(w')
  {
    ApplyShape(w, op, w');
    hide Next, SumTotals, SumOwed;
  }

  // ----- the chain commits a transfer -----

  lemma {:induction false} PaidAlso(w: World, b: BatchId, w': World, op: Operator)
    requires b in w.table && w'.table == w.table && w'.committed.Keys == w.committed.Keys + {Batch(b)}
    ensures w.table[b].operator == op ==> PaidOf(w', op) == PaidOf(w, op) + Ids(w.table[b].records)
    ensures w.table[b].operator != op ==> PaidOf(w', op) == PaidOf(w, op)
  {
    forall x | x in PaidOf(w, op)
      ensures x in PaidOf(w', op)
    {}
    if w.table[b].operator == op {
      forall x | x in Ids(w.table[b].records)
        ensures x in PaidOf(w', op)
      {
        var r :| r in w.table[b].records && r.requestId == x;
        assert Batch(b) in w'.committed;
      }
    }
  }

  lemma {:induction false} CommitOperator(w: World, b: BatchId, w': World, op: Operator)
    requires OperatorOk(w, op) && MayCommit(w, b)
    requires w'.committed.Keys == w.committed.Keys + {Batch(b)}
    requires w' == w.(committed := w'.committed)
    ensures OperatorOk(w', op)
  {
    assert DueTo(w', op) == DueTo(w, op);
    PaidAlso(w, b, w', op);
    hide PaidOf, Part, DueTo, ExecAll, LoadedBatches, BatchesFit, Active;
  }

  /** A batch whose row is loadable may always commit. */
  lemma {:induction false} LoadableMayCommit(w: World, b: BatchId)
    requires Inv(w) && b in LoadedBatches(w.store) && Batch(b) !in w.committed
    ensures MayCommit(w, b)
  {
    assert BatchesFit(w.store, w.table) && b in w.table;
    var op := w.table[b].operator;
    assert OperatorOk(w, op) && (w.up || Chain(w.svc.chains, op) == []);
    hide Core, OperatorOk, Safe, Part, PaidOf, LoadedBatches;
    LoadableIsSafe(w, b, op);
  }

  lemma {:induction false} LoadableIsSafe(w: World, b: BatchId, op: Operator)
    requires OperatorOk(w, op) && (w.up || Chain(w.svc.chains, op) == [])
    requires BatchesFit(w.store, w.table) && b in LoadedBatches(w.store) && Batch(b) !in w.committed
    requires b in w.table && w.table[b].operator == op
    ensures Safe(Part(w.store, w.table, op), w.svc.heap, Chain(w.svc.chains, op), op,
                 PaidOf(w, op) + Ids(w.table[b].records))
  {
    var part, chain := Part(w.store, w.table, op), Chain(w.svc.chains, op);
    PartLoads(w.store, w.table, op);
    hide Part, PaidOf, DueTo;
    if w.up {
      SafeAfterCommit(part, w.svc.heap, chain, op, PaidOf(w, op), w.table, b);
    } else {
      LoadedIds(part, w.table, b);
    }
  }

  lemma {:induction false} CommitNarrows(w: World, id: PayoutId, w': World)
    requires Next(w, Commit(id), w')
    ensures Narrows(w, w')
  {}

  lemma {:induction false} CommitCore(w: World, id: PayoutId, w': World)
    requires Core(w) && Next(w, Commit(id), w')
    ensures Core(w')
  {
    CommitNarrows(w, id, w');
    CommitDisjoint(w, id, w');
    CommitSeen(w, id, w');
    hide Next;
    NarrowsTransfers(w, w');
    NarrowsHeap(w, w');
    NarrowsSingles(w, w');
    hide HeapOk, DisjointOk, SinglesOk, TransfersOk, StoreOk, TableOk, SeenOk, Narrows;
  }

  lemma {:induction false} CommitSeen(w: World, id: PayoutId, w': World)
    requires Next(w, Commit(id), w')
    ensures SeenOk(w) ==> SeenOk(w')
    ensures w' == w.(committed := w'.committed)
  {
    hide MayCommit;
  }

  lemma {:induction false} CommitDisjoint(w: World, id: PayoutId, w': World)
    requires DisjointOk(w) && Next(w, Commit(id), w')
    ensures DisjointOk(w')
  {
    hide Safe, Part, PaidOf, LoadedBatches;
    forall c | Active(w', c)
      ensures Active(w, c) || id == Batch(c)
    {}
  }

  lemma {:induction false} CommitLine(w: World, id: PayoutId, w': World, op: Operator)
    requires OperatorOk(w, op) && Next(w, Commit(id), w')
    ensures OperatorOk(w', op)
  {
    hide OperatorOk, MayCommit;
    if id.Batch? { CommitOperator(w, id.batch, w', op); } else { CommitSingleOperator(w, id, w', op); }
  }

  lemma {:induction false} CommitInv(w: World, id: PayoutId, w': World)
    requires Inv(w) && Next(w, Commit(id), w')
    ensures Inv(w')
  {
    hide Core, OperatorOk, Next;
    CommitCore(w, id, w');
    forall op ensures OperatorOk(w', op) { CommitLine(w, id, w', op); }
    assert BooksOk(w') by { CommitBooks(w, id, w'); }
  }

  lemma {:induction false} CommitBooks(w: World, id: PayoutId, w': World)
    requires BooksOk(w) && Next(w, Commit(id), w')
    ensures BooksOk(w')
  {}

  lemma {:induction false} CommitSingleOperator(w: World, id: PayoutId, w': World, op: Operator)
    requires OperatorOk(w, op) && id.Single?
    requires w'.committed.Keys == w.committed.Keys + {id}
    requires w' == w.(committed := w'.committed)
    ensures OperatorOk(w', op)
  {
    assert PaidOf(w', op) == PaidOf(w, op);
    assert DueTo(w', op) == DueTo(w, op);
  }

  // ----- the process dies -----

  lemma {:induction false} CrashNarrows(w: World, w': World)
    requires Next(w, Crash, w')
    ensures Narrows(w, w')
  {}

  lemma {:induction false} CrashCore(w: World, w': World)
    requires Core(w) && Next(w, Crash, w')
    ensures Core(w')
  {
    CrashSeen(w, w');
    hide Next, Narrows;
    CrashNarrows(w, w');
    CoreSeen(w);
    hide Core, SeenOk;
    NarrowsCore(w, w');
  }

  lemma {:induction false} CoreSeen(w: World)
    requires Core(w)
    ensures SeenOk(w)
  {}

  lemma {:induction false} CrashSeen(w: World, w': World)
    requires Next(w, Crash, w')
    ensures SeenOk(w) ==> SeenOk(w')
    ensures w'.committed == w.committed && w'.svc == Boot(w.svc.cfg, {})
  {}

  lemma {:induction false} CrashInv(w: World, w': World)
    requires Inv(w) && Next(w, Crash, w')
    ensures Inv(w')
  {
    hide Core, OperatorOk;
    CrashCore(w, w');
    forall op ensures OperatorOk(w', op) { CrashLine(w, w', op); }
  }

  lemma {:induction false} CrashLine(w: World, w': World, op: Operator)
    requires OperatorOk(w, op) && Next(w, Crash, w')
    ensures OperatorOk(w', op)
  {
    assert PaidOf(w', op) == PaidOf(w, op);
    hide PaidOf, Part;
  }

  // ----- a node is chosen; a payout is submitted, or gives up -----

  lemma {:induction false} RouteNarrows(w: World, id: RequestId, nodeId: string, op: Operator, at: int, w': World)
    requires Next(w, Route(id, nodeId, op, at), w')
    ensures Narrows(w, w') && w'.committed == w.committed && w'.up
    ensures SeenOk(w) ==> SeenOk(w')
  {}

  lemma {:induction false} RouteLine(
      w: World, id: RequestId, nodeId: string, op: Operator, at: int, w': World, p: Operator)
    requires OperatorOk(w, p) && Next(w, Route(id, nodeId, op, at), w')
    ensures OperatorOk(w', p)
  {
    hide OperatorOk;
    SameLine(w, w', p);
  }

  lemma {:induction false} RouteRest(w: World, id: RequestId, nodeId: string, op: Operator, at: int, w': World)
    requires BooksOk(w) && Next(w, Route(id, nodeId, op, at), w')
    ensures BooksOk(w')
  {
    hide SumTotals, SumOwed;
  }

  lemma {:induction false} RouteInv(w: World, id: RequestId, nodeId: string, op: Operator, at: int, w': World)
    requires Inv(w) && Next(w, Route(id, nodeId, op, at), w')
    ensures Inv(w')
  {
    assert SeenOk(w);
    hide Next, Core, OperatorOk, BooksOk, Narrows, SeenOk;
    RouteNarrows(w, id, nodeId, op, at, w');
    NarrowsCore(w, w');
    RouteRest(w, id, nodeId, op, at, w');
    forall p ensures OperatorOk(w', p) { RouteLine(w, id, nodeId, op, at, w', p); }
  }

  lemma {:induction false} SubmitNarrows(w: World, id: PayoutId, w': World)
    requires Next(w, Submit(id), w')
    ensures Narrows(w, w')
  {}

  lemma {:induction false} SubmitCore(w: World, id: PayoutId, w': World)
    requires Core(w) && Next(w, Submit(id), w')
    ensures Core(w')
    ensures id in w.submitted ==> w'.submitted == w.submitted
  {
    SubmitNarrows(w, id, w');
    SubmittedAgain(w, id, w');
    assert SeenOk(w') && (!w'.up ==> exists cfg :: w'.svc == Boot(cfg, {}));
    hide Core, Narrows, SeenOk, Next;
    NarrowsCore(w, w');
  }

  lemma {:induction false} SubmittedAgain(w: World, id: PayoutId, w': World)
    requires TransfersOk(w) && Next(w, Submit(id), w')
    ensures id in w.submitted ==> w'.submitted == w.submitted
  {
    assert Known(w, id) && TransferOf(w.svc.jobs[id]) == Fixed(w, id);
  }

  lemma {:induction false} SubmitInv(w: World, id: PayoutId, w': World)
    requires Inv(w) && Next(w, Submit(id), w')
    ensures Inv(w')
    ensures id in w.submitted ==> w'.submitted == w.submitted
  {
    SubmitCore(w, id, w');
    SubmitRest(w, id, w');
    hide Core, OperatorOk, Next, BooksOk;
    forall p ensures OperatorOk(w', p) { SubmitLine(w, id, w', p); }
  }

  lemma {:induction false} SubmitLine(w: World, id: PayoutId, w': World, op: Operator)
    requires OperatorOk(w, op) && Next(w, Submit(id), w')
    ensures OperatorOk(w', op)
  {
    hide OperatorOk;
    SameLine(w, w', op);
  }

  lemma {:induction false} SubmitRest(w: World, id: PayoutId, w': World)
    requires BooksOk(w) && Next(w, Submit(id), w')
    ensures BooksOk(w')
  {
    hide Owed;
  }

  lemma {:induction false} OwedAfterGivingUp(s: Service, id: PayoutId, reason: string, at: int)
    requires id in s.jobs
    ensures Owed(FinalizeFailed(s, id, reason, at)) == Owed(s)
    ensures FinalizeFailed(s, id, reason, at).liabilities.Keys == s.liabilities.Keys
  {
    var s' := FinalizeFailed(s, id, reason, at);
    var b := s.jobs[id].batchId;
    if b.Some? && b.value in s.liabilities {
      SumOwedAt(s.liabilities, b.value);
      SumOwedPut(s.liabilities, b.value, s'.liabilities[b.value]);
    }
  }

  lemma {:induction false} GaveUpNarrows(w: World, id: PayoutId, reason: string, at: int, w': World)
    requires Next(w, GaveUp(id, reason, at), w')
    ensures Narrows(w, w')
  {}

  lemma {:induction false} GaveUpRest(w: World, id: PayoutId, reason: string, at: int, w': World)
    requires Next(w, GaveUp(id, reason, at), w')
    ensures BooksOk(w) ==> BooksOk(w')
    ensures SeenOk(w) ==> SeenOk(w')
    ensures w'.up && w'.committed == w.committed
  {
    OwedAfterGivingUp(w.svc, id, reason, at);
    hide Owed;
  }

  lemma {:induction false} GaveUpLine(w: World, id: PayoutId, reason: string, at: int, w': World, op: Operator)
    requires OperatorOk(w, op) && Next(w, GaveUp(id, reason, at), w')
    ensures OperatorOk(w', op)
  {
    hide OperatorOk;
    SameLine(w, w', op);
  }

  lemma {:induction false} GaveUpInv(w: World, id: PayoutId, reason: string, at: int, w': World)
    requires Inv(w) && Next(w, GaveUp(id, reason, at), w')
    ensures Inv(w')
  {
    assert SeenOk(w);
    hide Next, Core, OperatorOk, BooksOk, Narrows, SeenOk;
    GaveUpNarrows(w, id, reason, at, w');
    GaveUpRest(w, id, reason, at, w');
    NarrowsCore(w, w');
    forall p ensures OperatorOk(w', p) { GaveUpLine(w, id, reason, at, w', p); }
  }

  // ----- a payout is reported settled -----

  /** What an accrual holds has not been paid. */
  lemma {:induction false} PaidNotAccruing(w: World, op: Operator)
    requires DisjointOk(w)
    ensures op in w.svc.accruals ==> Ids(ArrayAt(w.svc.heap, w.svc.accruals[op].arr)) !! PaidOf(w, op)
  {
    if op in w.svc.accruals {
      forall x | x in PaidOf(w, op)
        ensures x !in Ids(ArrayAt(w.svc.heap, w.svc.accruals[op].arr))
      {
        var b, r :| b in w.table && Batch(b) in w.committed && w.table[b].operator == op
                    && r in w.table[b].records && r.requestId == x;
        assert Active(w, b) && x in Ids(w.table[b].records);
      }
    }
  }

  lemma {:induction false} SettledService(s: Service, b: BatchId, op: Operator)
    requires Batch(b) in s.jobs && s.jobs[Batch(b)].batchId == Some(b)
    requires s.jobs[Batch(b)].records != [] && s.jobs[Batch(b)].records[0].operator == op
    ensures FinalizeSettled(s, Batch(b)) ==
      s.(jobs := s.jobs - {Batch(b)}, liabilities := s.liabilities - {b},
         chains := s.chains[op := Chain(s.chains, op) + RemoveBatchCmds(b)])
  {}

  ghost predicate PaidOutStep(w: World, b: BatchId, w': World) {
    && b in w.table && Batch(b) in w.committed && w.up && w'.up
    && (var o := w.table[b].operator;
        w'.svc == w.svc.(jobs := w'.svc.jobs, liabilities := w.svc.liabilities - {b},
                         chains := w.svc.chains[o := Chain(w.svc.chains, o) + RemoveBatchCmds(b)]))
    && w'.store == w.store && w'.table == w.table && w'.committed == w.committed
  }

  lemma {:induction false} PaidOutViews(w: World, b: BatchId, w': World)
    requires PaidOutStep(w, b, w')
    ensures var op := w.table[b].operator;
      && PaidOf(w', op) == PaidOf(w, op) && DueTo(w', op) == DueTo(w, op) - {b}
      && Ids(w.table[b].records) <= PaidOf(w, op)
  {
    assert forall r | r in w.table[b].records :: r.requestId in PaidOf(w, w.table[b].operator);
  }

  lemma {:induction false} PaidOutOwnLine(w: World, b: BatchId, w': World)
    requires PaidOutStep(w, b, w') && LineHolds(w, w.table[b].operator) && DisjointOk(w)
    ensures LineHolds(w', w.table[b].operator)
  {
    var op := w.table[b].operator;
    var chain := Chain(w.svc.chains, op);
    hide PaidOf, Part, DueTo, DisjointOk, LineOk, ArrayAt, Ids;
    PaidNotAccruing(w, op);
    PaidOutViews(w, b, w');
    LineSettled(Part(w.store, w.table, op), w.svc.heap, chain, op, PaidOf(w, op), w.table,
                AccrualOf(w.svc, op), DueTo(w, op), b);
  }

  lemma {:induction false} PaidOutQueue(w: World, b: BatchId, w': World)
    requires PaidOutStep(w, b, w') && QueueOk(w, w.table[b].operator)
    ensures QueueOk(w', w.table[b].operator)
  {}

  lemma {:induction false} PaidOutOtherLine(w: World, b: BatchId, w': World, op: Operator)
    requires PaidOutStep(w, b, w') && OperatorOk(w, op) && op != w.table[b].operator
    ensures OperatorOk(w', op)
  {
    assert PaidOf(w', op) == PaidOf(w, op);
    assert DueTo(w', op) == DueTo(w, op);
    assert Chain(w'.svc.chains, op) == Chain(w.svc.chains, op);
  }

  lemma {:induction false} SettledShape(s: Service, id: PayoutId)
    requires id in s.jobs && s.jobs[id].batchId == if id.Batch? then Some(id.batch) else None
    ensures var s' := FinalizeSettled(s, id);
      && s' == s.(jobs := s.jobs - {id}, liabilities := s'.liabilities, chains := s'.chains)
      && s'.liabilities == (if id.Batch? then s.liabilities - {id.batch} else s.liabilities)
      && (forall op, c | op in s'.chains && c in s'.chains[op] && c.SetOpen? ::
            op in s.chains && c in s.chains[op])
  {}

  lemma {:induction false} PaidOutShape(w: World, id: PayoutId, w': World)
    requires Next(w, PaidOut(id), w')
    ensures id in w.svc.jobs && w' == w.(svc := FinalizeSettled(w.svc, id), books := w'.books)
  {
    hide FinalizeSettled;
  }

  lemma {:induction false} PaidOutNarrows(w: World, id: PayoutId, w': World)
    requires TransfersOk(w) && Next(w, PaidOut(id), w')
    ensures Narrows(w, w')
  {
    hide Next, FinalizeSettled, TransferOf;
    PaidOutShape(w, id, w');
    assert w.svc.jobs[id].batchId == if id.Batch? then Some(id.batch) else None;
    SettledShape(w.svc, id);
    hide TransfersOk;
  }

  lemma {:induction false} PaidOutCore(w: World, id: PayoutId, w': World)
    requires Core(w) && Next(w, PaidOut(id), w')
    ensures Core(w')
  {
    PaidOutNarrows(w, id, w');
    NarrowsCore(w, w');
  }

  lemma {:induction false} PaidOutLine(w: World, b: BatchId, w': World, op: Operator)
    requires PaidOutStep(w, b, w') && OperatorOk(w, op) && DisjointOk(w)
    ensures OperatorOk(w', op)
  {
    if op == w.table[b].operator {
      PaidOutOwnLine(w, b, w');
      PaidOutQueue(w, b, w');
    } else {
      PaidOutOtherLine(w, b, w', op);
    }
  }

  lemma {:induction false} PaidOutBooks(w: World, id: PayoutId, w': World)
    requires BooksOk(w) && Core(w) && Next(w, PaidOut(id), w')
    ensures BooksOk(w')
  {
    hide Core, Next, TransfersOk, Owed, PaidOutStep;
    CoreTransfers(w);
    PaidOutRest(w, id, w');
    if id.Batch? { PaidOutBatch(w, id.batch, w'); }
  }

  lemma {:induction false} CoreTransfers(w: World)
    requires Core(w)
    ensures TransfersOk(w) && DisjointOk(w)
  {}

  lemma {:induction false} PaidOutRest(w: World, id: PayoutId, w': World)
    requires TransfersOk(w) && Next(w, PaidOut(id), w')
    ensures w.up && w'.up && w'.svc.cfg == w.svc.cfg && id in w.svc.jobs && w'.svc.jobs == w.svc.jobs - {id}
    ensures w'.books == w.books.(settled := w'.books.settled)
    ensures id.Single? ==> w'.svc == w.svc.(jobs := w'.svc.jobs)
  {}

  lemma {:induction false} PaidOutLines(w: World, id: PayoutId, w': World, op: Operator)
    requires Core(w) && OperatorOk(w, op) && Next(w, PaidOut(id), w')
    ensures OperatorOk(w', op)
  {
    hide Core, OperatorOk, Next, TransfersOk, DisjointOk, FinalizeSettled, PaidOutStep;
    CoreTransfers(w);
    PaidOutShape(w, id, w');
    PaidOutRest(w, id, w');
    if id.Batch? {
      PaidOutBatch(w, id.batch, w');
      PaidOutLine(w, id.batch, w', op);
    } else {
      SameLine(w, w', op);
    }
  }

  lemma {:induction false} PaidOutInv(w: World, id: PayoutId, w': World)
    requires Inv(w) && Next(w, PaidOut(id), w')
    ensures Inv(w')
  {
    hide Core, OperatorOk, BooksOk, Next;
    PaidOutCore(w, id, w');
    PaidOutBooks(w, id, w');
    forall op ensures OperatorOk(w', op) { PaidOutLines(w, id, w', op); }
  }

  lemma {:induction false} PaidOutBatch(w: World, b: BatchId, w': World)
    requires Core(w) && Next(w, PaidOut(Batch(b)), w')
    ensures PaidOutStep(w, b, w')
    ensures w.books.settled + Owed(w.svc) == w'.books.settled + Owed(w'.svc)
  {
    var records := w.table[b].records;
    assert Known(w, Batch(b)) && TransferOf(w.svc.jobs[Batch(b)]) == Fixed(w, Batch(b));
    assert records[0] in records;
    SettledService(w.svc, b, w.table[b].operator);
    SumOwedAt(w.svc.liabilities, b);
  }
}
