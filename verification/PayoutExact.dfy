/** A batch transfer may commit exactly when none of its requests can be paid a second time. */
module PayoutExact {
  import opened Prelude
  import opened AccrualStore
  import opened Settlement
  import opened Owing
  import opened WriteChain
  import opened PayoutLine
  import opened PayoutWorld
  import opened PayoutSteps
  import opened PayoutAccrue
  import opened PayoutRecover
  import opened PayoutBoot
  import opened PayoutTheorems

  // ----- going on from a world -----

  /** The events `es` lead from `w` to `w'`. */
  ghost predicate Goes(w: World, es: seq<Event>, w': World)
    decreases |es|
  {
    if es == [] then w' == w
    else exists m :: Next(w, es[0], m) && Goes(m, es[1..], w')
  }

  lemma {:induction false} GoesNowhere(w: World)
    ensures Goes(w, [], w)
  {}

  lemma {:induction false} GoStep(w: World, e: Event, m: World, es: seq<Event>, w': World)
    requires Next(w, e, m) && Goes(m, es, w')
    ensures Goes(w, [e] + es, w')
  {
    hide Next;
    assert ([e] + es)[0] == e && ([e] + es)[1..] == es;
  }

  lemma {:induction false} GoOne(w: World, e: Event, w': World)
    requires Next(w, e, w')
    ensures Goes(w, [e], w')
  {
    hide Next;
    GoStep(w, e, w', [], w');
    assert [e] + [] == [e];
  }

  lemma {:induction false} GoOn(w: World, es: seq<Event>, m: World, more: seq<Event>, w': World)
    requires Goes(w, es, m) && Goes(m, more, w')
    ensures Goes(w, es + more, w')
    decreases |es|
  {
    hide Next;
    if es == [] {
      assert es + more == more;
    } else {
      var n :| Next(w, es[0], n) && Goes(n, es[1..], m);
      GoOn(n, es[1..], m, more, w');
      GoStep(w, es[0], n, es[1..] + more, w');
      assert [es[0]] + (es[1..] + more) == es + more;
    }
  }

  lemma {:induction false} GoesInv(w: World, es: seq<Event>, w': World)
    requires Inv(w) && Goes(w, es, w')
    ensures Inv(w')
    decreases |es|
  {
    hide Inv, Next;
    if es != [] {
      var m :| Next(w, es[0], m) && Goes(m, es[1..], w');
      StepInv(w, es[0], m);
      GoesInv(m, es[1..], w');
    }
  }

  /** Events that neither look at the chain nor change what is committed. */
  predicate Quiet(e: Event) {
    e.Apply? || e.Crash? || e.Recover? || e.Submit?
  }

  predicate AllQuiet(es: seq<Event>) {
    forall i | 0 <= i < |es| :: Quiet(es[i])
  }

  lemma {:induction false} QuietStep(w: World, e: Event, m: World, c: map<PayoutId, Transfer>)
    requires Next(w, e, m) && Quiet(e)
    ensures m.committed == w.committed
    ensures Next(w.(committed := c), e, m.(committed := c))
  {
    hide RecoverAccruals, Minted, IsLoad, Owed, Exec;
    if e.Recover? {
      var s := RecoverAccruals(Boot(e.cfg, e.hydrated), e.open, e.batches, e.ids);
      assert WithService(w.(committed := c), s) == WithService(w, s).(committed := c);
      assert forall b :: Fresh(w.(committed := c), b) == Fresh(w, b);
    }
  }

  /** Quiet events do the same whatever else has been committed. */
  lemma {:induction false} QuietTwin(w: World, es: seq<Event>, w': World, c: map<PayoutId, Transfer>)
    requires Goes(w, es, w') && AllQuiet(es)
    ensures w'.committed == w.committed
    ensures Goes(w.(committed := c), es, w'.(committed := c))
    decreases |es|
  {
    hide Next;
    if es != [] {
      var m :| Next(w, es[0], m) && Goes(m, es[1..], w');
      QuietStep(w, es[0], m, c);
      QuietTwin(m, es[1..], w', c);
    }
  }

  // ----- running a queue to its end -----

  lemma {:induction false} Drain(w: World, op: Operator) returns (es: seq<Event>, w': World)
    requires w.up
    ensures Goes(w, es, w') && AllQuiet(es)
    ensures Chain(w'.svc.chains, op) == []
    ensures w' == w.(store := w'.store, svc := w.svc.(chains := w'.svc.chains))
    decreases |Chain(w.svc.chains, op)|
  {
    var chain := Chain(w.svc.chains, op);
    if chain == [] {
      es, w' := [], w;
    } else {
      var m := w.(store := Exec(w.store, w.svc.heap, chain[0]),
                  svc := w.svc.(chains := w.svc.chains[op := chain[1..]]));
      assert Next(w, Apply(op), m);
      hide Next, Exec;
      var more;
      more, w' := Drain(m, op);
      GoStep(w, Apply(op), m, more, w');
      es := [Apply(op)] + more;
    }
  }

  lemma {:induction false} SafeFails(
      st: Store, heap: Heap, chain: seq<Cmd>, op: Operator, paid: set<RequestId>, more: set<RequestId>)
    requires Safe(st, heap, chain, op, paid) && paid <= more
    requires !Safe(st, heap, chain, op, more) && PaidIsBatched(st, op, more)
    ensures chain != [] && !Safe(Exec(st, heap, chain[0]), heap, chain[1..], op, more)
  {}

  /** A queue that is not safe any more reaches a point with one of `more` in the open row alone. */
  lemma {:induction false} UnsafeNow(part: Store, op: Operator, paid: set<RequestId>, ids: set<RequestId>)
      returns (x: RequestId)
    requires PaidIsBatched(part, op, paid) && !PaidIsBatched(part, op, paid + ids)
    ensures x in ids && x !in paid && x in OpenIds(part, op) && x !in BatchIds(part)
  {
    x :| x in OpenIds(part, op) * (paid + ids) && x !in BatchIds(part);
  }

  lemma {:induction false} SameOpen(w: World, op: Operator)
    requires BatchesFit(w.store, w.table)
    ensures OpenIds(Part(w.store, w.table, op), op) == OpenIds(w.store, op)
  {
    PartLoads(w.store, w.table, op);
  }

  lemma {:induction false} SafeStart(
      st: Store, heap: Heap, chain: seq<Cmd>, op: Operator, paid: set<RequestId>)
    requires Safe(st, heap, chain, op, paid)
    ensures PaidIsBatched(st, op, paid)
  {}

  /** Where the queue is unsafe for `b`, it reaches a point that has a request of `b` in the open row alone. */
  lemma {:induction false} UnsafePoint(w: World, b: BatchId) returns (es: seq<Event>, w': World, x: RequestId)
    requires Inv(w) && b in w.table
    requires var op := w.table[b].operator;
      !Safe(Part(w.store, w.table, op), w.svc.heap, Chain(w.svc.chains, op), op,
            PaidOf(w, op) + Ids(w.table[b].records))
    ensures Goes(w, es, w') && AllQuiet(es)
    ensures w' == w.(store := w'.store, svc := w.svc.(chains := w'.svc.chains))
    ensures var op := w.table[b].operator;
      && x in Ids(w.table[b].records) && x !in PaidOf(w', op)
      && x in OpenIds(w'.store, op) && x !in BatchIds(Part(w'.store, w'.table, op))
    decreases |Chain(w.svc.chains, w.table[b].operator)|
  {
    hide Part, PaidOf, Inv, Safe, OpenIds, BatchIds, PaidIsBatched, Ids, Exec, Next, BatchesFit;
    var op := w.table[b].operator;
    var part, chain, paid := Part(w.store, w.table, op), Chain(w.svc.chains, op), PaidOf(w, op);
    var ids := Ids(w.table[b].records);
    SafeNow(w, op);
    if !PaidIsBatched(part, op, paid + ids) {
      SafeStart(part, w.svc.heap, chain, op, paid);
      x := UnsafeNow(part, op, paid, ids);
      SameOpen(w, op);
      es, w' := [], w;
    } else {
      SafeFails(part, w.svc.heap, chain, op, paid, paid + ids);
      var m := AppliedOnce(w, op);
      var rest;
      rest, w', x := UnsafePoint(m, b);
      GoStep(w, Apply(op), m, rest, w');
      es := [Apply(op)] + rest;
    }
  }

  lemma {:induction false} SafeNow(w: World, op: Operator)
    requires Inv(w)
    ensures BatchesFit(w.store, w.table)
    ensures Safe(Part(w.store, w.table, op), w.svc.heap, Chain(w.svc.chains, op), op, PaidOf(w, op))
    ensures Chain(w.svc.chains, op) != [] ==> w.up
  {
    hide Part, PaidOf;
    assert OperatorOk(w, op);
    if !w.up { assert Chain(w.svc.chains, op) == []; }
  }

  lemma {:induction false} FirstFits(w: World, op: Operator)
    requires Inv(w) && Chain(w.svc.chains, op) != []
    ensures w.up && CmdFits(Chain(w.svc.chains, op)[0], op, w.table, |w.svc.heap|)
  {
    SafeNow(w, op);
    assert OperatorOk(w, op);
  }

  lemma {:induction false} SamePaidOf(w: World, m: World, op: Operator)
    requires m.table == w.table && m.committed == w.committed
    ensures PaidOf(m, op) == PaidOf(w, op)
  {}

  lemma {:induction false} AppliedOnce(w: World, op: Operator) returns (m: World)
    requires Inv(w) && Chain(w.svc.chains, op) != []
    ensures var chain := Chain(w.svc.chains, op);
      m == w.(store := Exec(w.store, w.svc.heap, chain[0]),
              svc := w.svc.(chains := w.svc.chains[op := chain[1..]]))
    ensures Inv(m) && Next(w, Apply(op), m)
    ensures Part(m.store, m.table, op)
      == Exec(Part(w.store, w.table, op), w.svc.heap, Chain(w.svc.chains, op)[0])
    ensures PaidOf(m, op) == PaidOf(w, op)
  {
    var chain := Chain(w.svc.chains, op);
    m := w.(store := Exec(w.store, w.svc.heap, chain[0]),
            svc := w.svc.(chains := w.svc.chains[op := chain[1..]]));
    SafeNow(w, op);
    FirstFits(w, op);
    hide Inv, Part, PaidOf, Exec, CmdFits;
    assert Next(w, Apply(op), m);
    ApplyInv(w, op, m);
    SamePaidOf(w, m, op);
    PartOfExec(w.store, w.table, w.svc.heap, chain[0], op);
  }

  // ----- a reboot is always possible -----

  lemma {:induction false} OpenRows(st: Store, ops: set<Operator>) returns (open: seq<Row>)
    requires forall op | op in ops :: op in st.openKeys && st.openKeys[op].operator == op
    ensures forall i | 0 <= i < |open| ::
              open[i].operator in ops && st.openKeys[open[i].operator] == open[i]
    ensures forall i, j | 0 <= i < j < |open| :: open[i].operator != open[j].operator
    ensures forall op | op in ops :: st.openKeys[op] in open
  {
    open := [];
    if ops != {} {
      var op :| op in ops;
      var rest := OpenRows(st, ops - {op});
      open := [st.openKeys[op]] + rest;
    }
  }

  lemma {:induction false} BatchRows(rows: map<BatchId, Row>) returns (batches: seq<Row>)
    requires forall b | b in rows :: rows[b].batchId == Some(b)
    ensures forall i | 0 <= i < |batches| ::
              && batches[i].batchId.Some? && batches[i].batchId.value in rows
              && rows[batches[i].batchId.value] == batches[i]
    ensures forall i, j | 0 <= i < j < |batches| :: batches[i].batchId != batches[j].batchId
    ensures forall b | b in rows :: rows[b] in batches
  {
    batches := [];
    if rows != map[] {
      var b :| b in rows;
      var rest := BatchRows(rows - {b});
      batches := [rows[b]] + rest;
    }
  }

  lemma {:induction false} LoadExists(w: World) returns (open: seq<Row>, batches: seq<Row>)
    requires Core(w)
    ensures IsLoad(w.store, open, batches)
  {
    var st := w.store;
    assert forall b | b in LoadedBatches(st) :: LoadedBatches(st)[b] == w.table[b];
    open := OpenRows(st, st.openIndex * st.openKeys.Keys);
    batches := BatchRows(LoadedBatches(st));
  }

  lemma {:induction false} FreshIds(w: World, count: nat) returns (ids: seq<BatchId>)
    ensures |ids| == count && IdsFresh(w, ids)
  {
    var n := LongerThanAll(w.table.Keys);
    ids := seq(count, i requires 0 <= i => seq(n + 1 + i, _ => 'b'));
    forall i | 0 <= i < |ids|
      ensures Fresh(w, ids[i]) && |ids[i]| == n + 1 + i
    {
      assert |ids[i]| == n + 1 + i && ids[i] !in w.table.Keys;
    }
  }

  lemma {:induction false} CanCrash(w: World) returns (down: World)
    requires Inv(w)
    ensures Next(w, Crash, down) && Inv(down)
    ensures !down.up && down.table == w.table && down.store == w.store
  {
    down := w.(up := false, svc := Boot(w.svc.cfg, {}), earlier := w.earlier + w.routed, routed := {});
    hide Inv;
    CrashInv(w, down);
  }

  lemma {:induction false} CanRecover(
      down: World, open: seq<Row>, batches: seq<Row>, ids: seq<BatchId>) returns (booted: World)
    requires !down.up && IsLoad(down.store, open, batches)
    requires |ids| == |batches| + |open| && IdsFresh(down, ids)
    ensures Next(down, Recover(down.svc.cfg, {}, open, batches, ids), booted)
  {
    hide IsLoad, RecoverAccruals, Minted, Owed, Fresh, Boot;
    var s := RecoverAccruals(Boot(down.svc.cfg, {}), open, batches, ids);
    booted := WithService(down, s).(up := true, books := Books(Owed(s), 0, 0, 0));
  }

  /** The process may die and come back from whatever world it is in. */
  lemma {:induction false} Reboots(w: World) returns (es: seq<Event>, down: World, booted: World)
    requires Inv(w)
    ensures |es| == 2 && es[1].Recover? && AllQuiet(es) && Goes(w, es, booted)
    ensures Next(w, Crash, down) && Next(down, es[1], booted)
  {
    hide Inv, IsLoad, Core, IdsFresh, Next;
    down := CanCrash(w);
    InvIsCore(down);
    var open, batches := LoadExists(down);
    var ids := FreshIds(down, |batches| + |open|);
    booted := CanRecover(down, open, batches, ids);
    var e := Recover(down.svc.cfg, {}, open, batches, ids);
    GoOne(down, e, booted);
    GoStep(w, Crash, down, [e], booted);
    es := [Crash] + [e];
  }

  lemma {:induction false} InvIsCore(w: World)
    requires Inv(w)
    ensures Core(w)
  {}

  // ----- what a boot finds and nobody has paid, it pays -----

  /** Recovery lists every unpaid request it finds, under a batch it pays. */
  lemma {:induction false} FoundIsListed(u: World, x: RequestId) returns (b: BatchId)
    requires Core(u) && Recovering(u) && RowsFit(u, []) && LinesOk(u, [])
    requires Found(u.store, x) && !PaidFor(u, x)
    ensures b in u.svc.liabilities && Batch(b) in u.svc.jobs && b in u.table
    ensures x in Ids(u.table[b].records)
  {
    CoreKnowsBatches(u);
    var op := FoundInPart(u.store, u.table, x);
    assert x !in PaidOf(u, op) by { if x in PaidOf(u, op) { PaidOfIsPaidFor(u, op, x); } }
    assert RecoveryLine(u, op, Waiting([], op)) && !Waiting([], op);
    b := LoadableEndsHeld(u, op, x);
  }

  /** The world after a reboot, seen from the one before. */
  ghost predicate BootedFrom(w: World, u: World, again: BatchId, x: RequestId) {
    && u.up && u.svc.accruals == map[] && Batch(again) in u.svc.jobs
    && u.store == w.store && u.committed == w.committed && u.submitted == w.submitted
    && (forall b | b in w.table :: b in u.table && u.table[b] == w.table[b])
    && again in u.table && x in Ids(u.table[again].records)
    && (again in w.table ==> again in LoadedBatches(w.store))
  }

  lemma {:induction false} BootLists(w: World, x: RequestId) returns (es: seq<Event>, u: World, again: BatchId)
    requires Inv(w) && Found(w.store, x) && !PaidFor(w, x)
    ensures Goes(w, es, u) && AllQuiet(es) && Inv(u)
    ensures BootedFrom(w, u, again, x) && !PaidFor(u, x)
  {
    hide Inv, Next, Found, Recovering, RowsFit, LinesOk, Core, Minted, BatchesKnown, Mid, Goes, PaidFor;
    var down;
    es, down, u := Reboots(w);
    GoesInv(w, es, u);
    CrashInv(w, down);
    CrashKeeps(w, down);
    var r := es[1];
    var v := Recovered(down, r.cfg, r.hydrated, r.open, r.batches, r.ids, u);
    RecoverKeeps(down, r.cfg, r.hydrated, r.open, r.batches, r.ids, u);
    MidMeans(v, down.table, [], []);
    SamePaid(w, v, x);
    SamePaid(w, u, x);
    again := FoundIsListed(v, x);
    NothingAccruing(v);
  }

  lemma {:induction false} NothingAccruing(v: World)
    requires Recovering(v)
    ensures v.up && v.svc.accruals == map[]
  {}

  lemma {:induction false} CrashKeeps(w: World, down: World)
    requires Next(w, Crash, down)
    ensures down.store == w.store && down.table == w.table
    ensures down.committed == w.committed && down.submitted == w.submitted
  {}

  lemma {:induction false} RecoverKeeps(
      w: World, cfg: Config, hydrated: set<RequestId>, open: seq<Row>, batches: seq<Row>,
      ids: seq<BatchId>, u: World)
    requires Next(w, Recover(cfg, hydrated, open, batches, ids), u)
    ensures u.up && u.store == w.store && u.committed == w.committed && u.submitted == w.submitted
    ensures forall b | b in w.table :: b in u.table && u.table[b] == w.table[b]
  {
    hide RecoverAccruals, IsLoad, Owed, Boot;
  }

  lemma {:induction false} SamePaid(w: World, u: World, x: RequestId)
    requires u.committed == w.committed
    ensures PaidFor(u, x) == PaidFor(w, x)
  {}

  // ----- a listed batch gets paid, whatever else has been -----

  /** The queue of a just booted process empties, and the batch is submitted. */
  lemma {:induction false} EndsSubmitted(u: World, b: BatchId) returns (es: seq<Event>, w': World)
    requires Inv(u) && u.up && u.svc.accruals == map[] && Batch(b) in u.svc.jobs && b in u.table
    ensures Goes(u, es, w') && AllQuiet(es)
    ensures w'.table == u.table && w'.committed == u.committed
    ensures Batch(b) in w'.submitted && w'.submitted[Batch(b)].records == u.table[b].records
    ensures forall id | id in u.submitted && id != Batch(b) ::
              id in w'.submitted && w'.submitted[id] == u.submitted[id]
    ensures Ready(w', b)
  {
    hide Next, Inv, Goes, OpenIds, TransferOf;
    var op := u.table[b].operator;
    var m;
    es, m := Drain(u, op);
    GoesInv(u, es, m);
    NothingOpen(m, op);
    w' := SubmitsNext(m, b);
    BatchJob(m, b);
    GoOne(m, Submit(Batch(b)), w');
    GoOn(u, es, m, [Submit(Batch(b))], w');
    es := es + [Submit(Batch(b))];
  }

  lemma {:induction false} SubmitsNext(m: World, b: BatchId) returns (w': World)
    requires m.up && Batch(b) in m.svc.jobs
    ensures Next(m, Submit(Batch(b)), w')
    ensures w' == m.(submitted := m.submitted[Batch(b) := TransferOf(m.svc.jobs[Batch(b)])])
  {
    w' := m.(submitted := m.submitted[Batch(b) := TransferOf(m.svc.jobs[Batch(b)])]);
  }

  lemma {:induction false} BatchJob(w: World, b: BatchId)
    requires Inv(w) && Batch(b) in w.svc.jobs
    ensures b in w.svc.liabilities && b in w.table
    ensures TransferOf(w.svc.jobs[Batch(b)]).records == w.table[b].records
  {
    assert Known(w, Batch(b)) && TransferOf(w.svc.jobs[Batch(b)]) == Fixed(w, Batch(b));
  }

  lemma {:induction false} NothingOpen(w: World, op: Operator)
    requires Inv(w) && w.up && w.svc.accruals == map[] && Chain(w.svc.chains, op) == []
    ensures OpenIds(Part(w.store, w.table, op), op) == {}
  {
    hide Part, PaidOf, DueTo;
    assert OperatorOk(w, op);
  }

  /** `b` is submitted and listed, and nothing of its operator is loadable from an open row or queued. */
  ghost predicate Ready(w: World, b: BatchId) {
    && Batch(b) in w.submitted && b in w.table && b in w.svc.liabilities
    && Chain(w.svc.chains, w.table[b].operator) == []
    && OpenIds(Part(w.store, w.table, w.table[b].operator), w.table[b].operator) == {}
  }

  lemma {:induction false} ReadyCommits(w: World, b: BatchId)
    requires Ready(w, b) && Batch(b) !in w.committed
    ensures Next(w, Commit(Batch(b)), AfterCommit(w, b))
  {
    hide Part, PaidOf, OpenIds;
    assert MayCommit(w, b);
  }

  /** The world once the transfer submitted for `b` has committed. */
  ghost function AfterCommit(w: World, b: BatchId): World
    requires Batch(b) in w.submitted
  {
    w.(committed := w.committed[Batch(b) := w.submitted[Batch(b)]])
  }

  // ----- paid twice -----

  ghost predicate PaysTwice(w: World) {
    exists p, q, x :: p != q && p in w.committed && q in w.committed
                      && Covers(w.committed[p], x) && Covers(w.committed[q], x)
  }

  lemma {:induction false} NeverTwice(w: World)
    requires Inv(w)
    ensures !PaysTwice(w)
  {
    forall p, q, x | p in w.committed && q in w.committed
                     && Covers(w.committed[p], x) && Covers(w.committed[q], x)
      ensures p == q
    {
      CommittedOnce(w, p, q, x);
    }
  }

  lemma {:induction false} CommitStep(w: World, b: BatchId)
    requires MayCommit(w, b) && Batch(b) in w.submitted && Batch(b) !in w.committed
    ensures Next(w, Commit(Batch(b)), AfterCommit(w, b))
  {
    hide MayCommit;
  }

  /** From a commit that may happen, no run ever pays a request twice. */
  lemma {:induction false} MayCommitIsSafe(w: World, b: BatchId, es: seq<Event>, w': World)
    requires Inv(w) && MayCommit(w, b) && Batch(b) in w.submitted && Batch(b) !in w.committed
    requires Goes(AfterCommit(w, b), es, w')
    ensures !PaysTwice(w')
  {
    hide Inv, MayCommit, Next, Goes, PaysTwice;
    CommitStep(w, b);
    CommitInv(w, Batch(b), AfterCommit(w, b));
    GoesInv(AfterCommit(w, b), es, w');
    NeverTwice(w');
  }

  /** A batch that still has something to be paid for is not the one whose request is `x`. */
  lemma {:induction false} UnpaidBatch(w: World, c: BatchId, x: RequestId)
    requires Core(w) && Active(w, c) && Batch(c) !in w.committed
    requires c in w.table && x in Ids(w.table[c].records)
    ensures !PaidFor(w, x)
  {
    forall q | q in w.committed
      ensures !Covers(w.committed[q], x)
    {
      if Covers(w.committed[q], x) {
        OneBatchOnly(w, c, q, x);
      }
    }
  }

  lemma {:induction false} OneBatchOnly(w: World, c: BatchId, q: PayoutId, x: RequestId)
    requires Core(w) && Active(w, c) && c in w.table && x in Ids(w.table[c].records)
    requires q in w.committed && Covers(w.committed[q], x)
    ensures q == Batch(c)
  {
    CommittedIsFixed(w, q);
    CoreTransfers(w);
    if q.Batch? {
      assert DisjointOk(w) && Active(w, q.batch);
    } else {
      SingleIsBatchless(w, q.request);
    }
  }

  lemma {:induction false} CommittedIsFixed(w: World, q: PayoutId)
    requires Core(w) && q in w.committed
    ensures Known(w, q) && w.committed[q] == Fixed(w, q)
  {}

  lemma {:induction false} SingleIsBatchless(w: World, x: RequestId)
    requires Core(w) && Single(x) in w.committed
    ensures Batchless(w, x) && x in w.recs && w.recs[x].requestId == x
  {
    assert IsSingle(w, x);
  }

  lemma {:induction false} UnpaidOpen(w: World, op: Operator, x: RequestId)
    requires Core(w) && x in OpenIds(w.store, op) && x !in PaidOf(w, op)
    ensures !PaidFor(w, x)
  {
    forall q | q in w.committed
      ensures !Covers(w.committed[q], x)
    {
      if Covers(w.committed[q], x) { OpenIsPaidByBatch(w, op, q, x); }
    }
  }

  lemma {:induction false} OpenIsPaidByBatch(w: World, op: Operator, q: PayoutId, x: RequestId)
    requires Core(w) && x in OpenIds(w.store, op)
    requires q in w.committed && Covers(w.committed[q], x)
    ensures x in PaidOf(w, op)
  {
    CommittedIsFixed(w, q);
    CoreTables(w);
    hide PaidOf;
    if q.Batch? {
      hide Core;
      PaidOpenIsPaidOf(w, q.batch, op, x);
    } else {
      SingleIsBatchless(w, q.request);
    }
  }

  lemma {:induction false} PaidOpenIsPaidOf(w: World, b: BatchId, op: Operator, x: RequestId)
    requires StoreOk(w.store, w.table, w.recs) && TableOk(w.table, w.recs)
    requires b in w.table && Batch(b) in w.committed && x in OpenIds(w.store, op)
    ensures x in Ids(w.table[b].records) ==> x in PaidOf(w, op)
  {
    var rs := w.table[b].records;
    if x in Ids(rs) {
      var r :| r in rs && r.requestId == x;
      SameOperator(rs, w.table[b].operator, w.store.openKeys[op].records, op, w.recs, x);
    }
  }

  /** A loadable batch other than `b` has `x`. */
  ghost predicate AlsoElsewhere(m: World, b: BatchId, x: RequestId) {
    exists c :: c != b && c in LoadedBatches(m.store) && c in m.table && x in Ids(m.table[c].records)
  }

  /** From `m`, a boot finds `x` and pays it under an id other than `b`. */
  lemma {:induction false} PaidAgain(w: World, b: BatchId, es: seq<Event>, m: World, x: RequestId)
      returns (more: seq<Event>, w': World)
    requires Inv(w) && Batch(b) in w.submitted && Batch(b) !in w.committed
    requires b in w.table && x in Ids(w.table[b].records)
    requires Goes(w, es, m) && AllQuiet(es) && m.table == w.table && m.submitted == w.submitted
    requires Found(m.store, x) && !PaidFor(m, x)
    requires b in LoadedBatches(m.store) ==> AlsoElsewhere(m, b, x)
    ensures Goes(AfterCommit(w, b), more, w') && PaysTwice(w')
  {
    hide Inv, Next, Goes, Found, PaidFor, LoadedBatches, Ready, AllQuiet, PaysTwice, Ids,
      AlsoElsewhere;
    GoesInv(w, es, m);
    var boot, u, again := BootLists(m, x);
    AnotherBatch(w, b, m, x, u, again);
    var last, e := EndsSubmitted(u, again);
    GoOn(m, boot, u, last, e);
    GoOn(w, es, m, boot + last, e);
    AllQuietPlus(boot, last);
    AllQuietPlus(es, boot + last);
    var start := AfterCommit(w, b);
    QuietTwin(w, es + (boot + last), e, start.committed);
    var twin := e.(committed := start.committed);
    BatchIsKnown(w, b);
    UnpaidId(u, again, x);
    ReadyTwin(e, again, start.committed);
    ReadyCommits(twin, again);
    w' := AfterCommit(twin, again);
    GoOne(twin, Commit(Batch(again)), w');
    GoOn(start, es + (boot + last), twin, [Commit(Batch(again))], w');
    more := es + (boot + last) + [Commit(Batch(again))];
    TwiceBy(w', Batch(b), Batch(again), x);
  }

  lemma {:induction false} AllQuietPlus(a: seq<Event>, b: seq<Event>)
    requires AllQuiet(a) && AllQuiet(b)
    ensures AllQuiet(a + b)
  {}

  lemma {:induction false} ReadyTwin(w: World, b: BatchId, c: map<PayoutId, Transfer>)
    requires Ready(w, b)
    ensures Ready(w.(committed := c), b)
  {}

  lemma {:induction false} TwiceBy(w: World, p: PayoutId, q: PayoutId, x: RequestId)
    requires p != q && p in w.committed && q in w.committed
    requires x in Ids(w.committed[p].records) && x in Ids(w.committed[q].records)
    ensures PaysTwice(w)
  {
    assert Covers(w.committed[p], x) && Covers(w.committed[q], x);
  }

  lemma {:induction false} BatchIsKnown(w: World, b: BatchId)
    requires Inv(w) && Batch(b) in w.submitted
    ensures b in w.table && w.submitted[Batch(b)].records == w.table[b].records
  {
    assert Known(w, Batch(b)) && w.submitted[Batch(b)] == Fixed(w, Batch(b));
  }

  lemma {:induction false} UnpaidId(u: World, b: BatchId, x: RequestId)
    requires Inv(u) && b in u.table && x in Ids(u.table[b].records) && !PaidFor(u, x)
    ensures Batch(b) !in u.committed
  {
    CommittedCovers(u, b, x);
  }

  lemma {:induction false} CommittedCovers(u: World, b: BatchId, x: RequestId)
    requires Inv(u) && b in u.table && x in Ids(u.table[b].records)
    ensures Batch(b) in u.committed ==> PaidFor(u, x)
  {
    if Batch(b) in u.committed {
      assert Known(u, Batch(b)) && u.committed[Batch(b)] == Fixed(u, Batch(b));
      assert Covers(u.committed[Batch(b)], x);
    }
  }

  lemma {:induction false} AnotherBatch(w: World, b: BatchId, m: World, x: RequestId, u: World, again: BatchId)
    requires Inv(u) && BootedFrom(m, u, again, x) && m.table == w.table && b in w.table
    requires b in LoadedBatches(m.store) ==> AlsoElsewhere(m, b, x)
    ensures again != b
  {
    if again == b {
      var c :| c != b && c in LoadedBatches(m.store) && c in m.table && x in Ids(m.table[c].records);
      assert Active(u, c) && Active(u, b);
    }
  }

  // ----- the exact condition -----

  /** Another batch has taken a request of one that is neither listed nor loadable any more. */
  lemma {:induction false} TakenIsPaidTwice(w: World, b: BatchId, c: BatchId, x: RequestId)
      returns (es: seq<Event>, w': World)
    requires Inv(w) && Batch(b) in w.submitted && Batch(b) !in w.committed && b in w.table
    requires Active(w, c) && c != b && c in w.table
    requires x in Ids(w.table[b].records) && x in Ids(w.table[c].records)
    ensures Goes(AfterCommit(w, b), es, w') && PaysTwice(w')
  {
    hide Inv, Core, Goes, PaysTwice, Found, PaidFor, Next, Ids, LoadedBatches;
    BatchIsKnown(w, b);
    InvIsCore(w);
    if Batch(c) in w.committed {
      CommittedIsFixed(w, Batch(c));
      es, w' := [], AfterCommit(w, b);
      assert Goes(w', [], w') by { GoesNowhere(w'); }
      TwiceBy(w', Batch(b), Batch(c), x);
    } else {
      UnpaidBatch(w, c, x);
      var first, m := BecomesLoadable(w, c);
      SamePaid(w, m, x);
      LoadedIsFound(m, c, x);
      es, w' := PaidAgain(w, b, first, m, x);
    }
  }

  lemma {:induction false} LoadedIsFound(m: World, c: BatchId, x: RequestId)
    requires Inv(m) && c in LoadedBatches(m.store) && c in m.table && x in Ids(m.table[c].records)
    ensures Found(m.store, x)
  {
    LoadedIds(m.store, m.table, c);
  }

  /** A listed batch is loadable once its operator's queue has run. */
  lemma {:induction false} BecomesLoadable(w: World, c: BatchId) returns (es: seq<Event>, m: World)
    requires Inv(w) && (c in w.svc.liabilities || c in LoadedBatches(w.store)) && c in w.table
    ensures Goes(w, es, m) && AllQuiet(es) && Inv(m)
    ensures m.table == w.table && m.submitted == w.submitted && m.committed == w.committed
    ensures c in LoadedBatches(m.store)
  {
    if c in LoadedBatches(w.store) {
      es, m := [], w;
    } else {
      var op := w.table[c].operator;
      es, m := Drain(w, op);
      GoesInv(w, es, m);
      hide Goes, Part, Core;
      assert OperatorOk(m, op);
      assert c in DueTo(m, op);
      ListedInPart(m, c, op);
    }
  }

  lemma {:induction false} ListedInPart(m: World, c: BatchId, op: Operator)
    requires BatchesFit(m.store, m.table) && c in LoadedBatches(Part(m.store, m.table, op))
    ensures c in LoadedBatches(m.store)
  {
    PartLoads(m.store, m.table, op);
  }

  lemma {:induction false} UnsafeIsPaidTwice(w: World, b: BatchId) returns (es: seq<Event>, w': World)
    requires Inv(w) && Batch(b) in w.submitted && Batch(b) !in w.committed && !MayCommit(w, b)
    ensures Goes(AfterCommit(w, b), es, w') && PaysTwice(w')
  {
    BatchIsKnown(w, b);
    hide Inv, Goes, PaysTwice, Safe, Part, PaidOf;
    if c, x :| Active(w, c) && !Active(w, b) && c in w.table
               && x in Ids(w.table[c].records) && x in Ids(w.table[b].records) {
      es, w' := TakenIsPaidTwice(w, b, c, x);
    } else {
      var first, m, x := UnsafePoint(w, b);
      GoesInv(w, first, m);
      OpenIsUnpaid(m, b, x);
      es, w' := PaidAgain(w, b, first, m, x);
    }
  }

  lemma {:induction false} OpenIsUnpaid(m: World, b: BatchId, x: RequestId)
    requires Inv(m) && b in m.table && x in Ids(m.table[b].records)
    requires var op := m.table[b].operator;
      x in OpenIds(m.store, op) && x !in PaidOf(m, op) && x !in BatchIds(Part(m.store, m.table, op))
    ensures Found(m.store, x) && !PaidFor(m, x) && b !in LoadedBatches(m.store)
  {
    var op := m.table[b].operator;
    UnpaidOpen(m, op, x);
    if b in LoadedBatches(m.store) {
      PartLoads(m.store, m.table, op);
      LoadedIds(Part(m.store, m.table, op), m.table, b);
    }
  }

  /**
   * Exactly when a submitted batch may commit: if it may, no run that goes on from there pays a
   * request twice; if it may not, some run does.
   */
  lemma {:induction false} CommitSafeIff(w: World, b: BatchId)
    requires Inv(w) && Batch(b) in w.submitted && Batch(b) !in w.committed
    ensures MayCommit(w, b) <==> forall es, w' | Goes(AfterCommit(w, b), es, w') :: !PaysTwice(w')
  {
    hide Inv, MayCommit, Goes, PaysTwice;
    if MayCommit(w, b) {
      forall es, w' | Goes(AfterCommit(w, b), es, w')
        ensures !PaysTwice(w')
      {
        MayCommitIsSafe(w, b, es, w');
      }
    } else {
      var es, w' := UnsafeIsPaidTwice(w, b);
    }
  }

  // ----- rows that were never open -----

  lemma {:induction false} SafeWhileClosed(
      st: Store, heap: Heap, chain: seq<Cmd>, op: Operator, paid: set<RequestId>, more: set<RequestId>)
    requires Safe(st, heap, chain, op, paid) && paid <= more
    requires op !in st.openKeys && forall c | c in chain :: !c.SetOpen?
    ensures Safe(st, heap, chain, op, more)
    decreases |chain|
  {
    assert OpenIds(st, op) == {};
    if chain != [] {
      assert chain[0] in chain && forall c | c in chain[1..] :: c in chain;
      hide OpenIds, BatchIds;
      SafeWhileClosed(Exec(st, heap, chain[0]), heap, chain[1..], op, paid, more);
    }
  }

  /** Nor need the row be stored yet, as long as the operator has no open row, stored or queued. */
  lemma {:induction false} NeverOpenMayCommit(w: World, b: BatchId)
    requires Inv(w) && b in w.svc.liabilities && b in w.table
    requires var op := w.table[b].operator;
      op !in w.store.openKeys && forall c | c in Chain(w.svc.chains, op) :: !c.SetOpen?
    ensures MayCommit(w, b)
  {
    var op := w.table[b].operator;
    SafeNow(w, op);
    var part := Part(w.store, w.table, op);
    assert op !in part.openKeys;
    hide Inv, Part, PaidOf;
    SafeWhileClosed(part, w.svc.heap, Chain(w.svc.chains, op), op, PaidOf(w, op),
                    PaidOf(w, op) + Ids(w.table[b].records));
  }
}
