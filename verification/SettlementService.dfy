// The service object. Every method updates the fields the way the program does, and is proved
// to have exactly the effect of the turn of the same name in Settlement.
module SettlementService {
  import opened Prelude
  import opened AccrualStore
  import opened InsertionMap
  import S = Settlement
  import FlushTheorems
  import Owing
  import Pricing

  class DoubleSettlementService {
    const cfg: S.Config
    var routing: seq<(string, S.Note)>
    var claimed: set<RequestId>
    var heap: Heap
    var accruals: map<Operator, S.Accrual>
    var batchLiabilities: map<BatchId, S.Liability>
    var writeChains: map<Operator, seq<Cmd>>
    var jobs: map<S.PayoutId, S.Job>

    function State(): S.Service
      reads this
    {
      S.Service(cfg, routing, claimed, heap, accruals, batchLiabilities, writeChains, jobs)
    }

    /** Every accrual has an array of its process with something in it. */
    predicate Valid()
      reads this
    {
      forall op | op in accruals :: accruals[op].arr < |heap| && heap[accruals[op].arr] != []
    }

    constructor (cfg: S.Config, hydrated: set<RequestId>)
      ensures Valid() && State() == S.Boot(cfg, hydrated)
    {
      this.cfg := cfg;
      routing, claimed, heap, accruals := [], hydrated, [], map[];
      batchLiabilities, writeChains, jobs := map[], map[], map[];
    }

    method EnqueueWrite(op: Operator, cs: seq<Cmd>)
      modifies this`writeChains
      ensures State() == S.Enqueue(old(State()), op, cs)
    {
      writeChains := writeChains[op := S.Chain(writeChains, op) + cs];
    }

    method RecordRouting(id: RequestId, nodeId: string, op: Operator, at: int)
      modifies this`routing
      ensures State() == S.RecordRouting(old(State()), id, nodeId, op, at)
    {
      while routing != [] && at - routing[0].1.at >= S.ROUTING_NOTE_TTL_MS
        invariant S.PruneRouting(routing, at) == S.PruneRouting(old(routing), at)
        decreases |routing|
      {
        routing := routing[1..];
      }
      routing := Put(routing, id, S.Note(nodeId, op, at));
    }

    method SettleInbound(inbound: S.Inbound, at: int, newId: BatchId)
      requires Valid()
      modifies this
      ensures Valid() && State() == S.SettleInbound(old(State()), inbound, at, newId)
    {
      var note := Find(routing, inbound.requestId);
      if note == None { return; }
      routing := Remove(routing, inbound.requestId);
      if inbound.requestId in claimed { return; }
      claimed := claimed + {inbound.requestId};
      var split := Pricing.ComputeSplit(inbound.amount, cfg.marginBps);
      if split.Err? { return; }
      var rec := Rec(inbound.requestId, note.value.nodeId, note.value.operator,
                     split.value.inbound, split.value.payout, split.value.margin, at);
      if rec.payout == 0 { return; }
      if cfg.batchMin > 0 {
        Accrue(rec, at, newId);
      } else {
        jobs := jobs[S.Single(rec.requestId) := S.Job(rec.operator, rec.payout, [rec], None, false)];
      }
    }

    method Accrue(rec: Rec, at: int, newId: BatchId)
      requires Valid()
      modifies this
      ensures Valid() && State() == S.Accrue(old(State()), rec, at, newId)
    {
      hide S.PushRecord, S.WithAccrual, S.FlushAccrual;
      var op := rec.operator;
      var a := PushRecord(rec, at);
      if a.total >= cfg.batchMin {
        FlushAccrual(op, newId);
        return;
      }
      if |heap[a.arr]| >= cfg.maxRequests {
        FlushAccrual(op, newId);
        return;
      }
      EnqueueWrite(op, PutOpenCmds(op, a.arr, a.firstAt));
    }

    /** The record joins its operator's accrual, which is started if there is none. */
    method PushRecord(rec: Rec, at: int) returns (a: S.Accrual)
      requires Valid()
      modifies this`accruals, this`heap
      ensures Valid() && State() == S.PushRecord(S.WithAccrual(old(State()), rec.operator, at), rec)
      ensures rec.operator in accruals && a == accruals[rec.operator]
    {
      var op := rec.operator;
      if op !in accruals {
        accruals := accruals[op := S.Accrual(|heap|, 0, at)];
        heap := heap + [[]];
      }
      assert State() == S.WithAccrual(old(State()), op, at);
      hide S.WithAccrual;
      a := accruals[op];
      heap := heap[a.arr := heap[a.arr] + [rec]];
      a := a.(total := a.total + rec.payout);
      accruals := accruals[op := a];
    }

    method FlushAccrual(op: Operator, newId: BatchId)
      requires Valid()
      modifies this
      ensures Valid() && State() == S.FlushAccrual(old(State()), op, newId)
      ensures accruals == old(accruals) - {op}
      ensures jobs == old(jobs) || jobs != map[]
      ensures op in old(accruals) ==> jobs != map[]
    {
      if op !in accruals || heap[accruals[op].arr] == [] { return; }
      var a := accruals[op];
      var records := heap[a.arr];
      accruals := accruals - {op};
      var owed := SumRecords(records);
      batchLiabilities := batchLiabilities[newId :=
        S.Liability(op, owed, |records|, a.firstAt, 0, None, None)];
      var row := Row(op, records, a.firstAt, Some(newId));
      EnqueueWrite(op, PutBatchCmds(newId, row) + RemoveOpenCmds(op));
      jobs := jobs[S.Batch(newId) := S.Job(op, owed, records, Some(newId), false)];
      assert S.Batch(newId) in jobs;
    }

    /** The reduction that re-derives a batch's amount from its records. */
    method SumRecords(records: seq<Rec>) returns (total: nat)
      ensures total == Sum(records)
    {
      total := 0;
      for i := 0 to |records|
        invariant total == Sum(records[..i])
      {
        assert records[..i + 1] == records[..i] + [records[i]];
        SumAppend(records[..i], [records[i]]);
        total := total + records[i].payout;
      }
      assert records[..|records|] == records;
    }

    method FinalizeSettled(id: S.PayoutId)
      requires id in jobs
      modifies this
      ensures State() == S.FinalizeSettled(old(State()), id)
      ensures accruals == old(accruals) && heap == old(heap)
    {
      var job := jobs[id];
      jobs := jobs - {id};
      if job.batchId.Some? {
        batchLiabilities := batchLiabilities - {job.batchId.value};
        var op := if job.records == [] then "" else job.records[0].operator;
        EnqueueWrite(op, RemoveBatchCmds(job.batchId.value));
      }
    }

    method FinalizeFailed(id: S.PayoutId, reason: string, at: int)
      requires id in jobs
      modifies this
      ensures State() == S.FinalizeFailed(old(State()), id, reason, at)
      ensures accruals == old(accruals) && heap == old(heap)
    {
      var job := jobs[id];
      jobs := jobs - {id};
      if job.batchId.Some? && job.batchId.value in batchLiabilities {
        var l := batchLiabilities[job.batchId.value];
        var shown := if |reason| > 256 then reason[..256] else reason;
        batchLiabilities := batchLiabilities[job.batchId.value :=
          l.(attempts := l.attempts + 1, lastError := Some(shown), lastAttemptAt := Some(at))];
      }
    }

    /** Any other turn. */
    method Take(turn: S.Turn)
      requires Valid()
      modifies this
      ensures Valid() && State() == S.AfterTurn(old(State()), turn)
    {
      match turn {
        case Routes(id, nodeId, op, at) => RecordRouting(id, nodeId, op, at);
        case Settles(inbound, at, newId) => SettleInbound(inbound, at, newId);
        case Flushes(op, newId) => FlushAccrual(op, newId);
        case Succeeds(id) => if id in jobs { FinalizeSettled(id); }
        case Fails(id, reason, at) => if id in jobs { FinalizeFailed(id, reason, at); }
        case Written(op) =>
          if S.Chain(writeChains, op) != [] { writeChains := writeChains[op := writeChains[op][1..]]; }
      }
    }

    /**
     * Waits until nothing is in flight; `turns` is what happens meanwhile, and `rest` what is left
     * of it when the wait ends. If they run out first, the wait has not ended.
     */
    method WhenIdle(turns: seq<S.Turn>) returns (rest: seq<S.Turn>)
      requires Valid()
      modifies this
      ensures Valid() && (State(), rest) == S.Waited(old(State()), turns)
      ensures |rest| <= |turns| && (S.Idle(State()) && !old(S.Idle(State())) ==> |rest| < |turns|)
      ensures !S.Idle(State()) ==> rest == []
    {
      hide S.Idle, S.AfterTurn;
      rest := turns;
      while rest != [] && !S.Idle(State())
        invariant Valid() && |rest| <= |turns|
        invariant S.Waited(State(), rest) == S.Waited(old(State()), turns)
        invariant rest == turns ==> State() == old(State())
        invariant |rest| == |turns| ==> rest == turns
        decreases |rest|
      {
        Take(rest[0]);
        rest := rest[1..];
      }
    }

    /** One pass: every operator that is accruing is flushed. */
    method FlushAll(mint: nat -> BatchId, first: nat) returns (next: nat)
      requires Valid()
      modifies this
      ensures Valid() && accruals == map[] && next == first + |old(accruals)|
      ensures S.FlushedOnce(old(State()), mint, first, State())
      ensures old(accruals) != map[] ==> !S.Idle(State())
    {
      hide S.FlushAccrual, S.FlushedInTurn, S.ListsAccruing, S.Remaining, S.Idle;
      ghost var before := State();
      ghost var done: seq<Operator> := [];
      next := first;
      NoneFlushed(before, mint, first);
      S.AllRemaining(before.accruals);
      while accruals != map[]
        invariant Valid()
        invariant next == first + |done| && (done != [] ==> jobs != map[])
        invariant S.Remaining(before.accruals, done, accruals)
        invariant State() == S.FlushedInTurn(before, done, mint, first)
        decreases |accruals|
      {
        var op :| op in accruals;
        var id := mint(next);
        S.FlushedMore(before, done, op, mint, first, next);
        S.RemainingMore(before.accruals, done, accruals, op);
        FlushAccrual(op, id);
        done := done + [op];
        next := next + 1;
      }
      S.NoneRemaining(before, done);
      PayoutInFlight(State());
    }

    lemma {:induction false} PayoutInFlight(s: S.Service)
      ensures s.jobs != map[] ==> !S.Idle(s)
    {}

    lemma {:induction false} NoneFlushed(s: S.Service, mint: nat -> BatchId, first: nat)
      ensures S.FlushedInTurn(s, [], mint, first) == s
    {}

    /**
     * Flushes and waits until nothing is accruing, and then waits once more; `turns` is what
     * happens during the waits. The call has `returned` unless the turns ran out in a wait.
     *
     * A call that returns leaves nothing accruing if it found something to flush, or nothing in
     * flight, or if no charge can accrue.
     */
    method FlushPayouts(turns: seq<S.Turn>, mint: nat -> BatchId) returns (returned: bool)
      requires Valid()
      modifies this
      ensures Valid()
      ensures exists rounds :: S.FlushedIn(rounds, old(State()), turns, mint, 0, State(), returned)
      ensures returned && (old(accruals) != map[] || old(S.Idle(State())) || !FlushTheorems.CanAccrue(cfg)) ==>
        accruals == map[]
    {
      hide S.Idle, S.Waited, S.FlushedOnce, S.FlushedIn, S.Reached;
      ghost var before := State();
      ghost var rounds: nat := 0;
      var next, rest := 0, turns;
      S.ReachedStart(before, turns, mint);
      while accruals != map[]
        invariant Valid()
        invariant S.Reached(rounds, before, turns, mint, State(), rest, next)
        decreases |rest|
      {
        ghost var start, from, left := State(), next, rest;
        next := FlushAll(mint, next);
        ghost var flushed := State();
        rest := WhenIdle(rest);
        if !S.Idle(State()) {
          S.ReachedStuck(rounds, before, turns, mint, start, left, from, flushed, State());
          return false;
        }
        S.ReachedMore(rounds, before, turns, mint, start, left, from, flushed, State(), rest);
        rounds := rounds + 1;
      }
      S.ReachedEnd(rounds, before, turns, mint, State(), rest, next);
      var _ := WhenIdle(rest);
      returned := S.Idle(State());
      if returned && (before.accruals != map[] || S.Idle(before) || !FlushTheorems.CanAccrue(cfg)) {
        FlushTheorems.ReturnsEmpty(rounds, before, turns, mint, 0, State());
      }
    }

    /** What the service owes, oldest first: one line per accrual and one per unpaid batch. */
    method GetPendingPayouts(maxDelayMs: int) returns (report: seq<Owing.Pending>)
      requires Valid()
      ensures Owing.OldestFirst(report) && Owing.ListsEverything(State(), maxDelayMs, report)
      ensures Owing.SumPending(report) == Owing.Owed(State())
    {
      var accruing := ListAccruing(maxDelayMs);
      var batched := ListBatched();
      Owing.SumPendingAppend(accruing, batched);
      var all := accruing + batched;
      report := Owing.SortByAge(all);
      Owing.SortedHas(all);
    }

    method ListAccruing(maxDelayMs: int) returns (list: seq<Owing.Pending>)
      ensures |list| == |accruals| && Owing.SumPending(list) == Owing.SumTotals(accruals)
      ensures forall op | op in accruals :: Owing.PendingAccrual(State(), op, maxDelayMs) in list
    {
      list := [];
      var left := accruals;
      while left != map[]
        invariant left.Keys <= accruals.Keys && forall op | op in left :: left[op] == accruals[op]
        invariant |list| + |left| == |accruals|
        invariant Owing.SumPending(list) + Owing.SumTotals(left) == Owing.SumTotals(accruals)
        invariant forall op | op in accruals && op !in left :: Owing.PendingAccrual(State(), op, maxDelayMs) in list
        decreases |left|
      {
        var op :| op in left;
        Owing.SumTotalsAt(left, op);
        Owing.SumPendingAppend(list, [Owing.PendingAccrual(State(), op, maxDelayMs)]);
        Owing.SumPendingOne(Owing.PendingAccrual(State(), op, maxDelayMs));
        list := list + [Owing.PendingAccrual(State(), op, maxDelayMs)];
        left := left - {op};
      }
    }

    method ListBatched() returns (list: seq<Owing.Pending>)
      ensures |list| == |batchLiabilities| && Owing.SumPending(list) == Owing.SumOwed(batchLiabilities)
      ensures forall b | b in batchLiabilities :: Owing.PendingBatch(State(), b) in list
    {
      list := [];
      var left := batchLiabilities;
      while left != map[]
        invariant left.Keys <= batchLiabilities.Keys && forall b | b in left :: left[b] == batchLiabilities[b]
        invariant |list| + |left| == |batchLiabilities|
        invariant Owing.SumPending(list) + Owing.SumOwed(left) == Owing.SumOwed(batchLiabilities)
        invariant forall b | b in batchLiabilities && b !in left :: Owing.PendingBatch(State(), b) in list
        decreases |left|
      {
        var b :| b in left;
        Owing.SumOwedAt(left, b);
        Owing.SumPendingAppend(list, [Owing.PendingBatch(State(), b)]);
        Owing.SumPendingOne(Owing.PendingBatch(State(), b));
        list := list + [Owing.PendingBatch(State(), b)];
        left := left - {b};
      }
    }

    method DropRecovered(row: Row)
      modifies this`batchLiabilities, this`writeChains
      ensures State() == S.DropRecovered(old(State()), row)
    {
      if row.batchId.Some? {
        batchLiabilities := batchLiabilities - {row.batchId.value};
        EnqueueWrite(row.operator, RemoveBatchCmds(row.batchId.value));
      } else {
        EnqueueWrite(row.operator, RemoveOpenCmds(row.operator));
      }
    }

    /** One recovered row; the requests it takes join `handled`. */
    method RecoverRow(row: Row, handled: set<RequestId>, newId: BatchId) returns (taken: set<RequestId>)
      modifies this
      ensures accruals == old(accruals) && heap == old(heap)
      ensures S.Recovery(State(), taken) == S.RecoverRow(S.Recovery(old(State()), handled), row, newId)
    {
      taken := handled;
      var payable := Payable(row.records, handled);
      if payable == [] {
        DropRecovered(row);
        return;
      }
      claimed := claimed + Ids(payable);
      taken := handled + Ids(payable);
      var owed := SumRecords(payable);
      if owed == 0 {
        DropRecovered(row);
        return;
      }
      var resumed := S.Resumed(row);
      var b := if resumed then row.batchId.value else newId;
      batchLiabilities := batchLiabilities[b :=
        S.Liability(row.operator, owed, |payable|, row.firstAt, 0, None, None)];
      EnqueueWrite(row.operator,
        PutBatchCmds(b, row.(records := payable, batchId := Some(b)))
        + (if resumed then [] else RemoveOpenCmds(row.operator)));
      jobs := jobs[S.Batch(b) := S.Job(row.operator, owed, payable, Some(b), resumed)];
    }

    /** The rows of a boot: batches first, then open accruals. */
    method RecoverAccruals(open: seq<Row>, batches: seq<Row>, ids: seq<BatchId>)
      requires |ids| == |batches| + |open|
      modifies this
      ensures accruals == old(accruals) && heap == old(heap)
      ensures State() == S.RecoverAccruals(old(State()), open, batches, ids)
    {
      hide S.RecoverRow, S.RecoverRows;
      var rows := batches + open;
      var handled: set<RequestId> := {};
      var i := 0;
      assert rows[0..] == rows && ids[0..] == ids;
      while i < |rows|
        invariant 0 <= i <= |rows|
        invariant accruals == old(accruals) && heap == old(heap)
        invariant S.RecoverRows(S.Recovery(State(), handled), rows[i..], ids[i..])
               == S.RecoverRows(S.Recovery(old(State()), {}), rows, ids)
      {
        S.RowsFrom(S.Recovery(State(), handled), rows, ids, i);
        handled := RecoverRow(rows[i], handled, ids[i]);
        i := i + 1;
      }
      S.RowsFrom(S.Recovery(State(), handled), rows, ids, i);
    }

    method Payable(records: seq<Rec>, handled: set<RequestId>) returns (payable: seq<Rec>)
      ensures payable == S.Unhandled(records, handled)
    {
      payable := [];
      var i := 0;
      while i < |records|
        invariant 0 <= i <= |records|
        invariant payable + S.Unhandled(records[i..], handled) == S.Unhandled(records, handled)
      {
        assert records[i..][1..] == records[i + 1..];
        if records[i].requestId !in handled { payable := payable + [records[i]]; }
        i := i + 1;
      }
      assert records[i..] == [];
    }
  }
}
