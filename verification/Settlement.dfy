// The settlement service, turn by turn: each function is the whole effect of one synchronous
// turn on the service's maps, its queued durable writes and its payout jobs.
module Settlement {
  import opened Prelude
  import opened AccrualStore
  import opened InsertionMap
  import Pricing

  datatype Note = Note(nodeId: string, operator: Operator, at: int)

  datatype Inbound = Inbound(requestId: RequestId, amount: int)

  datatype Config = Config(batchMin: nat, maxRequests: int, marginBps: int)

  /** `arr` names the accrual's record array in the heap; an accrual is never copied. */
  datatype Accrual = Accrual(arr: nat, total: nat, firstAt: int)

  datatype Liability = Liability(
    operator: Operator, owed: nat, requests: nat, oldestAt: int,
    attempts: nat, lastError: Option<string>, lastAttemptAt: Option<int>)

  datatype PayoutId = Single(request: RequestId) | Batch(batch: BatchId)

  datatype Job = Job(
    receiver: Operator, amount: nat, records: seq<Rec>, batchId: Option<BatchId>,
    checkLandedFirst: bool)

  datatype Service = Service(
    cfg: Config,
    routing: seq<(string, Note)>,
    claimed: set<RequestId>,
    heap: Heap,
    accruals: map<Operator, Accrual>,
    liabilities: map<BatchId, Liability>,
    chains: map<Operator, seq<Cmd>>,
    jobs: map<PayoutId, Job>)

  const ROUTING_NOTE_TTL_MS := 600000

  /** A process just started; `hydrated` are the ids its restored audit ledger already claims. */
  function Boot(cfg: Config, hydrated: set<RequestId>): Service {
    Service(cfg, [], hydrated, [], map[], map[], map[], map[])
  }

  function Chain(chains: map<Operator, seq<Cmd>>, op: Operator): seq<Cmd> {
    if op in chains then chains[op] else []
  }

  function Enqueue(s: Service, op: Operator, cs: seq<Cmd>): Service {
    s.(chains := s.chains[op := Chain(s.chains, op) + cs])
  }

  function PruneRouting(routing: seq<(string, Note)>, at: int): (r: seq<(string, Note)>)
    ensures KeySet(r) <= KeySet(routing)
  {
    if routing != [] && at - routing[0].1.at >= ROUTING_NOTE_TTL_MS
    then PruneRouting(routing[1..], at)
    else routing
  }

  function RecordRouting(s: Service, id: RequestId, nodeId: string, op: Operator, at: int): Service {
    s.(routing := Put(PruneRouting(s.routing, at), id, Note(nodeId, op, at)))
  }

  /** The record a settlement opens, when it is routed, not a duplicate and splits cleanly. */
  function Admitted(s: Service, inbound: Inbound, at: int): Option<Rec> {
    var note := Find(s.routing, inbound.requestId);
    if note.None? || inbound.requestId in s.claimed then None
    else
      match Pricing.ComputeSplit(inbound.amount, s.cfg.marginBps)
      case Err(_) => None
      case Ok(split) =>
        Some(Rec(inbound.requestId, note.value.nodeId, note.value.operator,
                 split.inbound, split.payout, split.margin, at))
  }

  /** `newId` is the batch id minted if this settlement fills its operator's accrual. */
  function SettleInbound(s: Service, inbound: Inbound, at: int, newId: BatchId): Service {
    if Find(s.routing, inbound.requestId).None? then s
    else
      var consumed := s.(routing := Remove(s.routing, inbound.requestId));
      if inbound.requestId in s.claimed then consumed
      else
        var claimed := consumed.(claimed := s.claimed + {inbound.requestId});
        match Admitted(s, inbound, at)
        case None => claimed
        case Some(rec) =>
          if rec.payout == 0 then claimed
          else if s.cfg.batchMin > 0 then Accrue(claimed, rec, at, newId)
          else StartJob(claimed, Single(rec.requestId), Job(rec.operator, rec.payout, [rec], None, false))
  }

  function StartJob(s: Service, id: PayoutId, job: Job): Service {
    s.(jobs := s.jobs[id := job])
  }

  /** The operator's accrual, created with an empty record array if there is none. */
  function WithAccrual(s: Service, op: Operator, at: int): (r: Service)
    ensures op in r.accruals
  {
    if op in s.accruals then s
    else s.(heap := s.heap + [[]], accruals := s.accruals[op := Accrual(|s.heap|, 0, at)])
  }

  function PushRecord(s: Service, rec: Rec): Service
    requires rec.operator in s.accruals
  {
    var a := s.accruals[rec.operator];
    if a.arr >= |s.heap| then s
    else
      s.(heap := s.heap[a.arr := s.heap[a.arr] + [rec]],
         accruals := s.accruals[rec.operator := a.(total := a.total + rec.payout)])
  }

  function Accrue(s: Service, rec: Rec, at: int, newId: BatchId): Service {
    var op := rec.operator;
    var pushed := PushRecord(WithAccrual(s, op, at), rec);
    var a := pushed.accruals[op];
    if a.total >= s.cfg.batchMin || |ArrayAt(pushed.heap, a.arr)| >= s.cfg.maxRequests
    then FlushAccrual(pushed, op, newId)
    else Enqueue(pushed, op, PutOpenCmds(op, a.arr, a.firstAt))
  }

  function FlushAccrual(s: Service, op: Operator, newId: BatchId): Service {
    if op !in s.accruals || ArrayAt(s.heap, s.accruals[op].arr) == [] then s
    else
      var a := s.accruals[op];
      var records := ArrayAt(s.heap, a.arr);
      var owed := Sum(records);
      var carved := s.(
        accruals := s.accruals - {op},
        liabilities := s.liabilities[newId := Liability(op, owed, |records|, a.firstAt, 0, None, None)]);
      var row := Row(op, records, a.firstAt, Some(newId));
      StartJob(Enqueue(carved, op, PutBatchCmds(newId, row) + RemoveOpenCmds(op)),
               Batch(newId), Job(op, owed, records, Some(newId), false))
  }

  function FinalizeSettled(s: Service, id: PayoutId): Service
    requires id in s.jobs
  {
    var job := s.jobs[id];
    var done := s.(jobs := s.jobs - {id});
    match job.batchId
    case None => done
    case Some(b) =>
      var op := if job.records == [] then "" else job.records[0].operator;
      Enqueue(done.(liabilities := s.liabilities - {b}), op, RemoveBatchCmds(b))
  }

  function FinalizeFailed(s: Service, id: PayoutId, reason: string, at: int): Service
    requires id in s.jobs
  {
    var job := s.jobs[id];
    var done := s.(jobs := s.jobs - {id});
    if job.batchId.Some? && job.batchId.value in s.liabilities then
      var l := s.liabilities[job.batchId.value];
      var shown := if |reason| > 256 then reason[..256] else reason;
      done.(liabilities := s.liabilities[job.batchId.value :=
        l.(attempts := l.attempts + 1, lastError := Some(shown), lastAttemptAt := Some(at))])
    else done
  }

  // ----- flushing everything, with other turns in between -----

  /** A turn that may run while a flush waits; `Written` ends an operator's oldest queued command. */
  datatype Turn =
    | Routes(id: RequestId, nodeId: string, op: Operator, at: int)
    | Settles(inbound: Inbound, at: int, newId: BatchId)
    | Flushes(op: Operator, newId: BatchId)
    | Succeeds(payout: PayoutId)
    | Fails(payout: PayoutId, reason: string, at: int)
    | Written(op: Operator)

  function AfterTurn(s: Service, turn: Turn): Service {
    match turn
    case Routes(id, nodeId, op, at) => RecordRouting(s, id, nodeId, op, at)
    case Settles(inbound, at, newId) => SettleInbound(s, inbound, at, newId)
    case Flushes(op, newId) => FlushAccrual(s, op, newId)
    case Succeeds(id) => if id in s.jobs then FinalizeSettled(s, id) else s
    case Fails(id, reason, at) => if id in s.jobs then FinalizeFailed(s, id, reason, at) else s
    case Written(op) => if Chain(s.chains, op) == [] then s else s.(chains := s.chains[op := s.chains[op][1..]])
  }

  function AfterTurns(s: Service, turns: seq<Turn>): Service
    decreases |turns|
  {
    if turns == [] then s else AfterTurns(AfterTurn(s, turns[0]), turns[1..])
  }

  /** No payout is under way and no write is queued. */
  predicate Idle(s: Service) {
    s.jobs == map[] && forall op | op in s.chains :: s.chains[op] == []
  }

  /** Waiting takes turns while something is in flight, and ends as soon as nothing is. */
  function Waited(s: Service, turns: seq<Turn>): (r: (Service, seq<Turn>))
    ensures |r.1| <= |turns|
    decreases |turns|
  {
    if Idle(s) || turns == [] then (s, turns) else Waited(AfterTurn(s, turns[0]), turns[1..])
  }

  /** `ops` flushed one after the other, their batches named by `mint` from `first` on. */
  function FlushedInTurn(s: Service, ops: seq<Operator>, mint: nat -> BatchId, first: nat): Service
    decreases |ops|
  {
    if ops == [] then s
    else
      var last := |ops| - 1;
      FlushAccrual(FlushedInTurn(s, ops[..last], mint, first), ops[last], mint(first + last))
  }

  /** `ops` lists every operator that is accruing, once. */
  ghost predicate ListsAccruing(s: Service, ops: seq<Operator>) {
    && |ops| == |s.accruals|
    && (forall op | op in ops :: op in s.accruals)
    && (forall op | op in s.accruals :: op in ops)
  }

  lemma {:induction false} FlushedMore(
      s: Service, done: seq<Operator>, op: Operator, mint: nat -> BatchId, first: nat, next: nat)
    requires next == first + |done|
    ensures FlushedInTurn(s, done + [op], mint, first)
      == FlushAccrual(FlushedInTurn(s, done, mint, first), op, mint(next))
  {
    assert (done + [op])[..|done|] == done;
  }

  /** `left` is what remains of `m` without the operators of `done`. */
  ghost predicate Remaining(m: map<Operator, Accrual>, done: seq<Operator>, left: map<Operator, Accrual>) {
    && |done| + |left| == |m|
    && (forall op | op in m :: op in done || op in left)
    && (forall op | op in done :: op in m)
    && (forall op | op in left :: op in m)
  }

  lemma {:induction false} AllRemaining(m: map<Operator, Accrual>)
    ensures Remaining(m, [], m)
  {}

  lemma {:induction false} RemainingMore(
      m: map<Operator, Accrual>, done: seq<Operator>, left: map<Operator, Accrual>, op: Operator)
    requires Remaining(m, done, left) && op in left
    ensures Remaining(m, done + [op], left - {op})
    ensures |left - {op}| < |left|
  {
    assert left == (left - {op})[op := left[op]];
  }

  lemma {:induction false} NoneRemaining(s: Service, done: seq<Operator>)
    requires Remaining(s.accruals, done, map[])
    ensures ListsAccruing(s, done) && |done| == |s.accruals|
  {}

  /** Some order of the operators that are accruing leads from `s` to `s'`. */
  ghost predicate FlushedOnce(s: Service, mint: nat -> BatchId, first: nat, s': Service) {
    exists ops :: ListsAccruing(s, ops) && s' == FlushedInTurn(s, ops, mint, first)
  }

  /**
   * A flush that takes `rounds` passes, each over everything that is accruing and each followed
   * by a wait; when nothing is accruing it waits once more. `returned` says whether the turns
   * reached its end: without it, `s'` is where the last wait stands when they run out.
   */
  ghost predicate FlushedIn(
      rounds: nat, s: Service, turns: seq<Turn>, mint: nat -> BatchId, first: nat, s': Service, returned: bool)
  {
    if rounds == 0 then
      s.accruals == map[] && s' == Waited(s, turns).0 && (returned <==> Idle(s'))
    else
      && s.accruals != map[]
      && exists flushed ::
           && FlushedOnce(s, mint, first, flushed)
           && var (next, rest) := Waited(flushed, turns);
              if Idle(next) then FlushedIn(rounds - 1, next, rest, mint, first + |s.accruals|, s', returned)
              else s' == next && !returned
  }

  /** However a flush goes on from `now`, it is a flush from `s` that took `rounds` passes more. */
  ghost predicate Reached(
      rounds: nat, s: Service, turns: seq<Turn>, mint: nat -> BatchId, now: Service, rest: seq<Turn>, next: nat)
  {
    forall k: nat, s', r | FlushedIn(k, now, rest, mint, next, s', r) :: FlushedIn(k + rounds, s, turns, mint, 0, s', r)
  }

  lemma {:induction false} ReachedStart(s: Service, turns: seq<Turn>, mint: nat -> BatchId)
    ensures Reached(0, s, turns, mint, s, turns, 0)
  {
    hide FlushedIn;
  }

  /** A pass and a wait that ends. */
  lemma {:induction false} ReachedMore(
      rounds: nat, s: Service, turns: seq<Turn>, mint: nat -> BatchId, now: Service, rest: seq<Turn>, next: nat,
      flushed: Service, now': Service, rest': seq<Turn>)
    requires Reached(rounds, s, turns, mint, now, rest, next)
    requires now.accruals != map[] && FlushedOnce(now, mint, next, flushed)
    requires (now', rest') == Waited(flushed, rest) && Idle(now')
    ensures Reached(rounds + 1, s, turns, mint, now', rest', next + |now.accruals|)
  {
    hide Idle, Waited, FlushedOnce;
    var from := next + |now.accruals|;
    forall k: nat, s', r | FlushedIn(k, now', rest', mint, from, s', r)
      ensures FlushedIn(k + (rounds + 1), s, turns, mint, 0, s', r)
    {
      assert FlushedIn(k + 1, now, rest, mint, next, s', r);
      assert FlushedIn((k + 1) + rounds, s, turns, mint, 0, s', r);
    }
  }

  /** A pass and a wait that does not end. */
  lemma {:induction false} ReachedStuck(
      rounds: nat, s: Service, turns: seq<Turn>, mint: nat -> BatchId, now: Service, rest: seq<Turn>, next: nat,
      flushed: Service, now': Service)
    requires Reached(rounds, s, turns, mint, now, rest, next)
    requires now.accruals != map[] && FlushedOnce(now, mint, next, flushed)
    requires now' == Waited(flushed, rest).0 && !Idle(now')
    ensures FlushedIn(1 + rounds, s, turns, mint, 0, now', false)
  {
    hide Idle, Waited, FlushedOnce;
    assert FlushedIn(1, now, rest, mint, next, now', false);
  }

  /** Nothing is accruing: the last wait. */
  lemma {:induction false} ReachedEnd(
      rounds: nat, s: Service, turns: seq<Turn>, mint: nat -> BatchId, now: Service, rest: seq<Turn>, next: nat)
    requires Reached(rounds, s, turns, mint, now, rest, next) && now.accruals == map[]
    ensures var end := Waited(now, rest).0; FlushedIn(rounds, s, turns, mint, 0, end, Idle(end))
  {
    hide Idle, Waited;
    var end := Waited(now, rest).0;
    assert FlushedIn(0, now, rest, mint, next, end, Idle(end));
    assert FlushedIn(0 + rounds, s, turns, mint, 0, end, Idle(end));
  }

  /** The records whose request no earlier recovered row has taken. */
  function Unhandled(rs: seq<Rec>, handled: set<RequestId>): seq<Rec> {
    if rs == [] then []
    else (if rs[0].requestId in handled then [] else [rs[0]]) + Unhandled(rs[1..], handled)
  }

  datatype Recovery = Recovery(svc: Service, handled: set<RequestId>)

  predicate Resumed(row: Row) {
    row.batchId.Some? && |row.batchId.value| > 0
  }

  function DropRecovered(s: Service, row: Row): Service {
    match row.batchId
    case Some(b) => Enqueue(s.(liabilities := s.liabilities - {b}), row.operator, RemoveBatchCmds(b))
    case None => Enqueue(s, row.operator, RemoveOpenCmds(row.operator))
  }

  /** One recovered row; `newId` is the batch id minted if the row was still open. */
  function RecoverRow(r: Recovery, row: Row, newId: BatchId): Recovery {
    var payable := Unhandled(row.records, r.handled);
    if payable == [] then r.(svc := DropRecovered(r.svc, row))
    else
      var handled := r.handled + Ids(payable);
      var owned := r.svc.(claimed := r.svc.claimed + Ids(payable));
      if Sum(payable) == 0 then Recovery(DropRecovered(owned, row), handled)
      else
        var b := if Resumed(row) then row.batchId.value else newId;
        var listed := owned.(liabilities := owned.liabilities[b :=
          Liability(row.operator, Sum(payable), |payable|, row.firstAt, 0, None, None)]);
        var writes := PutBatchCmds(b, row.(records := payable, batchId := Some(b)))
                      + (if Resumed(row) then [] else RemoveOpenCmds(row.operator));
        Recovery(
          StartJob(Enqueue(listed, row.operator, writes), Batch(b),
                   Job(row.operator, Sum(payable), payable, Some(b), Resumed(row))),
          handled)
  }

  function RecoverRows(r: Recovery, rows: seq<Row>, ids: seq<BatchId>): Recovery
    requires |ids| == |rows|
    decreases |rows|
  {
    if rows == [] then r
    else RecoverRows(RecoverRow(r, rows[0], ids[0]), rows[1..], ids[1..])
  }

  lemma {:induction false} RowsFrom(r: Recovery, rows: seq<Row>, ids: seq<BatchId>, i: nat)
    requires |ids| == |rows| && i <= |rows|
    ensures RecoverRows(r, rows[i..], ids[i..]) ==
      if i == |rows| then r else RecoverRows(RecoverRow(r, rows[i], ids[i]), rows[i + 1..], ids[i + 1..])
  {
    hide RecoverRow;
    if i < |rows| { assert rows[i..][1..] == rows[i + 1..] && ids[i..][1..] == ids[i + 1..]; }
  }

  /** Boot recovery: batches first, then open accruals, never one request twice. */
  function RecoverAccruals(s: Service, open: seq<Row>, batches: seq<Row>, ids: seq<BatchId>): Service
    requires |ids| == |batches| + |open|
  {
    RecoverRows(Recovery(s, {}), batches + open, ids).svc
  }
}
