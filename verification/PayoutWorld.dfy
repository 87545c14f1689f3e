// The payout engine as a step system: one service process after another over one Redis store
// and one chain, with a crash possible between any two commands.
//
// Assumed of the environment, and stated here as the guards of the steps:
//   - a batch transfer does not commit while one of its requests is, or will be, loadable from
//     the open row alone, or once another batch has taken one (`MayCommit`);
//   - the chain commits at most one transfer per payout id (`Commit`);
//   - a payout is reported settled only once its transfer has committed (`PaidOut`);
//   - queued commands run in order and do not fail, short of a crash (`Apply`);
//   - boot recovery reads the store before anything else runs (`Recover`);
//   - minted batch ids are fresh (`Fresh`), and a request id is routed only by the process
//     that minted it (`Route`).
module PayoutWorld {
  import opened Prelude
  import opened AccrualStore
  import opened InsertionMap
  import opened Settlement
  import opened Owing
  import opened WriteChain
  import opened PayoutLine

  datatype Transfer = Transfer(receiver: Operator, amount: nat, records: seq<Rec>)

  /** The present process's running totals. `opening` is what it owed when it booted. */
  datatype Books = Books(opening: nat, accepted: nat, margins: nat, settled: nat)

  /**
   * `table` remembers the row every batch id was minted for, and `recs` every record ever
   * accepted. `earlier` holds the request ids earlier processes routed, `routed` this one's.
   */
  datatype World = World(
    up: bool, svc: Service, store: Store,
    table: map<BatchId, Row>, recs: map<RequestId, Rec>,
    earlier: set<RequestId>, routed: set<RequestId>,
    submitted: map<PayoutId, Transfer>, committed: map<PayoutId, Transfer>,
    books: Books)

  datatype Event =
    | Route(id: RequestId, nodeId: string, op: Operator, at: int)
    | Settle(inbound: Inbound, at: int, newId: BatchId)
    | Flush(op: Operator, newId: BatchId)
    | Apply(op: Operator)
    | Submit(payout: PayoutId)
    | Commit(payout: PayoutId)
    | PaidOut(payout: PayoutId)
    | GaveUp(payout: PayoutId, reason: string, at: int)
    | Crash
    | Recover(cfg: Config, hydrated: set<RequestId>, open: seq<Row>, batches: seq<Row>, ids: seq<BatchId>)

  ghost predicate Fresh(w: World, b: BatchId) {
    b != "" && b !in w.table
  }

  /** Rows of the batches `s` lists and `table` does not know yet. */
  ghost function Minted(s: Service, table: map<BatchId, Row>): map<BatchId, Row> {
    map b | b in s.liabilities && b !in table && Batch(b) in s.jobs ::
      Row(s.liabilities[b].operator, s.jobs[Batch(b)].records, s.liabilities[b].oldestAt, Some(b))
  }

  ghost function WithService(w: World, s: Service): World {
    w.(svc := s, table := w.table + Minted(s, w.table))
  }

  ghost function AfterSettle(w: World, inbound: Inbound, at: int, newId: BatchId): World {
    var w' := WithService(w, SettleInbound(w.svc, inbound, at, newId));
    match Admitted(w.svc, inbound, at)
    case None => w'
    case Some(rec) =>
      w'.(recs := w.recs[rec.requestId := rec],
          books := w.books.(accepted := w.books.accepted + rec.inbound,
                            margins := w.books.margins + rec.margin))
  }

  ghost function TransferOf(job: Job): Transfer {
    Transfer(job.receiver, job.amount, job.records)
  }

  /** Batches that are loadable, listed as owed, or paid. */
  ghost predicate Active(w: World, b: BatchId) {
    b in LoadedBatches(w.store) || b in w.svc.liabilities || Batch(b) in w.committed
  }

  /** The requests of `op` some committed batch transfer has paid. */
  ghost function PaidOf(w: World, op: Operator): set<RequestId> {
    set b, r | b in w.table && Batch(b) in w.committed && w.table[b].operator == op
               && r in w.table[b].records :: r.requestId
  }

  /**
   * When the transfer of batch `b` may commit: at no point of its operator's queue, run from the
   * present store, is a request of the batch loadable from the open row alone; and if the batch
   * is neither listed nor loadable any more, no other batch has taken its requests.
   */
  ghost predicate MayCommit(w: World, b: BatchId) {
    && b in w.table
    && (!Active(w, b) ==>
          forall c | Active(w, c) && c in w.table ::
            Ids(w.table[c].records) !! Ids(w.table[b].records))
    && (var op := w.table[b].operator;
        Safe(Part(w.store, w.table, op), w.svc.heap, Chain(w.svc.chains, op), op,
             PaidOf(w, op) + Ids(w.table[b].records)))
  }

  ghost predicate Init(w: World) {
    && !w.up && w.store == EMPTY_STORE
    && (exists cfg :: w.svc == Boot(cfg, {}))
    && w.table == map[] && w.recs == map[] && w.earlier == {} && w.routed == {}
    && w.submitted == map[] && w.committed == map[]
    && w.books == Books(0, 0, 0, 0)
  }

  ghost predicate Next(w: World, e: Event, w': World) {
    match e
    case Route(id, nodeId, op, at) =>
      && w.up && id !in w.earlier
      && w' == w.(svc := RecordRouting(w.svc, id, nodeId, op, at), routed := w.routed + {id})
    case Settle(inbound, at, newId) =>
      && w.up && Fresh(w, newId)
      && w' == AfterSettle(w, inbound, at, newId)
    case Flush(op, newId) =>
      && w.up && Fresh(w, newId)
      && w' == WithService(w, FlushAccrual(w.svc, op, newId))
    case Apply(op) =>
      var chain := Chain(w.svc.chains, op);
      && w.up && chain != []
      && w' == w.(store := Exec(w.store, w.svc.heap, chain[0]),
                  svc := w.svc.(chains := w.svc.chains[op := chain[1..]]))
    case Submit(id) =>
      && w.up && id in w.svc.jobs
      && w' == w.(submitted := w.submitted[id := TransferOf(w.svc.jobs[id])])
    case Commit(id) =>
      && id in w.submitted && id !in w.committed
      && (id.Batch? ==> MayCommit(w, id.batch))
      && w' == w.(committed := w.committed[id := w.submitted[id]])
    case PaidOut(id) =>
      && w.up && id in w.svc.jobs && id in w.committed
      && w' == w.(svc := FinalizeSettled(w.svc, id),
                  books := w.books.(settled := w.books.settled + w.svc.jobs[id].amount))
    case GaveUp(id, reason, at) =>
      && w.up && id in w.svc.jobs
      && w' == w.(svc := FinalizeFailed(w.svc, id, reason, at))
    case Crash =>
      w' == w.(up := false, svc := Boot(w.svc.cfg, {}), earlier := w.earlier + w.routed, routed := {})
    case Recover(cfg, hydrated, open, batches, ids) =>
      && !w.up && IsLoad(w.store, open, batches)
      && |ids| == |batches| + |open|
      && (forall i | 0 <= i < |ids| :: Fresh(w, ids[i]))
      && (forall i, j | 0 <= i < j < |ids| :: ids[i] != ids[j])
      && hydrated <= w.earlier
      && var s := RecoverAccruals(Boot(cfg, hydrated), open, batches, ids);
         w' == WithService(w, s).(up := true, books := Books(Owed(s), 0, 0, 0))
  }

  // ----- the invariant -----

  /** Records of one operator, each the accepted record of its request, none twice. */
  ghost predicate RecsOk(rs: seq<Rec>, op: Operator, recs: map<RequestId, Rec>) {
    && rs != []
    && Distinct(rs)
    && (forall r | r in rs ::
          r.requestId in recs && recs[r.requestId] == r && r.operator == op && r.payout > 0)
  }

  ghost predicate TableOk(table: map<BatchId, Row>, recs: map<RequestId, Rec>) {
    forall b | b in table ::
      b != "" && table[b].batchId == Some(b) && RecsOk(table[b].records, table[b].operator, recs)
  }

  ghost predicate StoreOk(st: Store, table: map<BatchId, Row>, recs: map<RequestId, Rec>) {
    && BatchesFit(st, table)
    && (forall op | op in st.openKeys ::
          && st.openKeys[op].operator == op && st.openKeys[op].batchId == None
          && RecsOk(st.openKeys[op].records, op, recs))
  }

  /** Every array belongs to one operator, and accruals and queued writes point at their own. */
  ghost predicate HeapOk(s: Service, recs: map<RequestId, Rec>) {
    && (forall a | 0 <= a < |s.heap| ::
          s.heap[a] != [] && RecsOk(s.heap[a], s.heap[a][0].operator, recs))
    && (forall op | op in s.accruals ::
          && s.accruals[op].arr < |s.heap|
          && s.heap[s.accruals[op].arr][0].operator == op
          && s.accruals[op].total == Sum(s.heap[s.accruals[op].arr]))
    && (forall op, c | op in s.chains && c in s.chains[op] && c.SetOpen? ::
          c.arr < |s.heap| && s.heap[c.arr][0].operator == op)
  }

  ghost predicate SeenOk(w: World) {
    && (forall x | x in w.recs :: w.recs[x].requestId == x)
    && w.recs.Keys <= w.earlier + (w.svc.claimed * w.routed)
    && KeySet(w.svc.routing) <= w.routed
    && w.routed !! w.earlier
  }

  ghost predicate DisjointOk(w: World) {
    && (forall b | Active(w, b) :: b in w.table)
    && (forall b, c | Active(w, b) && Active(w, c) && b != c ::
          Ids(w.table[b].records) !! Ids(w.table[c].records))
    && (forall b, op | b in w.table && op in w.svc.accruals ::
          Ids(w.table[b].records) !! Ids(ArrayAt(w.svc.heap, w.svc.accruals[op].arr)))
  }

  ghost predicate IsSingle(w: World, x: RequestId) {
    Single(x) in w.svc.jobs || Single(x) in w.submitted || Single(x) in w.committed
  }

  ghost predicate Batchless(w: World, x: RequestId) {
    && (forall b | b in w.table :: x !in Ids(w.table[b].records))
    && (forall a | 0 <= a < |w.svc.heap| :: x !in Ids(w.svc.heap[a]))
    && (forall op | op in w.store.openKeys :: x !in Ids(w.store.openKeys[op].records))
  }

  ghost predicate SinglesOk(w: World) {
    forall x | IsSingle(w, x) :: x in w.recs && Batchless(w, x)
  }

  /** A payout id stands for one transfer, fixed when the id was made. */
  ghost predicate Known(w: World, id: PayoutId) {
    match id
    case Single(x) => x in w.recs
    case Batch(b) => b in w.table
  }

  ghost function Fixed(w: World, id: PayoutId): Transfer
    requires Known(w, id)
  {
    match id
    case Single(x) => Transfer(w.recs[x].operator, w.recs[x].payout, [w.recs[x]])
    case Batch(b) => Transfer(w.table[b].operator, Sum(w.table[b].records), w.table[b].records)
  }

  ghost predicate TransfersOk(w: World) {
    && (forall id | id in w.svc.jobs ::
          && Known(w, id) && TransferOf(w.svc.jobs[id]) == Fixed(w, id)
          && w.svc.jobs[id].batchId == (if id.Batch? then Some(id.batch) else None)
          && (id.Batch? ==> id.batch in w.svc.liabilities))
    && (forall b | b in w.svc.liabilities ::
          && b in w.table
          && w.svc.liabilities[b].operator == w.table[b].operator
          && w.svc.liabilities[b].owed == Sum(w.table[b].records))
    && (forall id | id in w.submitted :: Known(w, id) && w.submitted[id] == Fixed(w, id))
    && (forall id | id in w.committed :: id in w.submitted && w.committed[id] == w.submitted[id])
  }

  ghost function AccrualOf(s: Service, op: Operator): Option<Accrual> {
    if op in s.accruals then Some(s.accruals[op]) else None
  }

  ghost function DueTo(w: World, op: Operator): map<BatchId, Row> {
    map b | b in w.svc.liabilities && b in w.table && w.table[b].operator == op :: w.table[b]
  }

  ghost predicate LineHolds(w: World, op: Operator) {
    var part := Part(w.store, w.table, op);
    && (w.up ==> LineOk(part, w.svc.heap, Chain(w.svc.chains, op), op, PaidOf(w, op), w.table,
                        AccrualOf(w.svc, op), DueTo(w, op)))
    && (!w.up ==> PaidIsBatched(part, op, PaidOf(w, op)))
  }

  /** Only paid batches are queued for removal, only owed or paid ones for writing. */
  ghost predicate QueueOk(w: World, op: Operator) {
    var chain := Chain(w.svc.chains, op);
    && (forall b | Removes(chain, b) :: Batch(b) in w.committed)
    && (forall c | c in chain && (c.SetBatch? || c.SaddBatch?) ::
          c.b in w.svc.liabilities || Batch(c.b) in w.committed)
  }

  ghost predicate OperatorOk(w: World, op: Operator) {
    LineHolds(w, op) && QueueOk(w, op)
  }

  /** In batching mode, what came in is margin, or paid, or owed. */
  ghost predicate BooksOk(w: World) {
    w.up && w.svc.cfg.batchMin > 0 ==>
      && (forall id | id in w.svc.jobs :: id.Batch?)
      && w.books.opening + w.books.accepted == w.books.margins + w.books.settled + Owed(w.svc)
  }

  ghost predicate Core(w: World) {
    && TableOk(w.table, w.recs)
    && StoreOk(w.store, w.table, w.recs)
    && HeapOk(w.svc, w.recs)
    && SeenOk(w)
    && DisjointOk(w)
    && SinglesOk(w)
    && TransfersOk(w)
    && (!w.up ==> exists cfg :: w.svc == Boot(cfg, {}))
  }

  ghost predicate Inv(w: World) {
    && Core(w)
    && (forall op :: OperatorOk(w, op))
    && BooksOk(w)
  }

  lemma {:induction false} InitInv(w: World)
    requires Init(w)
    ensures Inv(w)
  {
    forall op
      ensures OperatorOk(w, op)
    {
      assert OpenIds(Part(w.store, w.table, op), op) == {};
    }
  }
}
