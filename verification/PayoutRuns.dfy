/** What the running process promises over every run: when it pays, whom, and what it reports. */
module PayoutRuns {
  import opened Prelude
  import opened AccrualStore
  import opened InsertionMap
  import opened Settlement
  import opened SettlementTheorems
  import opened Owing
  import opened WriteChain
  import opened PayoutWorld
  import opened PayoutSteps
  import opened PayoutAccrue
  import opened PayoutTheorems
  import Pricing

  // ----- what each step does to the service -----

  /** The service's accounts are as before: accruals, batches and payouts. */
  ghost predicate SameAccounts(s: Service, s': Service) {
    s'.cfg == s.cfg && s'.accruals == s.accruals && s'.heap == s.heap
    && s'.liabilities == s.liabilities && s'.jobs == s.jobs
  }

  lemma {:induction false} IdleSteps(w: World, e: Event, w': World)
    requires Next(w, e, w') && (e.Route? || e.Apply? || e.Submit? || e.Commit?)
    ensures SameAccounts(w.svc, w'.svc) && w'.table == w.table && w'.recs == w.recs
    ensures w'.svc.claimed == w.svc.claimed
    ensures !e.Route? ==> w'.svc.routing == w.svc.routing
  {
    hide MayCommit, TransferOf, Exec, Chain, PruneRouting, Put;
  }

  lemma {:induction false} StepTurns(w: World, e: Event, w': World)
    requires Next(w, e, w')
    ensures e.Settle? ==>
      && w.up && Fresh(w, e.newId) && w'.svc == SettleInbound(w.svc, e.inbound, e.at, e.newId)
      && w'.table == w.table + Minted(w'.svc, w.table)
    ensures e.Flush? ==>
      && w.up && Fresh(w, e.newId) && w'.svc == FlushAccrual(w.svc, e.op, e.newId)
      && w'.table == w.table + Minted(w'.svc, w.table)
    ensures e.PaidOut? ==>
      e.payout in w.svc.jobs && w'.svc == FinalizeSettled(w.svc, e.payout) && w'.table == w.table
    ensures e.GaveUp? ==>
      && e.payout in w.svc.jobs && w'.svc == FinalizeFailed(w.svc, e.payout, e.reason, e.at)
      && w'.table == w.table
    ensures e.Crash? ==> w'.svc == Boot(w.svc.cfg, {}) && w'.table == w.table
  {
    hide Next, SettleInbound, FlushAccrual, FinalizeSettled, FinalizeFailed, Minted, Fresh;
    match e
    case Settle(inbound, at, newId) => SettleTurn(w, inbound, at, newId, w');
    case Flush(op, newId) => FlushTurn(w, op, newId, w');
    case PaidOut(id) => PaidOutTurn(w, id, w');
    case GaveUp(id, reason, at) => GaveUpTurn(w, id, reason, at, w');
    case Crash => CrashTurn(w, w');
    case _ =>
  }

  lemma {:induction false} SettleTurn(w: World, inbound: Inbound, at: int, newId: BatchId, w': World)
    requires Next(w, Settle(inbound, at, newId), w')
    ensures w.up && Fresh(w, newId) && w'.svc == SettleInbound(w.svc, inbound, at, newId)
    ensures w'.table == w.table + Minted(w'.svc, w.table)
  {
    hide SettleInbound, Minted, Admitted, Fresh;
  }

  lemma {:induction false} FlushTurn(w: World, op: Operator, newId: BatchId, w': World)
    requires Next(w, Flush(op, newId), w')
    ensures w.up && Fresh(w, newId) && w'.svc == FlushAccrual(w.svc, op, newId)
    ensures w'.table == w.table + Minted(w'.svc, w.table)
  {
    hide FlushAccrual, Minted, Fresh;
  }

  lemma {:induction false} PaidOutTurn(w: World, id: PayoutId, w': World)
    requires Next(w, PaidOut(id), w')
    ensures id in w.svc.jobs && w'.svc == FinalizeSettled(w.svc, id) && w'.table == w.table
  {
    hide FinalizeSettled;
  }

  lemma {:induction false} GaveUpTurn(w: World, id: PayoutId, reason: string, at: int, w': World)
    requires Next(w, GaveUp(id, reason, at), w')
    ensures id in w.svc.jobs && w'.svc == FinalizeFailed(w.svc, id, reason, at) && w'.table == w.table
  {
    hide FinalizeFailed;
  }

  lemma {:induction false} CrashTurn(w: World, w': World)
    requires Next(w, Crash, w')
    ensures w'.svc == Boot(w.svc.cfg, {}) && w'.table == w.table
  {}

  lemma {:induction false} OwnArrays(w: World)
    requires Inv(w)
    ensures forall op :: Steady(w.svc, op)
    ensures forall p, q | p in w.svc.accruals && q in w.svc.accruals && p != q ::
      w.svc.accruals[p].arr != w.svc.accruals[q].arr
    ensures forall p, r | p in w.svc.accruals && r in Accrued(w.svc, p) :: r.operator == p
  {
    HeapFacts(w);
    hide Inv, Core, Sum, RecsOk;
    forall p, r | p in w.svc.accruals && r in Accrued(w.svc, p)
      ensures r.operator == p
    {
      RecsOwner(w.svc.heap[w.svc.accruals[p].arr], p, w.recs, r);
    }
  }

  lemma {:induction false} HeapFacts(w: World)
    requires Inv(w)
    ensures HeapOk(w.svc, w.recs)
  {
    hide OperatorOk, BooksOk, HeapOk, TableOk, StoreOk, SeenOk, DisjointOk, SinglesOk, TransfersOk;
  }

  lemma {:induction false} RecsOwner(rs: seq<Rec>, op: Operator, recs: map<RequestId, Rec>, r: Rec)
    requires RecsOk(rs, op, recs) && r in rs
    ensures r.operator == op
  {}

  // ----- an accrual is always short of a payout -----

  /** Less than the minimum, fewer than the cap, and dated by its first record. */
  ghost predicate IsShort(cfg: Config, a: Accrual, rs: seq<Rec>) {
    && rs != [] && Sum(rs) < cfg.batchMin && |rs| < cfg.maxRequests
    && a.total == Sum(rs) && a.firstAt == rs[0].createdAt
  }

  ghost predicate AllShort(s: Service) {
    forall op | op in s.accruals :: IsShort(s.cfg, s.accruals[op], Accrued(s, op))
  }

  lemma {:induction false} OthersArray(s: Service, q: Operator, op: Operator, s': Service)
    requires q in s.accruals && q in s'.accruals && s'.accruals[q] == s.accruals[q] && Steady(s, q)
    requires op in s.accruals ==> s.accruals[op].arr != s.accruals[q].arr
    requires |s'.heap| >= |s.heap|
    requires forall a | 0 <= a < |s.heap| && (op in s.accruals ==> a != s.accruals[op].arr) :: s'.heap[a] == s.heap[a]
    ensures Accrued(s', q) == Accrued(s, q)
  {
    hide Sum;
  }

  lemma {:induction false} AccrueKeepsShort(s: Service, rec: Rec, at: int, newId: BatchId)
    requires AllShort(s) && rec.createdAt == at
    requires forall op :: Steady(s, op)
    requires forall p, q | p in s.accruals && q in s.accruals && p != q :: s.accruals[p].arr != s.accruals[q].arr
    ensures AllShort(Accrue(s, rec, at, newId))
  {
    hide Accrue, Sum, CarvedOff, Steady, IsShort, StillAccruing;
    AccrueCarvesIff(s, rec, at, newId);
    var s', op := Accrue(s, rec, at, newId), rec.operator;
    forall q | q in s'.accruals
      ensures IsShort(s'.cfg, s'.accruals[q], Accrued(s', q))
    {
      if q == op { OwnIsShort(s, rec, at, s'); } else { OthersArray(s, q, op, s'); }
    }
  }

  lemma {:induction false} OwnIsShort(s: Service, rec: Rec, at: int, s': Service)
    requires var op := rec.operator; var all := Accrued(s, op) + [rec];
      && (op in s.accruals ==> IsShort(s.cfg, s.accruals[op], Accrued(s, op)))
      && StillAccruing(s, op, all, if op in s.accruals then s.accruals[op].firstAt else at, s')
      && !Fills(s.cfg, all) && s'.cfg == s.cfg && rec.createdAt == at
    ensures IsShort(s'.cfg, s'.accruals[rec.operator], Accrued(s', rec.operator))
  {
    hide Sum;
  }

  lemma {:induction false} SettleKeepsShort(w: World, inbound: Inbound, at: int, newId: BatchId)
    requires Inv(w) && AllShort(w.svc)
    ensures AllShort(SettleInbound(w.svc, inbound, at, newId))
  {
    hide Inv, Accrue, Sum, SettleInbound, Admitted, Remove;
    SettleCases(w.svc, inbound, at, newId);
    AdmittedIs(w.svc, inbound, at);
    OwnArrays(w);
    var rec, c := Admitted(w.svc, inbound, at), Consumed(w.svc, inbound.requestId);
    assert AllShort(c) by { ShortStays(w.svc, c); }
    if rec.Some? && rec.value.payout > 0 && w.svc.cfg.batchMin > 0 {
      forall op ensures Steady(c, op) { assert Steady(w.svc, op); }
      AccrueKeepsShort(c, rec.value, at, newId);
    } else {
      ShortStays(w.svc, SettleInbound(w.svc, inbound, at, newId));
    }
  }

  /** Losing accruals, or changing nothing about them, keeps the rest short. */
  lemma {:induction false} ShortStays(s: Service, s': Service)
    requires AllShort(s) && s'.cfg == s.cfg && s'.heap == s.heap
    requires forall op | op in s'.accruals :: op in s.accruals && s'.accruals[op] == s.accruals[op]
    ensures AllShort(s')
  {
    forall op | op in s'.accruals
      ensures IsShort(s'.cfg, s'.accruals[op], Accrued(s', op))
    {
      assert IsShort(s.cfg, s.accruals[op], Accrued(s, op));
    }
  }

  lemma {:induction false} DropKeeps(s: Service, row: Row)
    ensures var s' := DropRecovered(s, row);
      && s'.jobs == s.jobs && s'.accruals == s.accruals && s'.routing == s.routing && s'.claimed == s.claimed
      && (forall b | b in s'.liabilities :: b in s.liabilities && s'.liabilities[b] == s.liabilities[b])
      && (forall b | b in s.liabilities :: b in s'.liabilities <==> row.batchId != Some(b))
  {
    hide Chain;
  }

  lemma {:induction false} RowAccruesNothing(r: Recovery, row: Row, newId: BatchId)
    ensures var s' := RecoverRow(r, row, newId).svc; s'.accruals == r.svc.accruals && s'.routing == r.svc.routing
  {
    hide Sum, Unhandled, Ids, Chain, DropRecovered, PutBatchCmds, RemoveOpenCmds;
    DropKeeps(r.svc, row);
    DropKeeps(r.svc.(claimed := r.svc.claimed + Ids(Unhandled(row.records, r.handled))), row);
  }

  lemma {:induction false} RecoveryAccruesNothing(r: Recovery, rows: seq<Row>, ids: seq<BatchId>)
    requires |ids| == |rows|
    ensures RecoverRows(r, rows, ids).svc.accruals == r.svc.accruals
    ensures RecoverRows(r, rows, ids).svc.routing == r.svc.routing
    decreases |rows|
  {
    hide RecoverRow;
    if rows != [] {
      RowAccruesNothing(r, rows[0], ids[0]);
      RecoveryAccruesNothing(RecoverRow(r, rows[0], ids[0]), rows[1..], ids[1..]);
    }
  }

  lemma {:induction false} RecoverSvc(w: World, e: Event, w': World)
    requires Next(w, e, w') && e.Recover?
    ensures |e.ids| == |e.batches| + |e.open|
    ensures w'.svc == RecoverAccruals(Boot(e.cfg, e.hydrated), e.open, e.batches, e.ids)
    ensures w'.table == w.table + Minted(w'.svc, w.table) && IsLoad(w.store, e.open, e.batches)
    ensures forall i | 0 <= i < |e.ids| :: Fresh(w, e.ids[i])
    ensures w'.up && w'.submitted == w.submitted && w'.svc.accruals == map[] && w'.recs == w.recs
  {
    hide RecoverRows, Minted, IsLoad, Fresh, Owed;
    RecoveryAccruesNothing(Recovery(Boot(e.cfg, e.hydrated), {}), e.batches + e.open, e.ids);
  }

  lemma {:induction false} FinalizesKeepAccruals(s: Service, id: PayoutId, reason: string, at: int)
    requires id in s.jobs
    ensures var d := FinalizeSettled(s, id); d.accruals == s.accruals && d.heap == s.heap && d.cfg == s.cfg
    ensures var f := FinalizeFailed(s, id, reason, at); f.accruals == s.accruals && f.heap == s.heap && f.cfg == s.cfg
  {}

  lemma {:induction false} FlushKeepsOthers(s: Service, op: Operator, newId: BatchId)
    ensures var s' := FlushAccrual(s, op, newId);
      && s'.cfg == s.cfg && s'.heap == s.heap && s'.claimed == s.claimed && s'.routing == s.routing
      && forall p | p in s'.accruals :: p in s.accruals && s'.accruals[p] == s.accruals[p]
  {
    hide Sum;
  }

  lemma {:induction false} StepKeepsShort(w: World, e: Event, w': World)
    requires Inv(w) && Next(w, e, w') && AllShort(w.svc)
    ensures AllShort(w'.svc)
  {
    hide Inv, Next, AllShort, SettleInbound, FlushAccrual, FinalizeSettled, FinalizeFailed, Minted, RecoverAccruals;
    StepTurns(w, e, w');
    match e
    case Settle(inbound, at, newId) => SettleKeepsShort(w, inbound, at, newId);
    case Flush(op, newId) =>
      FlushKeepsOthers(w.svc, op, newId);
      ShortStays(w.svc, w'.svc);
    case PaidOut(id) =>
      FinalizesKeepAccruals(w.svc, id, "", 0);
      ShortStays(w.svc, w'.svc);
    case GaveUp(id, reason, at) =>
      FinalizesKeepAccruals(w.svc, id, reason, at);
      ShortStays(w.svc, w'.svc);
    case Crash => NothingIsShort(w'.svc);
    case Recover(_, _, _, _, _) =>
      RecoverSvc(w, e, w');
      NothingIsShort(w'.svc);
    case _ =>
      IdleSteps(w, e, w');
      ShortStays(w.svc, w'.svc);
  }

  lemma {:induction false} NothingIsShort(s: Service)
    requires s.accruals == map[]
    ensures AllShort(s)
  {}

  lemma {:induction false} RunIsShort(ws: seq<World>, es: seq<Event>, i: nat)
    requires IsRun(ws, es) && i < |ws|
    ensures AllShort(ws[i].svc)
  {
    hide Inv, Next, AllShort;
    if i == 0 {
      NothingIsShort(ws[0].svc);
    } else {
      RunIsShort(ws, es, i - 1);
      RunInv(ws, es, i - 1);
      RunStep(ws, es, i - 1);
      StepKeepsShort(ws[i - 1], es[i - 1], ws[i]);
    }
  }

  /**
   * Over every run, what an operator is accruing is less than the minimum that triggers a payout
   * and fewer requests than one batch may have; it has at least one record, all its own. So
   * without batching nothing ever accrues.
   */
  lemma {:induction false} AccrualsStayShort(ws: seq<World>, es: seq<Event>, i: nat, op: Operator)
    requires IsRun(ws, es) && i < |ws| && op in ws[i].svc.accruals
    ensures var s := ws[i].svc; var rs := Accrued(s, op);
      && 0 < |rs| < s.cfg.maxRequests && Sum(rs) < s.cfg.batchMin
      && forall r | r in rs :: r.operator == op
  {
    RunIsShort(ws, es, i);
    RunInv(ws, es, i);
    OwnArrays(ws[i]);
    assert IsShort(ws[i].svc.cfg, ws[i].svc.accruals[op], Accrued(ws[i].svc, op));
    hide Inv;
  }

  // ----- a request that was routed is paid for -----

  /** The step neither routes nor settles `x`, ages no note as old as `since`, and is no crash. */
  ghost predicate Leaves(e: Event, x: RequestId, since: int) {
    match e
    case Route(y, _, _, at) => y != x && at - since < 600000
    case Settle(inbound, _, _) => inbound.requestId != x
    case Crash => false
    case _ => true
  }

  /** `x` is routed by `note` and not claimed. */
  ghost predicate Awaits(w: World, x: RequestId, note: Note) {
    w.up && Find(w.svc.routing, x) == Some(note) && x !in w.svc.claimed
  }

  lemma {:induction false} RoutingKeeps(s: Service, y: RequestId, nodeId: string, op: Operator, at: int,
                                        x: RequestId, note: Note)
    requires Find(s.routing, x) == Some(note) && y != x && at - note.at < 600000
    ensures Find(RecordRouting(s, y, nodeId, op, at).routing, x) == Some(note)
  {
    PruneKeepsLive(s.routing, at, x, note);
    PutElsewhere(PruneRouting(s.routing, at), y, Note(nodeId, op, at), x);
  }

  lemma {:induction false} SettlingKeeps(w: World, inbound: Inbound, at: int, newId: BatchId, x: RequestId, note: Note)
    requires Inv(w) && Find(w.svc.routing, x) == Some(note) && x !in w.svc.claimed && inbound.requestId != x
    ensures var s' := SettleInbound(w.svc, inbound, at, newId);
      Find(s'.routing, x) == Some(note) && x !in s'.claimed
  {
    hide Inv, Accrue, SettleInbound, Admitted, Remove, Find;
    SettleCases(w.svc, inbound, at, newId);
    RemoveElsewhere(w.svc.routing, inbound.requestId, x);
    OwnArrays(w);
    var rec, c := Admitted(w.svc, inbound, at), Consumed(w.svc, inbound.requestId);
    if rec.Some? && rec.value.payout > 0 && w.svc.cfg.batchMin > 0 {
      assert Steady(c, rec.value.operator) by { assert Steady(w.svc, rec.value.operator); }
      AccrueCarvesIff(c, rec.value, at, newId);
    }
  }

  lemma {:induction false} FinalizesKeepNotes(s: Service, id: PayoutId, reason: string, at: int)
    requires id in s.jobs
    ensures var d := FinalizeSettled(s, id); d.routing == s.routing && d.claimed == s.claimed
    ensures var f := FinalizeFailed(s, id, reason, at); f.routing == s.routing && f.claimed == s.claimed
  {}

  lemma {:induction false} StepIsUp(w: World, e: Event, w': World)
    requires Next(w, e, w') && !e.Crash? && w.up
    ensures w'.up && !e.Recover?
  {
    hide SettleInbound, FlushAccrual, FinalizeSettled, FinalizeFailed, Minted, Admitted, MayCommit, IsLoad,
      RecoverAccruals, Owed, Fresh, Exec, Chain, RecordRouting, TransferOf;
  }

  lemma {:induction false} StepAwaits(w: World, e: Event, w': World, x: RequestId, note: Note)
    requires Inv(w) && Next(w, e, w') && Awaits(w, x, note) && Leaves(e, x, note.at)
    ensures Awaits(w', x, note)
  {
    hide Inv, Next, SettleInbound, FlushAccrual, FinalizeSettled, FinalizeFailed, Minted, RecoverAccruals, Find;
    StepIsUp(w, e, w');
    StepTurns(w, e, w');
    match e
    case Route(y, nodeId, op, at) =>
      RouteIs(w, y, nodeId, op, at, w');
      RoutingKeeps(w.svc, y, nodeId, op, at, x, note);
    case Settle(inbound, at, newId) => SettlingKeeps(w, inbound, at, newId, x, note);
    case Flush(op, newId) => FlushKeepsOthers(w.svc, op, newId);
    case PaidOut(id) => FinalizesKeepNotes(w.svc, id, "", 0);
    case GaveUp(id, reason, at) => FinalizesKeepNotes(w.svc, id, reason, at);
    case Apply(_) => IdleSteps(w, e, w');
    case Submit(_) => IdleSteps(w, e, w');
    case Commit(_) => IdleSteps(w, e, w');
  }

  lemma {:induction false} RouteIs(w: World, id: RequestId, nodeId: string, op: Operator, at: int, w': World)
    requires Next(w, Route(id, nodeId, op, at), w')
    ensures w.up && w' == w.(svc := RecordRouting(w.svc, id, nodeId, op, at), routed := w.routed + {id})
  {}

  lemma {:induction false} RoutedAwaits(ws: seq<World>, es: seq<Event>, i: nat, j: nat)
    requires IsRun(ws, es) && i < j < |ws| && es[i].Route? && es[i].id !in ws[i].svc.claimed
    requires forall k | i < k < j :: Leaves(es[k], es[i].id, es[i].at)
    ensures Awaits(ws[j], es[i].id, Note(es[i].nodeId, es[i].op, es[i].at))
    decreases j
  {
    hide Inv, Next, Awaits;
    var e := es[i];
    if j == i + 1 {
      RunStep(ws, es, i);
      RouteIs(ws[i], e.id, e.nodeId, e.op, e.at, ws[j]);
      NoteFound(ws[i], e.id, e.nodeId, e.op, e.at, ws[j]);
    } else {
      RoutedAwaits(ws, es, i, j - 1);
      RunInv(ws, es, j - 1);
      RunStep(ws, es, j - 1);
      StepAwaits(ws[j - 1], es[j - 1], ws[j], e.id, Note(e.nodeId, e.op, e.at));
    }
  }

  lemma {:induction false} NoteFound(w: World, id: RequestId, nodeId: string, op: Operator, at: int, w': World)
    requires w.up && id !in w.svc.claimed
    requires w' == w.(svc := RecordRouting(w.svc, id, nodeId, op, at), routed := w.routed + {id})
    ensures Awaits(w', id, Note(nodeId, op, at))
  {
    hide PruneRouting;
  }

  /**
   * A request this process routed, and settles while no later routing found its note ten minutes
   * old, opens exactly one record if its charge splits: for the node and the operator it was
   * routed to, for the amount that came in, at the payout and margin of the split. Other routings,
   * settlements, flushes, writes and payouts in between do not matter.
   */
  lemma {:induction false} RoutedIsAdmitted(
      ws: seq<World>, es: seq<Event>, i: nat, j: nat, amount: int, split: Pricing.PriceSplit)
    requires IsRun(ws, es) && i < j < |es| && es[i].Route? && es[i].id !in ws[i].svc.claimed
    requires forall k | i < k < j :: Leaves(es[k], es[i].id, es[i].at)
    requires es[j].Settle? && es[j].inbound == Inbound(es[i].id, amount)
    requires Pricing.ComputeSplit(amount, ws[j].svc.cfg.marginBps) == Ok(split)
    ensures var x := es[i].id;
      && x in ws[j + 1].recs && x !in ws[j].recs
      && ws[j + 1].recs == ws[j].recs[
           x := Rec(x, es[i].nodeId, es[i].op, amount, split.payout, split.margin, es[j].at)]
      && x in ws[j + 1].svc.claimed && x !in ws[j].svc.claimed
  {
    hide Inv, Next, Find, Pricing.ComputeSplit, SettleInbound, Accrue, Remove;
    RoutedAwaits(ws, es, i, j);
    RunInv(ws, es, j);
    RunStep(ws, es, j);
    AdmittedIs(ws[j].svc, es[j].inbound, es[j].at);
    hide Admitted;
    AdmittedRecorded(ws[j], es[j].inbound, es[j].at, es[j].newId, ws[j + 1]);
  }

  lemma {:induction false} AdmittedRecorded(w: World, inbound: Inbound, at: int, newId: BatchId, w': World)
    requires Inv(w) && Next(w, Settle(inbound, at, newId), w') && Admitted(w.svc, inbound, at).Some?
    ensures var x := inbound.requestId; var rec := Admitted(w.svc, inbound, at).value;
      w'.recs == w.recs[x := rec] && x !in w.recs && x in w'.svc.claimed && x !in w.svc.claimed
  {
    AdmittedIs(w.svc, inbound, at);
    NewRecord(w, inbound.requestId);
    hide Inv, SettleInbound, Minted, Fresh, Pricing.ComputeSplit, Find;
    SettledClaims(w, inbound, at, newId);
  }

  lemma {:induction false} NewRecord(w: World, x: RequestId)
    requires Inv(w)
    ensures Find(w.svc.routing, x).Some? && x !in w.svc.claimed ==> x !in w.recs
  {
    hide OperatorOk, BooksOk, HeapOk, TableOk, StoreOk, DisjointOk, SinglesOk, TransfersOk, Find;
  }

  lemma {:induction false} SettledClaims(w: World, inbound: Inbound, at: int, newId: BatchId)
    requires Inv(w) && Admitted(w.svc, inbound, at).Some?
    ensures inbound.requestId in SettleInbound(w.svc, inbound, at, newId).claimed
  {
    hide Inv, Find, Remove, Pricing.ComputeSplit, Accrue, SettleInbound, Admitted, Sum;
    AdmittedIs(w.svc, inbound, at);
    OwnArrays(w);
    SettleCases(w.svc, inbound, at, newId);
    var rec, c := Admitted(w.svc, inbound, at).value, Consumed(w.svc, inbound.requestId);
    if rec.payout > 0 && w.svc.cfg.batchMin > 0 {
      assert Steady(c, rec.operator) by { assert Steady(w.svc, rec.operator); }
      AccrueCarvesIff(c, rec, at, newId);
    }
  }

  // ----- new batches and payouts -----

  /** A batch as it is first listed: untried, and counting the records its payout is for. */
  ghost predicate Untried(l: Liability, job: Job) {
    && l.attempts == 0 && l.lastError == None && l.lastAttemptAt == None
    && l.requests == |job.records|
  }

  ghost predicate AddsBatch(s: Service, b: BatchId, s': Service) {
    && b in s'.liabilities && Batch(b) in s'.jobs
    && s'.liabilities == s.liabilities[b := s'.liabilities[b]] && s'.jobs == s.jobs[Batch(b) := s'.jobs[Batch(b)]]
    && Untried(s'.liabilities[b], s'.jobs[Batch(b)]) && !s'.jobs[Batch(b)].checkLandedFirst
  }

  ghost predicate AddsSingle(s: Service, x: RequestId, s': Service) {
    && Single(x) in s'.jobs && !s'.jobs[Single(x)].checkLandedFirst
    && s'.liabilities == s.liabilities && s'.jobs == s.jobs[Single(x) := s'.jobs[Single(x)]]
  }

  /** Batches and payouts are as before, or one is added. */
  ghost predicate Adds(s: Service, b: BatchId, x: RequestId, s': Service) {
    || (s'.liabilities == s.liabilities && s'.jobs == s.jobs)
    || AddsBatch(s, b, s')
    || AddsSingle(s, x, s')
  }

  lemma {:induction false} SettleAdds(w: World, inbound: Inbound, at: int, newId: BatchId)
    requires Inv(w)
    ensures Adds(w.svc, newId, inbound.requestId, SettleInbound(w.svc, inbound, at, newId))
  {
    hide Inv, Accrue, SettleInbound, Admitted, Remove, Sum;
    SettleCases(w.svc, inbound, at, newId);
    OwnArrays(w);
    var rec, c := Admitted(w.svc, inbound, at), Consumed(w.svc, inbound.requestId);
    if rec.Some? && rec.value.payout > 0 && w.svc.cfg.batchMin > 0 {
      assert Steady(c, rec.value.operator) by { assert Steady(w.svc, rec.value.operator); }
      AccrueCarvesIff(c, rec.value, at, newId);
    }
  }

  lemma {:induction false} FlushAdds(s: Service, op: Operator, newId: BatchId)
    ensures var s' := FlushAccrual(s, op, newId);
      AddsBatch(s, newId, s') || (s'.liabilities == s.liabilities && s'.jobs == s.jobs)
    ensures forall x :: Adds(s, newId, x, FlushAccrual(s, op, newId))
  {
    hide Sum;
  }

  lemma {:induction false} MintsOnly(w: World, s': Service, b: BatchId, x: RequestId)
    requires Adds(w.svc, b, x, s') && b !in w.table && forall c | c in w.svc.liabilities :: c in w.table
    ensures var table := w.table + Minted(s', w.table);
      && (forall c | c in w.table :: c in table && table[c] == w.table[c])
      && (forall c | c in table :: c in w.table || c == b)
      && (AddsBatch(w.svc, b, s') ==>
            b in table && table[b] == Row(s'.liabilities[b].operator, s'.jobs[Batch(b)].records,
                                          s'.liabilities[b].oldestAt, Some(b)))
  {}

  // ----- which payouts ask the chain first -----

  /** Exactly the batches of `known` are looked up before they are paid. */
  ghost predicate AsksFirst(s: Service, known: set<BatchId>) {
    forall id | id in s.jobs :: s.jobs[id].checkLandedFirst <==> (id.Batch? && id.batch in known)
  }

  lemma {:induction false} AddsKeepsAsking(s: Service, b: BatchId, x: RequestId, s': Service, known: set<BatchId>)
    requires Adds(s, b, x, s') && AsksFirst(s, known) && b !in known
    ensures AsksFirst(s', known)
  {}

  lemma {:induction false} StepKeepsAsking(w: World, e: Event, w': World, known: set<BatchId>)
    requires Inv(w) && Next(w, e, w') && !e.Crash? && !e.Recover?
    requires AsksFirst(w.svc, known) && known <= w.table.Keys
    ensures AsksFirst(w'.svc, known) && known <= w'.table.Keys
  {
    hide Inv, Next, SettleInbound, FlushAccrual, FinalizeSettled, FinalizeFailed, Minted, AsksFirst, Adds;
    StepTurns(w, e, w');
    match e
    case Settle(inbound, at, newId) =>
      SettleAdds(w, inbound, at, newId);
      AddsKeepsAsking(w.svc, newId, inbound.requestId, w'.svc, known);
    case Flush(op, newId) =>
      FlushAdds(w.svc, op, newId);
      AddsKeepsAsking(w.svc, newId, "", w'.svc, known);
    case PaidOut(id) =>
      FinalizesDropJob(w.svc, id, "", 0);
      FewerAsk(w.svc, w'.svc, id, known);
    case GaveUp(id, reason, at) =>
      FinalizesDropJob(w.svc, id, reason, at);
      FewerAsk(w.svc, w'.svc, id, known);
    case _ =>
      IdleSteps(w, e, w');
      SameAsk(w.svc, w'.svc, known);
  }

  lemma {:induction false} FewerAsk(s: Service, s': Service, id: PayoutId, known: set<BatchId>)
    requires AsksFirst(s, known) && s'.jobs == s.jobs - {id}
    ensures AsksFirst(s', known)
  {}

  lemma {:induction false} SameAsk(s: Service, s': Service, known: set<BatchId>)
    requires AsksFirst(s, known) && s'.jobs == s.jobs
    ensures AsksFirst(s', known)
  {}

  lemma {:induction false} FinalizesDropJob(s: Service, id: PayoutId, reason: string, at: int)
    requires id in s.jobs
    ensures FinalizeSettled(s, id).jobs == s.jobs - {id}
    ensures FinalizeFailed(s, id, reason, at).jobs == s.jobs - {id}
  {}

  /** Every listed batch is untried and claimed, and either newly minted or a stored row's, with its age. */
  ghost predicate FromRows(s: Service, rows: seq<Row>, ids: seq<BatchId>) {
    && (forall id | id in s.jobs :: id.Batch?)
    && forall b | b in s.liabilities ::
         && Batch(b) in s.jobs && Untried(s.liabilities[b], s.jobs[Batch(b)])
         && Ids(s.jobs[Batch(b)].records) <= s.claimed
         && (b in ids || exists row :: row in rows && Stands(row, b, s.liabilities[b].oldestAt))
  }

  ghost predicate Stands(row: Row, b: BatchId, oldestAt: int) {
    Resumed(row) && row.batchId.value == b && row.firstAt == oldestAt
  }

  /** A row is dropped, or listed as a batch of its own age that is looked up if it was resumed. */
  ghost predicate TakesRow(s: Service, row: Row, b: BatchId, s': Service) {
    s.claimed <= s'.claimed
    && ((s'.jobs == s.jobs
         && forall c | c in s'.liabilities :: c in s.liabilities && s'.liabilities[c] == s.liabilities[c])
     || (&& b in s'.liabilities && Batch(b) in s'.jobs
         && s'.liabilities == s.liabilities[b := s'.liabilities[b]]
         && s'.jobs == s.jobs[Batch(b) := s'.jobs[Batch(b)]]
         && Untried(s'.liabilities[b], s'.jobs[Batch(b)]) && Ids(s'.jobs[Batch(b)].records) <= s'.claimed
         && s'.liabilities[b].oldestAt == row.firstAt && (s'.jobs[Batch(b)].checkLandedFirst <==> Resumed(row))))
  }

  lemma {:induction false} RowCases(r: Recovery, row: Row, newId: BatchId)
    ensures TakesRow(r.svc, row, if Resumed(row) then row.batchId.value else newId, RecoverRow(r, row, newId).svc)
  {
    hide Sum, Unhandled, Chain, DropRecovered, PutBatchCmds, RemoveOpenCmds;
    DropKeeps(r.svc, row);
    DropKeeps(r.svc.(claimed := r.svc.claimed + Ids(Unhandled(row.records, r.handled))), row);
  }

  lemma {:induction false} OneRowFrom(
      r: Recovery, row: Row, newId: BatchId, rows: seq<Row>, ids: seq<BatchId>, known: set<BatchId>)
    requires FromRows(r.svc, rows, ids) && AsksFirst(r.svc, known)
    requires row in rows && newId in ids && newId !in known && (Resumed(row) ==> row.batchId.value in known)
    ensures var s' := RecoverRow(r, row, newId).svc; FromRows(s', rows, ids) && AsksFirst(s', known)
  {
    hide RecoverRow, Untried, Ids;
    RowCases(r, row, newId);
    if Resumed(row) { assert Stands(row, row.batchId.value, row.firstAt); }
  }

  lemma {:induction false} RowsFromRows(
      r: Recovery, some: seq<Row>, minted: seq<BatchId>, rows: seq<Row>, ids: seq<BatchId>, known: set<BatchId>)
    requires |minted| == |some| && (forall row | row in some :: row in rows) && (forall b | b in minted :: b in ids)
    requires FromRows(r.svc, rows, ids) && AsksFirst(r.svc, known)
    requires forall b | b in ids :: b !in known
    requires forall row | row in rows && Resumed(row) :: row.batchId.value in known
    ensures var s' := RecoverRows(r, some, minted).svc; FromRows(s', rows, ids) && AsksFirst(s', known)
    decreases |some|
  {
    hide RecoverRow, FromRows, AsksFirst;
    if some != [] {
      OneRowFrom(r, some[0], minted[0], rows, ids, known);
      RowsFromRows(RecoverRow(r, some[0], minted[0]), some[1..], minted[1..], rows, ids, known);
    }
  }

  /** The rows a boot resumes are those of batches minted before it. */
  lemma {:induction false} ResumedIsKnown(w: World, open: seq<Row>, batches: seq<Row>)
    requires Inv(w) && IsLoad(w.store, open, batches)
    ensures forall row | row in batches + open && Resumed(row) ::
      row.batchId.value in w.table && w.table[row.batchId.value] == row
  {
    StoreFacts(w);
    hide Inv, RecsOk;
    forall i | 0 <= i < |open|
      ensures !Resumed(open[i])
    {
      assert LoadedOpen(w.store, open[i].operator) == Some(open[i]);
    }
    forall row | row in batches + open && Resumed(row)
      ensures row.batchId.value in w.table && w.table[row.batchId.value] == row
    {
      var i :| 0 <= i < |batches| && batches[i] == row;
      assert LoadedBatches(w.store)[row.batchId.value] == row;
    }
  }

  lemma {:induction false} StoreFacts(w: World)
    requires Inv(w)
    ensures StoreOk(w.store, w.table, w.recs)
  {
    hide OperatorOk, BooksOk, HeapOk, TableOk, StoreOk, SeenOk, DisjointOk, SinglesOk, TransfersOk;
  }

  lemma {:induction false} RecoveredFromRows(w: World, e: Event, w': World)
    requires Inv(w) && Next(w, e, w') && e.Recover?
    ensures FromRows(w'.svc, e.batches + e.open, e.ids) && AsksFirst(w'.svc, w.table.Keys)
    ensures forall b | b in e.ids :: b !in w.table
    ensures forall row | row in e.batches + e.open && Resumed(row) ::
      row.batchId.value in w.table && w.table[row.batchId.value] == row
  {
    hide Inv, Next, IsLoad, RecoverRows;
    RecoverSvc(w, e, w');
    ResumedIsKnown(w, e.open, e.batches);
    RowsFromRows(Recovery(Boot(e.cfg, e.hydrated), {}), e.batches + e.open, e.ids, e.batches + e.open, e.ids,
                 w.table.Keys);
  }

  /**
   * Since the last boot, at step `r`, a payout asks the chain first exactly if it is for a batch
   * minted before that boot.
   */
  lemma {:induction false} AsksFirstIff(ws: seq<World>, es: seq<Event>, r: nat, i: nat, id: PayoutId)
    requires IsRun(ws, es) && r < i < |ws| && es[r].Recover?
    requires forall k | r < k < i :: !es[k].Crash? && !es[k].Recover?
    requires id in ws[i].svc.jobs
    ensures ws[i].svc.jobs[id].checkLandedFirst <==> (id.Batch? && id.batch in ws[r].table)
  {
    hide Inv, Next;
    SinceBootAsks(ws, es, r, i);
  }

  lemma {:induction false} SinceBootAsks(ws: seq<World>, es: seq<Event>, r: nat, i: nat)
    requires IsRun(ws, es) && r < i < |ws| && es[r].Recover?
    requires forall k | r < k < i :: !es[k].Crash? && !es[k].Recover?
    ensures AsksFirst(ws[i].svc, ws[r].table.Keys) && ws[r].table.Keys <= ws[i].table.Keys
    decreases i
  {
    hide Inv, Next, AsksFirst, Minted, FromRows;
    RunInv(ws, es, i - 1);
    RunStep(ws, es, i - 1);
    if i == r + 1 {
      RecoverSvc(ws[r], es[r], ws[i]);
      RecoveredFromRows(ws[r], es[r], ws[i]);
    } else {
      SinceBootAsks(ws, es, r, i - 1);
      StepKeepsAsking(ws[i - 1], es[i - 1], ws[i], ws[r].table.Keys);
    }
  }

  /** What was submitted before a boot asks the chain first after it, whenever its payout is under way. */
  lemma {:induction false} SubmittedBeforeAsksFirst(ws: seq<World>, es: seq<Event>, r: nat, i: nat, id: PayoutId)
    requires IsRun(ws, es) && r < i < |ws| && es[r].Recover?
    requires forall k | r < k < i :: !es[k].Crash? && !es[k].Recover?
    requires id in ws[r].submitted && id in ws[i].svc.jobs
    ensures ws[i].svc.jobs[id].checkLandedFirst
  {
    hide Inv, Next, Init;
    AsksFirstIff(ws, es, r, i, id);
    RunInv(ws, es, r);
    SubmittedKnown(ws[r], id);
    if id.Single? { SingleNotAgain(ws, es, r, i, id.request); }
  }

  lemma {:induction false} SubmittedKnown(w: World, id: PayoutId)
    requires Inv(w) && id in w.submitted
    ensures Known(w, id)
  {
    hide OperatorOk, BooksOk, HeapOk, TableOk, StoreOk, SeenOk, DisjointOk, SinglesOk;
  }

  lemma {:induction false} RecoverStartsBatches(w: World, e: Event, w': World, x: RequestId)
    requires Inv(w) && Next(w, e, w') && e.Recover?
    ensures Single(x) !in w'.svc.jobs && w'.recs == w.recs
  {
    hide Inv, Next, AsksFirst, Minted;
    RecoveredFromRows(w, e, w');
    RecoverSvc(w, e, w');
  }

  lemma {:induction false} StepStartsNew(w: World, e: Event, w': World, x: RequestId)
    requires Inv(w) && Next(w, e, w') && !e.Crash? && !e.Recover? && x in w.recs && Single(x) !in w.svc.jobs
    ensures x in w'.recs && Single(x) !in w'.svc.jobs
  {
    hide Inv, Next, SettleInbound, FlushAccrual, FinalizeSettled, FinalizeFailed, Minted;
    StepTurns(w, e, w');
    StepKeepsRecs(w, e, w', x);
    match e
    case Settle(inbound, at, newId) =>
      SettleAdds(w, inbound, at, newId);
      if inbound.requestId == x { SettledAgain(w, inbound, at, newId); }
    case Flush(op, newId) => FlushAdds(w.svc, op, newId);
    case PaidOut(id) => FinalizesDropJob(w.svc, id, "", 0);
    case GaveUp(id, reason, at) => FinalizesDropJob(w.svc, id, reason, at);
    case _ => IdleSteps(w, e, w');
  }

  lemma {:induction false} SettledAgain(w: World, inbound: Inbound, at: int, newId: BatchId)
    requires Inv(w) && inbound.requestId in w.recs
    ensures SettleInbound(w.svc, inbound, at, newId).jobs == w.svc.jobs
  {
    NewRecord(w, inbound.requestId);
    SettleCases(w.svc, inbound, at, newId);
    AdmittedIs(w.svc, inbound, at);
    hide Inv, SettleInbound, Admitted, Find, Remove, Accrue, Pricing.ComputeSplit;
  }

  lemma {:induction false} StepKeepsRecs(w: World, e: Event, w': World, x: RequestId)
    requires Next(w, e, w') && x in w.recs
    ensures x in w'.recs
  {
    hide SettleInbound, FlushAccrual, FinalizeSettled, FinalizeFailed, Minted, Admitted, MayCommit, IsLoad,
      RecoverAccruals, Owed, Fresh, Exec, Chain, RecordRouting, TransferOf;
  }

  /** An unbatched payout is started for a request no one has accepted yet. */
  lemma {:induction false} SingleNotAgain(ws: seq<World>, es: seq<Event>, r: nat, i: nat, x: RequestId)
    requires IsRun(ws, es) && r < i < |ws| && es[r].Recover?
    requires forall k | r < k < i :: !es[k].Crash? && !es[k].Recover?
    requires x in ws[r].recs
    ensures Single(x) !in ws[i].svc.jobs && x in ws[i].recs
    decreases i
  {
    hide Inv, Next, Init;
    RunInv(ws, es, i - 1);
    RunStep(ws, es, i - 1);
    if i == r + 1 {
      RecoverStartsBatches(ws[r], es[r], ws[i], x);
    } else {
      SingleNotAgain(ws, es, r, i - 1, x);
      StepStartsNew(ws[i - 1], es[i - 1], ws[i], x);
    }
  }

  // ----- the report -----

  /** What is accruing is reported as such: since its first record's time, due `maxDelayMs` after it. */
  lemma {:induction false} AccrualReported(ws: seq<World>, es: seq<Event>, i: nat, op: Operator, maxDelayMs: int)
    requires IsRun(ws, es) && i < |ws| && op in ws[i].svc.accruals
    ensures var rs := Accrued(ws[i].svc, op);
      rs != [] && PendingAccrual(ws[i].svc, op, maxDelayMs) ==
        Pending(op, Sum(rs), |rs|, rs[0].createdAt, None, Some(rs[0].createdAt + maxDelayMs), 0, None, None)
  {
    RunIsShort(ws, es, i);
    assert IsShort(ws[i].svc.cfg, ws[i].svc.accruals[op], Accrued(ws[i].svc, op));
  }

  /** The failures of batch `b` since the last boot: each with its reason and time. */
  ghost function GiveUps(es: seq<Event>, b: BatchId): seq<(string, int)> {
    if es == [] then [] else AfterEvent(GiveUps(es[..|es| - 1], b), es[|es| - 1], b)
  }

  ghost function AfterEvent(fails: seq<(string, int)>, e: Event, b: BatchId): seq<(string, int)> {
    match e
    case Crash => []
    case Recover(_, _, _, _, _) => []
    case GaveUp(id, reason, at) => if id == Batch(b) then fails + [(reason, at)] else fails
    case _ => fails
  }

  /** `shown` is `reason`, cut after 256 characters. */
  predicate Shows(shown: string, reason: string) {
    shown <= reason && |shown| == if |reason| > 256 then 256 else |reason|
  }

  /** The counts and the last failure of a listed batch. */
  ghost predicate Tells(l: Liability, row: Row, fails: seq<(string, int)>) {
    && l.requests == |row.records| && l.oldestAt == row.firstAt && l.attempts == |fails|
    && (if fails == [] then l.lastError == None && l.lastAttemptAt == None
        else
          var last := fails[|fails| - 1];
          && l.lastError.Some? && Shows(l.lastError.value, last.0) && l.lastAttemptAt == Some(last.1))
  }

  /** A batch is listed with what has become of it; while its payout is under way, nothing has failed. */
  ghost predicate Tracks(w: World, b: BatchId, fails: seq<(string, int)>) {
    && (b !in w.table ==> fails == [])
    && |fails| <= 1
    && (b in w.svc.liabilities ==>
          && b in w.table && Tells(w.svc.liabilities[b], w.table[b], fails)
          && (Batch(b) in w.svc.jobs <==> fails == []))
    && (Batch(b) in w.svc.jobs ==> b in w.svc.liabilities)
  }

  lemma {:induction false} JobsFacts(w: World)
    requires Inv(w)
    ensures forall id | id in w.svc.jobs ::
      && w.svc.jobs[id].batchId == (if id.Batch? then Some(id.batch) else None)
      && (id.Batch? ==>
            id.batch in w.svc.liabilities && id.batch in w.table
            && w.svc.jobs[id].records == w.table[id.batch].records)
    ensures forall b | b in w.svc.liabilities :: b in w.table
  {
    CoreTransfers(w);
    CoreKnowsBatches(w);
    hide Core, OperatorOk, BooksOk;
  }

  lemma {:induction false} AddsTracks(
      w: World, x: RequestId, newId: BatchId, w': World, b: BatchId, fails: seq<(string, int)>)
    requires Inv(w) && Tracks(w, b, fails) && Fresh(w, newId)
    requires Adds(w.svc, newId, x, w'.svc) && w'.table == w.table + Minted(w'.svc, w.table)
    ensures Tracks(w', b, fails)
  {
    hide Inv, Minted, Tells, Untried, Fresh;
    ListedKnown(w, newId);
    MintsOnly(w, w'.svc, newId, x);
    if b == newId && AddsBatch(w.svc, newId, w'.svc) {
      UntriedTells(w'.svc.liabilities[b], w'.svc.jobs[Batch(b)], w'.table[b]);
    }
  }

  lemma {:induction false} ListedKnown(w: World, newId: BatchId)
    requires Inv(w) && Fresh(w, newId)
    ensures newId !in w.table && forall b | b in w.svc.liabilities :: b in w.table
  {
    hide Inv;
    JobsFacts(w);
  }

  lemma {:induction false} UntriedTells(l: Liability, job: Job, row: Row)
    requires Untried(l, job) && row.records == job.records && row.firstAt == l.oldestAt
    ensures Tells(l, row, [])
  {}

  lemma {:induction false} PaidTracks(w: World, id: PayoutId, w': World, b: BatchId, fails: seq<(string, int)>)
    requires Inv(w) && Tracks(w, b, fails) && id in w.svc.jobs
    requires w'.svc == FinalizeSettled(w.svc, id) && w'.table == w.table
    ensures Tracks(w', b, fails)
  {
    hide Inv, Tells, FinalizeSettled;
    TrackFacts(w, id, b);
    SettledPayout(w.svc, id, b);
  }

  /** What the invariant says of one payout and of one batch. */
  lemma {:induction false} TrackFacts(w: World, id: PayoutId, b: BatchId)
    requires Inv(w) && id in w.svc.jobs
    ensures w.svc.jobs[id].batchId == (if id.Batch? then Some(id.batch) else None)
    ensures b in w.svc.liabilities ==> b in w.table
    ensures id == Batch(b) ==> b in w.svc.liabilities
  {
    hide Inv;
    JobsFacts(w);
  }

  lemma {:induction false} SettledPayout(s: Service, id: PayoutId, b: BatchId)
    requires id in s.jobs && s.jobs[id].batchId == if id.Batch? then Some(id.batch) else None
    ensures var s' := FinalizeSettled(s, id);
      && s'.jobs == s.jobs - {id} && (b in s'.liabilities <==> b in s.liabilities && id != Batch(b))
      && (b in s'.liabilities ==> s'.liabilities[b] == s.liabilities[b])
  {}

  lemma {:induction false} GaveUpTracks(
      w: World, id: PayoutId, reason: string, at: int, w': World, b: BatchId, fails: seq<(string, int)>)
    requires Inv(w) && Tracks(w, b, fails) && id in w.svc.jobs
    requires w'.svc == FinalizeFailed(w.svc, id, reason, at) && w'.table == w.table
    ensures Tracks(w', b, AfterEvent(fails, GaveUp(id, reason, at), b))
  {
    hide Inv, Tells, FinalizeFailed;
    TrackFacts(w, id, b);
    if id == Batch(b) {
      OwnFailure(w.svc, b, reason, at, w.table[b]);
      assert [] + [(reason, at)] == [(reason, at)];
    } else {
      OtherFailure(w.svc, id, reason, at, b);
    }
  }

  lemma {:induction false} OwnFailure(s: Service, b: BatchId, reason: string, at: int, row: Row)
    requires Batch(b) in s.jobs && s.jobs[Batch(b)].batchId == Some(b) && b in s.liabilities
    requires Tells(s.liabilities[b], row, [])
    ensures var s' := FinalizeFailed(s, Batch(b), reason, at);
      && s'.jobs == s.jobs - {Batch(b)} && b in s'.liabilities
      && Tells(s'.liabilities[b], row, [(reason, at)])
  {}

  lemma {:induction false} OtherFailure(s: Service, id: PayoutId, reason: string, at: int, b: BatchId)
    requires id in s.jobs && id != Batch(b)
    requires s.jobs[id].batchId == if id.Batch? then Some(id.batch) else None
    ensures var s' := FinalizeFailed(s, id, reason, at);
      && s'.jobs == s.jobs - {id} && (b in s'.liabilities <==> b in s.liabilities)
      && (b in s.liabilities ==> s'.liabilities[b] == s.liabilities[b])
  {}

  lemma {:induction false} MintedAge(w: World, s': Service, b: BatchId)
    requires b in s'.liabilities && Batch(b) in s'.jobs
    ensures var table := w.table + Minted(s', w.table);
      b in table && (if b in w.table then table[b] == w.table[b] else table[b].firstAt == s'.liabilities[b].oldestAt)
  {}

  lemma {:induction false} ListedAge(w: World, e: Event, w': World, b: BatchId)
    requires Inv(w) && Next(w, e, w') && e.Recover? && b in w'.svc.liabilities
    ensures Batch(b) in w'.svc.jobs && Untried(w'.svc.liabilities[b], w'.svc.jobs[Batch(b)])
    ensures Ids(w'.svc.jobs[Batch(b)].records) <= w'.svc.claimed
    ensures b in w'.table && w'.table[b].firstAt == w'.svc.liabilities[b].oldestAt
  {
    hide Inv, Next, IsLoad, AsksFirst, Minted, Untried, Ids;
    RecoverSvc(w, e, w');
    RecoveredFromRows(w, e, w');
    MintedAge(w, w'.svc, b);
    if b in w.table {
      var row :| row in e.batches + e.open && Stands(row, b, w'.svc.liabilities[b].oldestAt);
      assert w.table[b] == row;
    }
  }

  lemma {:induction false} RecoverTracks(w: World, e: Event, w': World, b: BatchId)
    requires Inv(w) && Inv(w') && Next(w, e, w') && e.Recover?
    ensures Tracks(w', b, [])
  {
    JobsFacts(w');
    hide Inv, Next, Untried, Tells;
    if b in w'.svc.liabilities {
      ListedAge(w, e, w', b);
      UntriedTells(w'.svc.liabilities[b], w'.svc.jobs[Batch(b)], w'.table[b]);
    }
  }

  lemma {:induction false} StepTracks(w: World, e: Event, w': World, b: BatchId, fails: seq<(string, int)>)
    requires Inv(w) && Inv(w') && Next(w, e, w') && Tracks(w, b, fails)
    ensures Tracks(w', b, AfterEvent(fails, e, b))
  {
    hide Inv, Next, SettleInbound, FlushAccrual, FinalizeSettled, FinalizeFailed, Minted, Adds, Tells, Fresh;
    StepTurns(w, e, w');
    match e
    case Settle(inbound, at, newId) =>
      SettleAdds(w, inbound, at, newId);
      AddsTracks(w, inbound.requestId, newId, w', b, fails);
    case Flush(op, newId) =>
      FlushAdds(w.svc, op, newId);
      AddsTracks(w, "", newId, w', b, fails);
    case PaidOut(id) => PaidTracks(w, id, w', b, fails);
    case GaveUp(id, reason, at) => GaveUpTracks(w, id, reason, at, w', b, fails);
    case Crash =>
    case Recover(_, _, _, _, _) => RecoverTracks(w, e, w', b);
    case _ => IdleSteps(w, e, w');
  }

  lemma {:induction false} RunTracks(ws: seq<World>, es: seq<Event>, i: nat, b: BatchId)
    requires IsRun(ws, es) && i < |ws|
    ensures Tracks(ws[i], b, GiveUps(es[..i], b))
  {
    hide Inv, Next, Tells;
    if i > 0 {
      RunTracks(ws, es, i - 1, b);
      RunInv(ws, es, i - 1);
      RunInv(ws, es, i);
      RunStep(ws, es, i - 1);
      StepTracks(ws[i - 1], es[i - 1], ws[i], b, GiveUps(es[..i - 1], b));
      assert es[..i][..i - 1] == es[..i - 1];
    }
  }

  /**
   * Over every run, an unpaid batch is reported with the operator, the sum, the number and the age
   * of the records its id was minted for, and with its failures since the boot: none while its
   * payout is under way, and afterwards one, whose reason it shows up to 256 characters.
   */
  lemma {:induction false} BatchReported(ws: seq<World>, es: seq<Event>, i: nat, b: BatchId)
    requires IsRun(ws, es) && i < |ws| && b in ws[i].svc.liabilities
    ensures b in ws[i].table
    ensures var row, fails, p := ws[i].table[b], GiveUps(es[..i], b), PendingBatch(ws[i].svc, b);
      && p.operator == row.operator && p.owed == Sum(row.records) && p.requests == |row.records|
      && p.oldestAt == row.firstAt && p.batchId == Some(b) && p.deadlineAt == None
      && p.attempts == |fails| <= 1 && (Batch(b) in ws[i].svc.jobs <==> fails == [])
      && (if fails == [] then p.lastError == None && p.lastAttemptAt == None
          else p.lastError.Some? && Shows(p.lastError.value, fails[0].0) && p.lastAttemptAt == Some(fails[0].1))
  {
    hide Inv, Sum, Shows, GiveUps;
    RunTracks(ws, es, i, b);
    RunInv(ws, es, i);
    ListedIs(ws[i], b);
  }

  lemma {:induction false} ListedIs(w: World, b: BatchId)
    requires Inv(w) && b in w.svc.liabilities
    ensures b in w.table && w.svc.liabilities[b].operator == w.table[b].operator
    ensures w.svc.liabilities[b].owed == Sum(w.table[b].records)
  {
    CoreTransfers(w);
    hide Core, OperatorOk, BooksOk;
  }

  // ----- what is owed is claimed -----

  ghost predicate AccruedClaimed(s: Service) {
    forall op | op in s.accruals :: Ids(Accrued(s, op)) <= s.claimed
  }

  /** Every request that is listed or accruing is claimed. */
  ghost predicate OwedClaimed(w: World) {
    && (forall b | b in w.svc.liabilities :: b in w.table && Ids(w.table[b].records) <= w.svc.claimed)
    && AccruedClaimed(w.svc)
  }

  lemma {:induction false} SettledClaimsMore(s: Service, inbound: Inbound, at: int, newId: BatchId)
    requires forall op :: Steady(s, op)
    ensures s.claimed <= SettleInbound(s, inbound, at, newId).claimed
  {
    hide Accrue, SettleInbound, Admitted, Remove, Find, Sum;
    SettleCases(s, inbound, at, newId);
    var rec, c := Admitted(s, inbound, at), Consumed(s, inbound.requestId);
    if rec.Some? && rec.value.payout > 0 && s.cfg.batchMin > 0 {
      assert Steady(c, rec.value.operator) by { assert Steady(s, rec.value.operator); }
      AccrueCarvesIff(c, rec.value, at, newId);
    }
  }

  /** Listed batches keep their rows, and the claims only grow. */
  lemma {:induction false} OldStaysClaimed(w: World, w': World, b: BatchId)
    requires OwedClaimed(w) && b in w.svc.liabilities
    requires w.svc.claimed <= w'.svc.claimed && (forall c | c in w.table :: c in w'.table && w'.table[c] == w.table[c])
    ensures b in w'.table && Ids(w'.table[b].records) <= w'.svc.claimed
  {
    hide Ids;
  }

  lemma {:induction false} AccruedStaysClaimed(w: World, w': World)
    requires OwedClaimed(w) && w.svc.claimed <= w'.svc.claimed && w'.svc.heap == w.svc.heap
    requires forall op | op in w'.svc.accruals :: op in w.svc.accruals && w'.svc.accruals[op] == w.svc.accruals[op]
    ensures AccruedClaimed(w'.svc)
  {
    hide Ids;
    forall op | op in w'.svc.accruals
      ensures Ids(Accrued(w'.svc, op)) <= w'.svc.claimed
    {
      assert Accrued(w'.svc, op) == Accrued(w.svc, op);
    }
  }

  lemma {:induction false} FewerOwedClaimed(w: World, w': World)
    requires OwedClaimed(w) && w.svc.claimed <= w'.svc.claimed && w'.svc.heap == w.svc.heap && w'.table == w.table
    requires forall op | op in w'.svc.accruals :: op in w.svc.accruals && w'.svc.accruals[op] == w.svc.accruals[op]
    requires forall b | b in w'.svc.liabilities :: b in w.svc.liabilities
    ensures OwedClaimed(w')
  {
    hide Ids;
    AccruedStaysClaimed(w, w');
    forall b | b in w'.svc.liabilities
      ensures b in w'.table && Ids(w'.table[b].records) <= w'.svc.claimed
    {
      OldStaysClaimed(w, w', b);
    }
  }

  /** The batch just minted, if there is one, is for claimed requests. */
  lemma {:induction false} MoreOwedClaimed(w: World, w': World, b: BatchId, x: RequestId)
    requires Inv(w) && OwedClaimed(w) && b !in w.table && w.svc.claimed <= w'.svc.claimed
    requires Adds(w.svc, b, x, w'.svc) && w'.table == w.table + Minted(w'.svc, w.table)
    requires AddsBatch(w.svc, b, w'.svc) ==> Ids(w'.svc.jobs[Batch(b)].records) <= w'.svc.claimed
    ensures forall c | c in w'.svc.liabilities :: c in w'.table && Ids(w'.table[c].records) <= w'.svc.claimed
  {
    JobsFacts(w);
    hide Inv, Minted, Ids, OwedClaimed;
    MintsOnly(w, w'.svc, b, x);
    forall c | c in w'.svc.liabilities
      ensures c in w'.table && Ids(w'.table[c].records) <= w'.svc.claimed
    {
      if c != b { OldStaysClaimed(w, w', c); }
    }
  }

  lemma {:induction false} CarvedClaims(s: Service, op: Operator, all: seq<Rec>, firstAt: int, b: BatchId, s': Service)
    requires CarvedOff(s, op, all, firstAt, b, s')
    ensures Batch(b) in s'.jobs && s'.jobs[Batch(b)].records == all
  {}

  lemma {:induction false} AccrueClaims(s: Service, rec: Rec, at: int, newId: BatchId)
    requires AccruedClaimed(s) && (forall op :: Steady(s, op)) && rec.requestId in s.claimed
    requires forall p, q | p in s.accruals && q in s.accruals && p != q :: s.accruals[p].arr != s.accruals[q].arr
    requires newId !in s.liabilities
    ensures var s' := Accrue(s, rec, at, newId);
      && s'.claimed == s.claimed && AccruedClaimed(s')
      && (AddsBatch(s, newId, s') ==> Ids(s'.jobs[Batch(newId)].records) <= s'.claimed)
  {
    hide Accrue, Sum, Ids, CarvedOff, AddsBatch, Steady;
    var op, s' := rec.operator, Accrue(s, rec, at, newId);
    var all := Accrued(s, op) + [rec];
    if op !in s.accruals { NoIds(); }
    AppendedIds(Accrued(s, op), rec, s.claimed);
    AccrueCarvesIff(s, rec, at, newId);
    if Fills(s.cfg, all) {
      CarvedClaims(s, op, all, if op in s.accruals then s.accruals[op].firstAt else at, newId, s');
    } else {
      NothingCarved(s, s', newId);
    }
    forall q | q in s'.accruals
      ensures Ids(Accrued(s', q)) <= s'.claimed
    {
      if q != op { OthersArray(s, q, op, s'); }
    }
  }

  lemma {:induction false} NoIds()
    ensures Ids([]) == {}
  {}

  lemma {:induction false} AppendedIds(before: seq<Rec>, rec: Rec, claimed: set<RequestId>)
    requires Ids(before) <= claimed && rec.requestId in claimed
    ensures Ids(before + [rec]) <= claimed
  {
    forall x | x in Ids(before + [rec])
      ensures x in claimed
    {
      var r :| r in before + [rec] && r.requestId == x;
      if r != rec { assert r in before && x in Ids(before); }
    }
  }

  lemma {:induction false} SettleOwedClaimed(w: World, inbound: Inbound, at: int, newId: BatchId, w': World)
    requires Inv(w) && OwedClaimed(w) && newId !in w.table
    requires w'.svc == SettleInbound(w.svc, inbound, at, newId) && w'.table == w.table + Minted(w'.svc, w.table)
    ensures OwedClaimed(w')
  {
    hide Inv, Accrue, SettleInbound, Admitted, Remove, Find, Sum, Ids, Minted, AddsBatch, Steady;
    OwnArrays(w);
    JobsFacts(w);
    SettleAdds(w, inbound, at, newId);
    SettledClaimsMore(w.svc, inbound, at, newId);
    SettledAccrued(w.svc, inbound, at, newId);
    MoreOwedClaimed(w, w', newId, inbound.requestId);
  }

  lemma {:induction false} SettledAccrued(s: Service, inbound: Inbound, at: int, newId: BatchId)
    requires AccruedClaimed(s) && (forall op :: Steady(s, op)) && newId !in s.liabilities
    requires forall p, q | p in s.accruals && q in s.accruals && p != q :: s.accruals[p].arr != s.accruals[q].arr
    ensures var s' := SettleInbound(s, inbound, at, newId);
      AccruedClaimed(s') && (AddsBatch(s, newId, s') ==> Ids(s'.jobs[Batch(newId)].records) <= s'.claimed)
  {
    hide Accrue, SettleInbound, Admitted, Remove, Find, Sum, Ids, AddsBatch, Pricing.ComputeSplit;
    SettleCases(s, inbound, at, newId);
    AdmittedIs(s, inbound, at);
    var rec, c, s' := Admitted(s, inbound, at), Consumed(s, inbound.requestId), SettleInbound(s, inbound, at, newId);
    SameAccrued(s, c);
    if rec.Some? && rec.value.payout > 0 && s.cfg.batchMin > 0 {
      forall op ensures Steady(c, op) { assert Steady(s, op); }
      AccrueClaims(c, rec.value, at, newId);
      AddsAlike(s, c, newId, s');
    } else {
      SameAccrued(s, s');
      NothingCarved(s, s', newId);
    }
  }

  lemma {:induction false} AddsAlike(s: Service, c: Service, b: BatchId, s': Service)
    requires c.liabilities == s.liabilities && c.jobs == s.jobs
    ensures AddsBatch(s, b, s') <==> AddsBatch(c, b, s')
  {}

  lemma {:induction false} SameAccrued(s: Service, s': Service)
    requires AccruedClaimed(s) && s.claimed <= s'.claimed && s'.accruals == s.accruals && s'.heap == s.heap
    ensures AccruedClaimed(s')
  {
    hide Ids;
    forall op | op in s'.accruals
      ensures Ids(Accrued(s', op)) <= s'.claimed
    {
      assert Accrued(s', op) == Accrued(s, op);
    }
  }

  lemma {:induction false} NothingCarved(s: Service, s': Service, b: BatchId)
    requires s'.liabilities == s.liabilities && b !in s.liabilities
    ensures !AddsBatch(s, b, s')
  {}

  lemma {:induction false} FlushOwedClaimed(w: World, op: Operator, newId: BatchId, w': World)
    requires Inv(w) && OwedClaimed(w) && newId !in w.table
    requires w'.svc == FlushAccrual(w.svc, op, newId) && w'.table == w.table + Minted(w'.svc, w.table)
    ensures OwedClaimed(w')
  {
    FlushAdds(w.svc, op, newId);
    FlushKeepsOthers(w.svc, op, newId);
    FlushedRecords(w.svc, op, newId);
    JobsFacts(w);
    hide Inv, FlushAccrual, Minted, Ids;
    AccruedStaysClaimed(w, w');
    MoreOwedClaimed(w, w', newId, "");
  }

  lemma {:induction false} FlushedRecords(s: Service, op: Operator, newId: BatchId)
    ensures var s' := FlushAccrual(s, op, newId);
      s' != s ==> op in s.accruals && Batch(newId) in s'.jobs && s'.jobs[Batch(newId)].records == Accrued(s, op)
  {
    hide Sum;
  }

  lemma {:induction false} RecoverOwedClaimed(w: World, e: Event, w': World)
    requires Inv(w) && Inv(w') && Next(w, e, w') && e.Recover?
    ensures OwedClaimed(w')
  {
    hide Inv, Next, Ids, Untried, Minted;
    RecoverSvc(w, e, w');
    JobsFacts(w');
    forall b | b in w'.svc.liabilities
      ensures b in w'.table && Ids(w'.table[b].records) <= w'.svc.claimed
    {
      ListedAge(w, e, w', b);
    }
  }

  lemma {:induction false} FinalizesKeepBatches(s: Service, id: PayoutId, reason: string, at: int)
    requires id in s.jobs
    ensures forall b | b in FinalizeSettled(s, id).liabilities :: b in s.liabilities
    ensures forall b | b in FinalizeFailed(s, id, reason, at).liabilities :: b in s.liabilities
  {}

  lemma {:induction false} StepOwedClaimed(w: World, e: Event, w': World)
    requires Inv(w) && Inv(w') && Next(w, e, w') && OwedClaimed(w)
    ensures OwedClaimed(w')
  {
    hide Inv, Next, SettleInbound, FlushAccrual, FinalizeSettled, FinalizeFailed, Minted, OwedClaimed, RecoverAccruals;
    StepTurns(w, e, w');
    match e
    case Settle(inbound, at, newId) => SettleOwedClaimed(w, inbound, at, newId, w');
    case Flush(op, newId) => FlushOwedClaimed(w, op, newId, w');
    case PaidOut(id) =>
      FinalizesKeepAccruals(w.svc, id, "", 0);
      FinalizesKeepNotes(w.svc, id, "", 0);
      FinalizesKeepBatches(w.svc, id, "", 0);
      FewerOwedClaimed(w, w');
    case GaveUp(id, reason, at) =>
      FinalizesKeepAccruals(w.svc, id, reason, at);
      FinalizesKeepNotes(w.svc, id, reason, at);
      FinalizesKeepBatches(w.svc, id, reason, at);
      FewerOwedClaimed(w, w');
    case Crash => NothingOwedClaimed(w');
    case Recover(_, _, _, _, _) => RecoverOwedClaimed(w, e, w');
    case _ =>
      IdleSteps(w, e, w');
      FewerOwedClaimed(w, w');
  }

  lemma {:induction false} NothingOwedClaimed(w: World)
    requires w.svc.liabilities == map[] && w.svc.accruals == map[]
    ensures OwedClaimed(w)
  {}

  lemma {:induction false} RunOwedClaimed(ws: seq<World>, es: seq<Event>, i: nat)
    requires IsRun(ws, es) && i < |ws|
    ensures OwedClaimed(ws[i])
  {
    hide Inv, Next, OwedClaimed;
    if i == 0 {
      NothingOwedClaimed(ws[0]);
    } else {
      RunOwedClaimed(ws, es, i - 1);
      RunInv(ws, es, i - 1);
      RunInv(ws, es, i);
      RunStep(ws, es, i - 1);
      StepOwedClaimed(ws[i - 1], es[i - 1], ws[i]);
    }
  }

  /**
   * Over every run, boots included, a request that is accruing or in an unpaid batch is claimed:
   * settling it again, for whatever amount, admits nothing.
   */
  lemma {:induction false} OwedIsClaimed(ws: seq<World>, es: seq<Event>, i: nat, x: RequestId, amount: int, at: int)
    requires IsRun(ws, es) && i < |ws|
    requires (exists b :: b in ws[i].svc.liabilities && b in ws[i].table && x in Ids(ws[i].table[b].records))
      || (exists op :: op in ws[i].svc.accruals && x in Ids(Accrued(ws[i].svc, op)))
    ensures x in ws[i].svc.claimed && Admitted(ws[i].svc, Inbound(x, amount), at) == None
  {
    RunOwedClaimed(ws, es, i);
    AdmittedIs(ws[i].svc, Inbound(x, amount), at);
    hide Ids, Admitted, Pricing.ComputeSplit;
  }
}
