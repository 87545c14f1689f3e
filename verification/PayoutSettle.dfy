/** An inbound settlement keeps the invariant, whichever way it goes. */
module PayoutSettle {
  import opened Prelude
  import opened AccrualStore
  import opened InsertionMap
  import opened Settlement
  import opened Owing
  import opened WriteChain
  import opened PayoutLine
  import opened PayoutWorld
  import opened PayoutSteps
  import opened PayoutAccrue

  // ----- claiming a request, and opening its record -----

  /** The routing note is consumed; the request may be claimed and its record opened. */
  ghost predicate Claims(w: World, x: RequestId, rec: Option<Rec>, w': World) {
    && x in KeySet(w.svc.routing) && x !in w.svc.claimed
    && (rec.Some? ==> rec.value.requestId == x)
    && w' == w.(
         svc := w.svc.(routing := Remove(w.svc.routing, x), claimed := w.svc.claimed + {x}),
         recs := if rec.Some? then w.recs[x := rec.value] else w.recs,
         books := w'.books)
  }

  lemma {:induction false} NewRequest(w: World, x: RequestId)
    requires SeenOk(w) && x in KeySet(w.svc.routing) && x !in w.svc.claimed
    ensures x !in w.recs
  {}

  lemma {:induction false} UnknownIsBatchless(w: World, x: RequestId)
    requires TableOk(w.table, w.recs) && StoreOk(w.store, w.table, w.recs) && HeapOk(w.svc, w.recs)
    requires x !in w.recs
    ensures Batchless(w, x)
  {}

  lemma {:induction false} ClaimTables(w: World, x: RequestId, rec: Option<Rec>, w': World)
    requires TableOk(w.table, w.recs) && StoreOk(w.store, w.table, w.recs) && HeapOk(w.svc, w.recs)
    requires x !in w.recs && Claims(w, x, rec, w')
    ensures TableOk(w'.table, w'.recs) && StoreOk(w'.store, w'.table, w'.recs)
    ensures HeapOk(w'.svc, w'.recs)
  {
    forall rs, op | RecsOk(rs, op, w.recs)
      ensures RecsOk(rs, op, w'.recs)
    {}
  }

  lemma {:induction false} ClaimSingles(w: World, x: RequestId, rec: Option<Rec>, w': World)
    requires SinglesOk(w) && Claims(w, x, rec, w')
    ensures SinglesOk(w')
  {
    forall y | IsSingle(w', y)
      ensures y in w'.recs && Batchless(w', y)
    {
      assert IsSingle(w, y);
    }
  }

  lemma {:induction false} ClaimTransfers(w: World, x: RequestId, rec: Option<Rec>, w': World)
    requires TransfersOk(w) && x !in w.recs && Claims(w, x, rec, w')
    ensures TransfersOk(w')
  {
    FixedStays(w, w');
  }

  lemma {:induction false} ClaimDisjoint(w: World, x: RequestId, rec: Option<Rec>, w': World)
    requires DisjointOk(w) && Claims(w, x, rec, w')
    ensures DisjointOk(w')
  {
    assert forall b | Active(w', b) :: Active(w, b);
    DisjointCarry(w, w');
  }

  lemma {:induction false} ClaimCore(w: World, x: RequestId, rec: Option<Rec>, w': World)
    requires Core(w) && w.up && Claims(w, x, rec, w')
    ensures Core(w')
    ensures Batchless(w', x) && !IsSingle(w', x)
  {
    NewRequest(w, x);
    UnknownIsBatchless(w, x);
    assert !IsSingle(w, x);
    ClaimTables(w, x, rec, w');
    ClaimSingles(w, x, rec, w');
    ClaimTransfers(w, x, rec, w');
    ClaimDisjoint(w, x, rec, w');
    ClaimSeen(w, x, rec, w');
    assert w'.up && !IsSingle(w', x);
    BatchlessStays(w, x, rec, w');
    hide TableOk, StoreOk, HeapOk, DisjointOk, SinglesOk, TransfersOk, SeenOk, Batchless, IsSingle, Claims;
  }

  lemma {:induction false} BatchlessStays(w: World, x: RequestId, rec: Option<Rec>, w': World)
    requires Batchless(w, x) && Claims(w, x, rec, w')
    ensures Batchless(w', x)
  {}

  lemma {:induction false} ClaimSeen(w: World, x: RequestId, rec: Option<Rec>, w': World)
    requires SeenOk(w) && Claims(w, x, rec, w')
    ensures SeenOk(w')
  {}

  lemma {:induction false} ClaimLines(w: World, x: RequestId, rec: Option<Rec>, w': World)
    requires (forall p :: OperatorOk(w, p)) && Claims(w, x, rec, w')
    ensures forall p :: OperatorOk(w', p)
  {
    hide OperatorOk;
    forall p ensures OperatorOk(w', p) { SameLine(w, w', p); }
  }

  // ----- pushing the record onto its accrual -----

  ghost function PushedArray(s: Service, op: Operator): nat {
    if op in s.accruals then s.accruals[op].arr else |s.heap|
  }

  ghost function PushedHeap(s: Service, rec: Rec): Heap {
    if rec.operator in s.accruals && s.accruals[rec.operator].arr < |s.heap|
    then s.heap[s.accruals[rec.operator].arr := s.heap[s.accruals[rec.operator].arr] + [rec]]
    else s.heap + [[rec]]
  }

  ghost predicate Pushes(w: World, rec: Rec, at: int, w': World) {
    var op := rec.operator;
    var a := if op in w.svc.accruals then w.svc.accruals[op] else Accrual(|w.svc.heap|, 0, at);
    w' == w.(svc := w.svc.(
      heap := PushedHeap(w.svc, rec),
      accruals := w.svc.accruals[op := a.(total := a.total + rec.payout)]))
  }

  lemma {:induction false} PushOnNew(heap: Heap, rec: Rec)
    ensures var started := heap + [[]];
      started[|heap| := started[|heap|] + [rec]] == heap + [[rec]]
  {
    var started := heap + [[]];
    assert started[|heap|] + [rec] == [rec];
  }

  /** The first record of an accrual. */
  lemma {:induction false} PushStarts(s: Service, rec: Rec, at: int)
    requires rec.operator !in s.accruals
    ensures PushRecord(WithAccrual(s, rec.operator, at), rec) == s.(
      heap := s.heap + [[rec]], accruals := s.accruals[rec.operator := Accrual(|s.heap|, rec.payout, at)])
  {
    var op := rec.operator;
    var started := WithAccrual(s, op, at);
    assert started.heap == s.heap + [[]] && started.accruals[op] == Accrual(|s.heap|, 0, at);
    PushOnNew(s.heap, rec);
    hide WithAccrual;
    assert s.accruals[op := Accrual(|s.heap|, 0, at)][op := Accrual(|s.heap|, rec.payout, at)]
      == s.accruals[op := Accrual(|s.heap|, rec.payout, at)];
  }

  lemma {:induction false} PushIsPushes(w: World, rec: Rec, at: int)
    requires HeapOk(w.svc, w.recs)
    ensures Pushes(w, rec, at, w.(svc := PushRecord(WithAccrual(w.svc, rec.operator, at), rec)))
  {
    if rec.operator !in w.svc.accruals {
      PushStarts(w.svc, rec, at);
      hide HeapOk, PushRecord, WithAccrual;
    } else {
      AccrualArray(w, rec.operator);
      hide HeapOk;
    }
  }

  /** A record nothing holds yet, known as the accepted record of its request. */
  ghost predicate Unheld(w: World, rec: Rec) {
    && rec.payout > 0
    && rec.requestId in w.recs && w.recs[rec.requestId] == rec
    && Batchless(w, rec.requestId) && !IsSingle(w, rec.requestId)
  }

  lemma {:induction false} PushedRecords(w: World, rec: Rec, op: Operator)
    requires HeapOk(w.svc, w.recs) && Unheld(w, rec) && op == rec.operator
    ensures PushedArray(w.svc, op) < |PushedHeap(w.svc, rec)|
    ensures var rs := PushedHeap(w.svc, rec)[PushedArray(w.svc, op)];
      RecsOk(rs, op, w.recs) && rs[0].operator == op && rs[|rs| - 1] == rec
      && Ids(rs) == Ids(rs[..|rs| - 1]) + {rec.requestId}
      && Sum(rs) == Sum(rs[..|rs| - 1]) + rec.payout
      && rs[..|rs| - 1] == if op in w.svc.accruals then w.svc.heap[PushedArray(w.svc, op)] else []
  {
    var rs := PushedHeap(w.svc, rec)[PushedArray(w.svc, op)];
    var before := if op in w.svc.accruals then w.svc.heap[PushedArray(w.svc, op)] else [];
    assert rs == before + [rec] && rs[..|rs| - 1] == before;
    if op in w.svc.accruals { AccrualArray(w, op); }
    assert rec.requestId in w.recs && w.recs[rec.requestId] == rec && rec.payout > 0;
    assert rec.requestId !in Ids(before);
    hide HeapOk, Unheld, RecsOk, Batchless, Distinct, Ids, Sum;
    RecsOkAppend(before, rec, op, w.recs);
  }

  lemma {:induction false} RecsOkAppend(before: seq<Rec>, rec: Rec, op: Operator, recs: map<RequestId, Rec>)
    requires before == [] || RecsOk(before, op, recs)
    requires rec.requestId in recs && recs[rec.requestId] == rec && rec.operator == op && rec.payout > 0
    requires rec.requestId !in Ids(before)
    ensures RecsOk(before + [rec], op, recs)
    ensures (before + [rec])[0].operator == op
    ensures Ids(before + [rec]) == Ids(before) + {rec.requestId}
    ensures Sum(before + [rec]) == Sum(before) + rec.payout
  {
    IdsAppend(before, rec);
    SumAppend(before, [rec]);
    forall i | 0 <= i < |before|
      ensures before[i].requestId != rec.requestId
    {
      assert before[i] in before;
    }
    if before != [] { assert before[0] in before; }
  }

  lemma {:induction false} PushHeap(w: World, rec: Rec, at: int, w': World)
    requires HeapOk(w.svc, w.recs) && Unheld(w, rec) && Pushes(w, rec, at, w')
    ensures HeapOk(w'.svc, w'.recs)
  {
    var op := rec.operator;
    PushedRecords(w, rec, op);
    if op in w.svc.accruals { AccrualArray(w, op); }
    forall a | 0 <= a < |w'.svc.heap|
      ensures w'.svc.heap[a] != [] && RecsOk(w'.svc.heap[a], w'.svc.heap[a][0].operator, w'.recs)
      ensures a < |w.svc.heap| ==> w'.svc.heap[a][0].operator == w.svc.heap[a][0].operator
      ensures a < |w.svc.heap| && a != PushedArray(w.svc, op) ==> w'.svc.heap[a] == w.svc.heap[a]
    {
      if a < |w.svc.heap| && a != PushedArray(w.svc, op) {
        assert w'.svc.heap[a] == w.svc.heap[a];
      }
    }
    forall p | p in w'.svc.accruals
      ensures && w'.svc.accruals[p].arr < |w'.svc.heap|
              && w'.svc.heap[w'.svc.accruals[p].arr][0].operator == p
              && w'.svc.accruals[p].total == Sum(w'.svc.heap[w'.svc.accruals[p].arr])
    {
      if p != op {
        AccrualArray(w, p);
        assert w.svc.heap[w.svc.accruals[p].arr][0].operator == p;
      }
    }
  }

  lemma {:induction false} PushDisjoint(w: World, rec: Rec, at: int, w': World)
    requires DisjointOk(w) && HeapOk(w.svc, w.recs) && Unheld(w, rec) && Pushes(w, rec, at, w')
    ensures DisjointOk(w')
  {
    var op := rec.operator;
    PushedRecords(w, rec, op);
    assert forall b | Active(w', b) :: Active(w, b);
    forall b, p | b in w'.table && p in w'.svc.accruals
      ensures Ids(w'.table[b].records) !! Ids(ArrayAt(w'.svc.heap, w'.svc.accruals[p].arr))
    {
      assert rec.requestId !in Ids(w.table[b].records);
      if p == op {
        if op !in w.svc.accruals { assert Ids([]) == {}; }
      } else {
        AccrualArray(w, p);
        if op in w.svc.accruals { AccrualArray(w, op); }
        assert w'.svc.heap[w.svc.accruals[p].arr] == w.svc.heap[w.svc.accruals[p].arr];
      }
    }
  }

  lemma {:induction false} PushSingles(w: World, rec: Rec, at: int, w': World)
    requires SinglesOk(w) && HeapOk(w.svc, w.recs) && Unheld(w, rec) && Pushes(w, rec, at, w')
    ensures SinglesOk(w')
  {
    var op := rec.operator;
    PushedRecords(w, rec, op);
    forall x | IsSingle(w', x)
      ensures x in w'.recs && Batchless(w', x)
    {
      assert IsSingle(w, x) && x != rec.requestId;
      forall a | 0 <= a < |w'.svc.heap|
        ensures x !in Ids(w'.svc.heap[a])
      {
        if a == PushedArray(w.svc, op) {
          if op !in w.svc.accruals { assert Ids([]) == {}; }
        } else {
          assert w'.svc.heap[a] == w.svc.heap[a];
        }
      }
    }
  }

  lemma {:induction false} PushTransfers(w: World, rec: Rec, at: int, w': World)
    requires TransfersOk(w) && Pushes(w, rec, at, w')
    ensures TransfersOk(w')
  {
    FixedStays(w, w');
  }

  lemma {:induction false} PushCore(w: World, rec: Rec, at: int, w': World)
    requires Core(w) && w.up && Unheld(w, rec) && Pushes(w, rec, at, w')
    ensures Core(w')
  {
    PushHeap(w, rec, at, w');
    PushDisjoint(w, rec, at, w');
    PushSingles(w, rec, at, w');
    PushTransfers(w, rec, at, w');
    hide TableOk, StoreOk, HeapOk, DisjointOk, SinglesOk, TransfersOk;
  }

  lemma {:induction false} PushViews(w: World, rec: Rec, at: int, w': World, p: Operator)
    requires Pushes(w, rec, at, w')
    ensures Part(w'.store, w'.table, p) == Part(w.store, w.table, p)
    ensures PaidOf(w', p) == PaidOf(w, p)
    ensures DueTo(w', p) == DueTo(w, p)
    ensures Chain(w'.svc.chains, p) == Chain(w.svc.chains, p)
    ensures p != rec.operator ==> AccrualOf(w'.svc, p) == AccrualOf(w.svc, p)
  {}

  lemma {:induction false} UnheldIsUnpaid(w: World, rec: Rec, op: Operator)
    requires Unheld(w, rec)
    ensures rec.requestId !in PaidOf(w, op)
  {
    forall x | x in PaidOf(w, op)
      ensures x != rec.requestId
    {
      var b, r :| b in w.table && r in w.table[b].records && r.requestId == x;
      assert x in Ids(w.table[b].records);
    }
  }

  lemma {:induction false} PushOwnLine(w: World, rec: Rec, at: int, w': World)
    requires w.up && LineHolds(w, rec.operator) && Unheld(w, rec) && Pushes(w, rec, at, w')
    requires HeapOk(w.svc, w.recs)
    ensures InMidTurn(w', rec.operator)
  {
    var op := rec.operator;
    if op in w.svc.accruals { AccrualArray(w, op); }
    UnheldIsUnpaid(w, rec, op);
    hide HeapOk, Part, PaidOf, DueTo, LineOk, MidTurn, Unheld;
    PushViews(w, rec, at, w', op);
    var part, chain, paid, due := Part(w.store, w.table, op), Chain(w.svc.chains, op), PaidOf(w, op), DueTo(w, op);
    LineToMidTurn(part, w.svc.heap, chain, op, paid, w.table, AccrualOf(w.svc, op), due);
    if op in w.svc.accruals {
      MidTurnPushAt(part, w.svc.heap, chain, op, paid, w.table, w.svc.accruals[op].arr, due, rec);
    } else {
      var started := w.svc.heap + [[]];
      MidTurnPushAt(part, started, chain, op, paid, w.table, |w.svc.heap|, due, rec);
      PushOnNew(w.svc.heap, rec);
    }
  }

  lemma {:induction false} MidTurnPushAt(
      part: Store, heap: Heap, chain: seq<Cmd>, op: Operator, paid: set<RequestId>,
      table: map<BatchId, Row>, arr: nat, due: map<BatchId, Row>, rec: Rec)
    requires MidTurn(part, heap, chain, op, paid, table, arr, due) && arr < |heap|
    requires rec.requestId !in paid
    ensures MidTurn(part, heap[arr := heap[arr] + [rec]], chain, op, paid, table, arr, due)
  {
    MidTurnPush(part, heap, chain, op, paid, table, arr, due, rec);
  }

  /** The arrays another operator's line refers to are the ones they were. */
  lemma {:induction false} PushArrays(w: World, rec: Rec, at: int, w': World, p: Operator)
    requires HeapOk(w.svc, w.recs) && p != rec.operator && Pushes(w, rec, at, w')
    ensures forall c | c in Chain(w.svc.chains, p) && c.SetOpen? ::
              ArrayAt(w.svc.heap, c.arr) == ArrayAt(w'.svc.heap, c.arr)
    ensures p in w.svc.accruals ==>
      ArrayAt(w.svc.heap, w.svc.accruals[p].arr) == ArrayAt(w'.svc.heap, w.svc.accruals[p].arr)
    ensures |w.svc.heap| <= |w'.svc.heap| && w'.up == w.up && w'.table == w.table
  {
    var op := rec.operator;
    if op in w.svc.accruals { AccrualArray(w, op); }
    if p in w.svc.accruals { AccrualArray(w, p); }
    forall c | c in Chain(w.svc.chains, p) && c.SetOpen?
      ensures ArrayAt(w.svc.heap, c.arr) == ArrayAt(w'.svc.heap, c.arr)
    {
      assert p in w.svc.chains && c in w.svc.chains[p];
    }
  }

  lemma {:induction false} PushOtherLine(w: World, rec: Rec, at: int, w': World, p: Operator)
    requires w.up && OperatorOk(w, p) && p != rec.operator && Pushes(w, rec, at, w')
    requires HeapOk(w.svc, w.recs)
    ensures OperatorOk(w', p)
  {
    PushArrays(w, rec, at, w', p);
    hide HeapOk, Part, PaidOf, DueTo, LineOk, Pushes;
    PushViews(w, rec, at, w', p);
    LineUntouched(Part(w.store, w.table, p), w.svc.heap, w'.svc.heap, Chain(w.svc.chains, p), p,
                  PaidOf(w, p), w.table, w.table, AccrualOf(w.svc, p), DueTo(w, p));
  }

  lemma {:induction false} PushOwed(w: World, rec: Rec, at: int, w': World)
    requires Pushes(w, rec, at, w')
    ensures Owed(w'.svc) == Owed(w.svc) + rec.payout
  {
    var op := rec.operator;
    SumTotalsPut(w.svc.accruals, op, w'.svc.accruals[op]);
    if op in w.svc.accruals { SumTotalsAt(w.svc.accruals, op); }
  }

  lemma {:induction false} PushStep(w: World, rec: Rec, at: int, w': World)
    requires Core(w) && w.up && (forall p :: OperatorOk(w, p)) && Unheld(w, rec)
    requires Pushes(w, rec, at, w')
    ensures MidState(w', rec.operator)
    ensures Owed(w'.svc) == Owed(w.svc) + rec.payout
  {
    assert HeapOk(w.svc, w.recs);
    assert OperatorOk(w, rec.operator);
    assert QueueOk(w', rec.operator) by { PushViews(w, rec, at, w', rec.operator); }
    hide OperatorOk, Core, QueueOk;
    PushCore(w, rec, at, w');
    PushOwnLine(w, rec, at, w');
    PushOwed(w, rec, at, w');
    forall p | p != rec.operator ensures OperatorOk(w', p) { PushOtherLine(w, rec, at, w', p); }
  }

  // ----- the accrual stays open -----

  ghost predicate Reopens(w: World, op: Operator, w': World) {
    && op in w.svc.accruals
    && w' == w.(svc := Enqueue(w.svc, op,
         PutOpenCmds(op, w.svc.accruals[op].arr, w.svc.accruals[op].firstAt)))
  }

  lemma {:induction false} ReopenCore(w: World, op: Operator, w': World)
    requires Core(w) && w.up && Reopens(w, op, w')
    ensures Core(w')
  {
    AccrualArray(w, op);
    forall p, c | p in w'.svc.chains && c in w'.svc.chains[p] && c.SetOpen?
      ensures c.arr < |w.svc.heap| && w.svc.heap[c.arr][0].operator == p
    {
      if !(p in w.svc.chains && c in w.svc.chains[p]) { assert p == op && c.arr == ArrayOf(w, op); }
    }
    assert HeapOk(w'.svc, w'.recs);
    ReopenRest(w, op, w');
    hide TableOk, StoreOk, HeapOk, DisjointOk, SinglesOk, TransfersOk;
  }

  lemma {:induction false} ReopenRest(w: World, op: Operator, w': World)
    requires DisjointOk(w) && SinglesOk(w) && TransfersOk(w) && Reopens(w, op, w')
    ensures DisjointOk(w') && SinglesOk(w') && TransfersOk(w')
  {
    assert forall b | Active(w', b) :: Active(w, b);
    DisjointCarry(w, w');
    SinglesCarry(w, w');
    TransfersCarry(w, w');
  }

  lemma {:induction false} ReopenOwnLine(w: World, op: Operator, w': World)
    requires w.up && InMidTurn(w, op) && DisjointOk(w) && Reopens(w, op, w')
    ensures LineHolds(w', op)
  {
    PaidNotAccruing(w, op);
    assert PaidOf(w', op) == PaidOf(w, op) && DueTo(w', op) == DueTo(w, op);
    assert ArrayOf(w, op) < |w.svc.heap|;
    hide LineOk, MidTurn, PaidOf, DueTo, Part, DisjointOk;
    MidTurnPutOpenAt(Part(w.store, w.table, op), w.svc.heap, Chain(w.svc.chains, op), op, PaidOf(w, op),
                     w.table, w.svc.accruals[op], DueTo(w, op));
  }

  lemma {:induction false} MidTurnPutOpenAt(
      part: Store, heap: Heap, chain: seq<Cmd>, op: Operator, paid: set<RequestId>,
      table: map<BatchId, Row>, a: Accrual, due: map<BatchId, Row>)
    requires MidTurn(part, heap, chain, op, paid, table, a.arr, due) && a.arr < |heap|
    requires Ids(heap[a.arr]) !! paid
    ensures LineOk(part, heap, chain + PutOpenCmds(op, a.arr, a.firstAt), op, paid, table, Some(a), due)
  {
    MidTurnPutOpen(part, heap, chain, op, paid, table, a, due);
  }

  lemma {:induction false} ReopenOtherLine(w: World, op: Operator, w': World, p: Operator)
    requires OperatorOk(w, p) && p != op && Reopens(w, op, w')
    ensures OperatorOk(w', p)
  {
    assert PaidOf(w', p) == PaidOf(w, p) && DueTo(w', p) == DueTo(w, p);
    assert Chain(w'.svc.chains, p) == Chain(w.svc.chains, p);
  }

  lemma {:induction false} ReopenQueue(w: World, op: Operator, w': World)
    requires QueueOk(w, op) && Reopens(w, op, w')
    ensures QueueOk(w', op)
  {}

  lemma {:induction false} ReopenStep(w: World, op: Operator, w': World)
    requires MidState(w, op) && Reopens(w, op, w')
    ensures Core(w') && forall p :: OperatorOk(w', p)
  {
    ReopenQueue(w, op, w');
    CoreTransfers(w);
    hide Core, OperatorOk, InMidTurn, QueueOk, LineHolds, DisjointOk, TransfersOk, Reopens;
    ReopenCore(w, op, w');
    forall p
      ensures OperatorOk(w', p)
    {
      if p == op {
        ReopenOwnLine(w, op, w');
        LineAndQueue(w', op);
      } else {
        ReopenOtherLine(w, op, w', p);
      }
    }
  }

  // ----- the payout goes out on its own -----

  ghost predicate PaysAlone(w: World, rec: Rec, w': World) {
    w' == w.(svc := StartJob(w.svc, Single(rec.requestId), Job(rec.operator, rec.payout, [rec], None, false)))
  }

  lemma {:induction false} AloneCore(w: World, rec: Rec, w': World)
    requires Core(w) && w.up && Unheld(w, rec) && PaysAlone(w, rec, w')
    ensures Core(w')
  {
    AloneSingles(w, rec, w');
    AloneTransfers(w, rec, w');
    ClaimedDisjoint(w, w');
    hide TableOk, StoreOk, DisjointOk, SinglesOk, TransfersOk;
  }

  lemma {:induction false} ClaimedDisjoint(w: World, w': World)
    requires DisjointOk(w) && w' == w.(svc := w.svc.(jobs := w'.svc.jobs))
    ensures DisjointOk(w')
  {
    assert forall b | Active(w', b) :: Active(w, b);
    DisjointCarry(w, w');
  }

  lemma {:induction false} AloneSingles(w: World, rec: Rec, w': World)
    requires SinglesOk(w) && Unheld(w, rec) && PaysAlone(w, rec, w')
    ensures SinglesOk(w')
  {
    forall x | IsSingle(w', x)
      ensures x in w'.recs && Batchless(w', x)
    {
      assert x == rec.requestId || IsSingle(w, x);
    }
  }

  lemma {:induction false} AloneTransfers(w: World, rec: Rec, w': World)
    requires TransfersOk(w) && Unheld(w, rec) && PaysAlone(w, rec, w')
    ensures TransfersOk(w')
  {
    FixedStays(w, w');
  }

  // ----- the whole settlement -----

  /** The world once the request is claimed and, if admitted, its record opened. */
  ghost function Claimed(w: World, inbound: Inbound, at: int): World {
    var x := inbound.requestId;
    var rec := Admitted(w.svc, inbound, at);
    w.(svc := w.svc.(routing := Remove(w.svc.routing, x), claimed := w.svc.claimed + {x}),
       recs := if rec.Some? then w.recs[x := rec.value] else w.recs,
       books := if rec.Some?
         then w.books.(accepted := w.books.accepted + rec.value.inbound,
                       margins := w.books.margins + rec.value.margin)
         else w.books)
  }

  lemma {:induction false} AdmittedFacts(s: Service, inbound: Inbound, at: int, rec: Rec)
    requires Admitted(s, inbound, at) == Some(rec)
    ensures rec.requestId == inbound.requestId && rec.inbound == rec.payout + rec.margin
    ensures inbound.requestId in KeySet(s.routing) && inbound.requestId !in s.claimed
  {}

  lemma {:induction false} SettleAdmitted(w: World, inbound: Inbound, at: int, newId: BatchId, rec: Rec)
    requires Admitted(w.svc, inbound, at) == Some(rec)
    ensures AfterSettle(w, inbound, at, newId) ==
      var c := Claimed(w, inbound, at);
      if rec.payout == 0 then WithService(c, c.svc)
      else if w.svc.cfg.batchMin > 0 then WithService(c, Accrue(c.svc, rec, at, newId))
      else WithService(c, StartJob(c.svc, Single(rec.requestId), Job(rec.operator, rec.payout, [rec], None, false)))
  {
    hide Accrue, Minted, Remove, StartJob;
    AdmittedFacts(w.svc, inbound, at, rec);
    assert Claimed(w, inbound, at).table == w.table;
    assert SettleInbound(w.svc, inbound, at, newId) ==
      var c := Claimed(w, inbound, at);
      if rec.payout == 0 then c.svc
      else if w.svc.cfg.batchMin > 0 then Accrue(c.svc, rec, at, newId)
      else StartJob(c.svc, Single(rec.requestId), Job(rec.operator, rec.payout, [rec], None, false));
    hide SettleInbound;
  }

  /** Nothing is admitted: at most the note is consumed and the request claimed. */
  lemma {:induction false} SettleRefused(w: World, inbound: Inbound, at: int, newId: BatchId)
    requires forall b | b in w.svc.liabilities :: b in w.table
    requires Admitted(w.svc, inbound, at) == None
    ensures var s := SettleInbound(w.svc, inbound, at, newId);
      && AfterSettle(w, inbound, at, newId) == w.(svc := s)
      && (s == w.svc
          || s == w.svc.(routing := Remove(w.svc.routing, inbound.requestId))
          || (inbound.requestId in KeySet(w.svc.routing) && inbound.requestId !in w.svc.claimed
              && s == Claimed(w, inbound, at).svc))
  {
    NothingMintedWith(w, SettleInbound(w.svc, inbound, at, newId));
    hide WithService;
  }

  lemma {:induction false} RefusedCore(w: World, inbound: Inbound, at: int, newId: BatchId, w': World)
    requires Core(w) && w.up && w' == AfterSettle(w, inbound, at, newId)
    requires Admitted(w.svc, inbound, at) == None
    ensures Core(w')
    ensures w' == w.(svc := w.svc.(routing := w'.svc.routing, claimed := w'.svc.claimed))
  {
    CoreKnowsBatches(w);
    hide Core, AfterSettle;
    SettleRefused(w, inbound, at, newId);
    hide SettleInbound, BatchesKnown;
    if w'.svc == Claimed(w, inbound, at).svc
       && inbound.requestId in KeySet(w.svc.routing) && inbound.requestId !in w.svc.claimed {
      ClaimCore(w, inbound.requestId, None, w');
    } else {
      ConsumedCore(w, inbound.requestId, w');
    }
  }

  lemma {:induction false} ConsumedCore(w: World, x: RequestId, w': World)
    requires Core(w) && w.up
    requires w' == w || w' == w.(svc := w.svc.(routing := Remove(w.svc.routing, x)))
    ensures Core(w')
  {
    NarrowsCore(w, w');
  }

  lemma {:induction false} RefusedInv(w: World, inbound: Inbound, at: int, newId: BatchId, w': World)
    requires Inv(w) && w.up && w' == AfterSettle(w, inbound, at, newId)
    requires Admitted(w.svc, inbound, at) == None
    ensures Inv(w')
  {
    hide Core, OperatorOk, AfterSettle;
    RefusedCore(w, inbound, at, newId, w');
    forall p ensures OperatorOk(w', p) { SameLine(w, w', p); }
  }

  lemma {:induction false} AccrueStep(c: World, rec: Rec, at: int, newId: BatchId, w': World)
    requires Core(c) && c.up && (forall p :: OperatorOk(c, p)) && Unheld(c, rec) && Fresh(c, newId)
    requires w' == WithService(c, Accrue(c.svc, rec, at, newId))
    ensures Core(w') && w'.up && (forall p :: OperatorOk(w', p))
    ensures Owed(w'.svc) == Owed(c.svc) + rec.payout
    ensures w'.svc.cfg == c.svc.cfg && w'.books == c.books
    ensures forall id | id in w'.svc.jobs :: id in c.svc.jobs || id.Batch?
  {
    assert HeapOk(c.svc, c.recs);
    CoreKnowsBatches(c);
    hide Core, OperatorOk;
    var pushed := c.(svc := PushRecord(WithAccrual(c.svc, rec.operator, at), rec));
    PushIsPushes(c, rec, at);
    PushStep(c, rec, at, pushed);
    var s := Accrue(c.svc, rec, at, newId);
    assert WithService(c, s) == WithService(pushed, s);
    var a := pushed.svc.accruals[rec.operator];
    if a.total >= c.svc.cfg.batchMin || |ArrayAt(pushed.svc.heap, a.arr)| >= c.svc.cfg.maxRequests {
      PromoteStep(pushed, rec.operator, newId, w');
    } else {
      NothingMintedWith(pushed, s);
      ReopenStep(pushed, rec.operator, w');
    }
  }

  lemma {:induction false} AloneStep(c: World, rec: Rec, w': World)
    requires Core(c) && c.up && (forall p :: OperatorOk(c, p)) && Unheld(c, rec)
    requires PaysAlone(c, rec, w')
    ensures Core(w') && forall p :: OperatorOk(w', p)
  {
    hide Core, OperatorOk;
    AloneCore(c, rec, w');
    forall p ensures OperatorOk(w', p) { SameLine(c, w', p); }
  }

  lemma {:induction false} ClaimedStep(w: World, inbound: Inbound, at: int, rec: Rec, c: World)
    requires Core(w) && w.up && (forall p :: OperatorOk(w, p))
    requires Admitted(w.svc, inbound, at) == Some(rec) && c == Claimed(w, inbound, at)
    ensures Core(c) && (forall p :: OperatorOk(c, p))
    ensures rec.payout > 0 ==> Unheld(c, rec)
    ensures c.up && c.table == w.table && c.svc.cfg == w.svc.cfg && c.svc.jobs == w.svc.jobs
    ensures Owed(c.svc) == Owed(w.svc)
    ensures forall b | b in c.svc.liabilities :: b in c.table
    ensures c.books == w.books.(accepted := w.books.accepted + rec.payout + rec.margin,
                                margins := w.books.margins + rec.margin)
  {
    AdmittedFacts(w.svc, inbound, at, rec);
    CoreKnowsBatches(w);
    ClaimedClaims(w, inbound, at, rec, c);
    hide Core, OperatorOk, Admitted, Claimed, Claims, Batchless, IsSingle;
    ClaimCore(w, inbound.requestId, Some(rec), c);
    ClaimLines(w, inbound.requestId, Some(rec), c);
  }

  lemma {:induction false} ClaimedClaims(w: World, inbound: Inbound, at: int, rec: Rec, c: World)
    requires Admitted(w.svc, inbound, at) == Some(rec) && c == Claimed(w, inbound, at)
    ensures Claims(w, inbound.requestId, Some(rec), c)
    ensures c.up == w.up && c.table == w.table && c.svc.cfg == w.svc.cfg && c.svc.jobs == w.svc.jobs
    ensures c.svc.liabilities == w.svc.liabilities && Owed(c.svc) == Owed(w.svc)
    ensures rec.requestId in c.recs && c.recs[rec.requestId] == rec
    ensures c.books == w.books.(accepted := w.books.accepted + rec.payout + rec.margin,
                                margins := w.books.margins + rec.margin)
  {
    AdmittedFacts(w.svc, inbound, at, rec);
    hide Admitted, SumTotals, SumOwed;
  }

  lemma {:induction false} AdmittedStep(w: World, inbound: Inbound, at: int, newId: BatchId, w': World, rec: Rec)
    requires Core(w) && w.up && (forall p :: OperatorOk(w, p))
    requires w' == AfterSettle(w, inbound, at, newId) && Fresh(w, newId)
    requires Admitted(w.svc, inbound, at) == Some(rec)
    ensures Core(w') && w'.up && (forall p :: OperatorOk(w', p))
    ensures w'.svc.cfg == w.svc.cfg
    ensures w'.svc.cfg.batchMin > 0 ==> Owed(w'.svc) == Owed(w.svc) + rec.payout
    ensures w'.svc.cfg.batchMin > 0 ==> forall id | id in w'.svc.jobs :: id in w.svc.jobs || id.Batch?
    ensures w'.books == w.books.(accepted := w.books.accepted + rec.payout + rec.margin,
                                 margins := w.books.margins + rec.margin)
  {
    SettleAdmitted(w, inbound, at, newId, rec);
    var c := Claimed(w, inbound, at);
    hide Core, OperatorOk, AfterSettle, Admitted, Accrue, Claimed, Owed, Unheld;
    ClaimedStep(w, inbound, at, rec, c);
    if rec.payout == 0 {
      NothingMintedWith(c, c.svc);
    } else if w.svc.cfg.batchMin > 0 {
      AccrueStep(c, rec, at, newId, w');
    } else {
      NothingMintedWith(c, StartJob(c.svc, Single(rec.requestId), Job(rec.operator, rec.payout, [rec], None, false)));
      AloneStep(c, rec, w');
    }
  }

  lemma {:induction false} AdmittedInv(w: World, inbound: Inbound, at: int, newId: BatchId, w': World, rec: Rec)
    requires Inv(w) && w.up && w' == AfterSettle(w, inbound, at, newId) && Fresh(w, newId)
    requires Admitted(w.svc, inbound, at) == Some(rec)
    ensures Inv(w')
  {
    hide Core, OperatorOk, AfterSettle, Admitted, Owed;
    AdmittedStep(w, inbound, at, newId, w', rec);
  }

  lemma {:induction false} SettleInv(w: World, inbound: Inbound, at: int, newId: BatchId, w': World)
    requires Inv(w) && Next(w, Settle(inbound, at, newId), w')
    ensures Inv(w')
  {
    hide Inv, AfterSettle;
    match Admitted(w.svc, inbound, at)
    case None => RefusedInv(w, inbound, at, newId, w');
    case Some(rec) => AdmittedInv(w, inbound, at, newId, w', rec);
  }
}
