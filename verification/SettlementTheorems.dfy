/** What single turns promise, in terms of the records and the notes they handle. */
module SettlementTheorems {
  import opened Prelude
  import opened AccrualStore
  import opened InsertionMap
  import opened Settlement
  import Pricing

  // ----- routing notes -----

  predicate Expired(note: Note, at: int) {
    at - note.at >= 600000
  }

  /** Pruning drops the longest run of expired notes at the head, and nothing else. */
  lemma {:induction false} PruneDrops(routing: seq<(string, Note)>, at: int) returns (i: nat)
    ensures i <= |routing| && PruneRouting(routing, at) == routing[i..]
    ensures forall k | 0 <= k < i :: Expired(routing[k].1, at)
    ensures i < |routing| ==> !Expired(routing[i].1, at)
  {
    i := 0;
    if routing != [] && Expired(routing[0].1, at) {
      var j := PruneDrops(routing[1..], at);
      i := j + 1;
      assert routing[1..][j..] == routing[i..];
      assert forall k | 0 < k < i :: routing[1..][k - 1] == routing[k];
    }
  }

  /** A note that is not expired is found as before. */
  lemma {:induction false} PruneKeepsLive(routing: seq<(string, Note)>, at: int, id: RequestId, note: Note)
    requires Find(routing, id) == Some(note) && !Expired(note, at)
    ensures Find(PruneRouting(routing, at), id) == Some(note)
  {
    if Expired(routing[0].1, at) { PruneKeepsLive(routing[1..], at, id, note); }
  }

  lemma {:induction false} PruneOnlyDrops(routing: seq<(string, Note)>, at: int, id: RequestId)
    requires Unique(routing)
    ensures Unique(PruneRouting(routing, at))
    ensures Find(PruneRouting(routing, at), id) in {None, Find(routing, id)}
  {
    if routing != [] && Expired(routing[0].1, at) { PruneOnlyDrops(routing[1..], at, id); }
  }

  /**
   * After a node is chosen for `id`, its note is found. The note of any other request is found
   * unchanged while it is younger than ten minutes, and after that is unchanged or gone; nothing
   * but the notes has changed.
   */
  lemma {:induction false} RoutingRecorded(s: Service, id: RequestId, nodeId: string, op: Operator, at: int)
    requires Unique(s.routing)
    ensures var s' := RecordRouting(s, id, nodeId, op, at);
      && s' == s.(routing := s'.routing) && Unique(s'.routing)
      && Find(s'.routing, id) == Some(Note(nodeId, op, at))
      && forall x | x != id ::
           && Find(s'.routing, x) in {None, Find(s.routing, x)}
           && (Find(s.routing, x).Some? && at - Find(s.routing, x).value.at < 600000 ==>
                 Find(s'.routing, x) == Find(s.routing, x))
  {
    PruneOnlyDrops(s.routing, at, id);
    var pruned := PruneRouting(s.routing, at);
    hide PruneRouting, Put, Find, Unique;
    forall x | x != id
      ensures Find(Put(pruned, id, Note(nodeId, op, at)), x) in {None, Find(s.routing, x)}
      ensures Find(s.routing, x).Some? && at - Find(s.routing, x).value.at < 600000 ==>
        Find(Put(pruned, id, Note(nodeId, op, at)), x) == Find(s.routing, x)
    {
      PutElsewhere(pruned, id, Note(nodeId, op, at), x);
      PruneOnlyDrops(s.routing, at, x);
      if Find(s.routing, x).Some? && !Expired(Find(s.routing, x).value, at) {
        PruneKeepsLive(s.routing, at, x, Find(s.routing, x).value);
      }
    }
  }

  /** Notes stand in the order of their times. */
  predicate InTimeOrder(routing: seq<(string, Note)>) {
    forall i, j | 0 <= i < j < |routing| :: routing[i].1.at <= routing[j].1.at
  }

  /** With the notes in time order every expired one is gone, and a new note last keeps them so. */
  lemma {:induction false} ExpiredGone(s: Service, id: RequestId, nodeId: string, op: Operator, at: int)
    requires InTimeOrder(s.routing) && id !in KeySet(s.routing)
    requires forall i | 0 <= i < |s.routing| :: s.routing[i].1.at <= at
    ensures var r := RecordRouting(s, id, nodeId, op, at).routing;
      InTimeOrder(r) && forall i | 0 <= i < |r| :: !Expired(r[i].1, at)
  {
    hide PruneRouting, Put, InTimeOrder, Find;
    PrunedIsLive(s.routing, at);
    PruneDropsKeys(s.routing, at);
    var pruned := PruneRouting(s.routing, at);
    PutAbsent(pruned, id, Note(nodeId, op, at));
    LastInOrder(pruned, (id, Note(nodeId, op, at)));
  }

  lemma {:induction false} PruneDropsKeys(routing: seq<(string, Note)>, at: int)
    ensures KeySet(PruneRouting(routing, at)) <= KeySet(routing)
  {}

  lemma {:induction false} LastInOrder(routing: seq<(string, Note)>, e: (string, Note))
    requires InTimeOrder(routing) && forall i | 0 <= i < |routing| :: routing[i].1.at <= e.1.at
    ensures InTimeOrder(routing + [e])
  {}

  lemma {:induction false} PrunedIsLive(routing: seq<(string, Note)>, at: int)
    requires InTimeOrder(routing) && forall i | 0 <= i < |routing| :: routing[i].1.at <= at
    ensures var r := PruneRouting(routing, at);
      InTimeOrder(r) && forall i | 0 <= i < |r| :: r[i].1.at <= at && !Expired(r[i].1, at)
  {
    var i := PruneDrops(routing, at);
    var r := PruneRouting(routing, at);
    hide PruneRouting;
    assert forall k | 0 <= k < |r| :: r[k] == routing[i + k];
    if i < |routing| { assert forall k | i <= k < |routing| :: routing[i].1.at <= routing[k].1.at; }
  }

  // ----- when an accrual fills -----

  /** What `op` is owed in one accrual so far; nothing if it has none. */
  function Accrued(s: Service, op: Operator): seq<Rec> {
    if op in s.accruals then ArrayAt(s.heap, s.accruals[op].arr) else []
  }

  /** The accrual of `op`, if there is one, has an array with something in it, and its sum as total. */
  predicate Steady(s: Service, op: Operator) {
    op in s.accruals ==>
      && s.accruals[op].arr < |s.heap| && Accrued(s, op) != []
      && s.accruals[op].total == Sum(Accrued(s, op))
  }

  /** The records are worth a payout, or as many as one may have. */
  predicate Fills(cfg: Config, rs: seq<Rec>) {
    Sum(rs) >= cfg.batchMin || |rs| >= cfg.maxRequests
  }

  /** `all` is owed by one listed batch, whose row is queued before the open row is removed. */
  ghost predicate CarvedOff(s: Service, op: Operator, all: seq<Rec>, firstAt: int, newId: BatchId, s': Service) {
    && op !in s'.accruals
    && s'.liabilities == s.liabilities[newId := Liability(op, Sum(all), |all|, firstAt, 0, None, None)]
    && s'.jobs == s.jobs[Batch(newId) := Job(op, Sum(all), all, Some(newId), false)]
    && Chain(s'.chains, op) == Chain(s.chains, op) + [
         SetBatch(newId, Row(op, all, firstAt, Some(newId))), SaddBatch(newId), DelOpen(op), SremOpen(op)]
  }

  /** `all` is what `op` is accruing, under its first time, with its open row queued. */
  ghost predicate StillAccruing(s: Service, op: Operator, all: seq<Rec>, firstAt: int, s': Service) {
    && op in s'.accruals && Accrued(s', op) == all
    && s'.accruals[op] == Accrual(s'.accruals[op].arr, Sum(all), firstAt)
    && s'.liabilities == s.liabilities && s'.jobs == s.jobs
    && Chain(s'.chains, op) == Chain(s.chains, op) + [
         SetOpen(op, s'.accruals[op].arr, firstAt), SaddOpen(op)]
  }

  lemma {:induction false} PushedShape(s: Service, rec: Rec, at: int)
    requires Steady(s, rec.operator)
    ensures var op := rec.operator; var p := PushRecord(WithAccrual(s, op, at), rec);
      var all := Accrued(s, op) + [rec];
      && p == s.(heap := p.heap, accruals := p.accruals)
      && op in p.accruals && Accrued(p, op) == all
      && p.accruals == s.accruals[op := Accrual(
           if op in s.accruals then s.accruals[op].arr else |s.heap|, Sum(all),
           if op in s.accruals then s.accruals[op].firstAt else at)]
      && |p.heap| >= |s.heap|
      && forall a | 0 <= a < |s.heap| && (op in s.accruals ==> a != s.accruals[op].arr) :: p.heap[a] == s.heap[a]
  {
    var op := rec.operator;
    SumAppend(Accrued(s, op), [rec]);
    SumOne(rec);
    var p := PushRecord(WithAccrual(s, op, at), rec);
    hide Sum;
    if op !in s.accruals {
      assert s.heap + [[]] == (s.heap + [[]])[|s.heap| := []];
      assert ArrayAt(p.heap, |s.heap|) == [] + [rec] == [rec];
    }
  }

  lemma {:induction false} SumOne(rec: Rec)
    ensures Sum([rec]) == rec.payout && Sum([]) == 0
  {
    assert [rec][1..] == [];
  }

  /**
   * A settlement carves a batch off exactly when the records of its operator's accrual, this one
   * included, add up to the minimum or reach the cap on their number. Then the batch is all of
   * them and nothing is left accruing; otherwise all of them go on accruing. No other operator's
   * accrual changes.
   */
  lemma {:induction false} AccrueCarvesIff(s: Service, rec: Rec, at: int, newId: BatchId)
    requires Steady(s, rec.operator)
    ensures var op := rec.operator; var s' := Accrue(s, rec, at, newId);
      var all := Accrued(s, op) + [rec];
      var firstAt := if op in s.accruals then s.accruals[op].firstAt else at;
      && (op !in s'.accruals <==> Fills(s.cfg, all))
      && (if Fills(s.cfg, all) then CarvedOff(s, op, all, firstAt, newId, s')
          else StillAccruing(s, op, all, firstAt, s'))
      && (forall q | q != op :: (q in s'.accruals <==> q in s.accruals)
                                && (q in s.accruals ==> s'.accruals[q] == s.accruals[q]))
      && s'.cfg == s.cfg && s'.claimed == s.claimed && s'.routing == s.routing
      && |s'.heap| >= |s.heap|
      && forall a | 0 <= a < |s.heap| && (op in s.accruals ==> a != s.accruals[op].arr) :: s'.heap[a] == s.heap[a]
  {
    PushedShape(s, rec, at);
    var op := rec.operator;
    var p := PushRecord(WithAccrual(s, op, at), rec);
    hide PushRecord, WithAccrual, Sum;
    assert ArrayAt(p.heap, p.accruals[op].arr) == Accrued(s, op) + [rec];
  }

  // ----- one settlement -----

  /** The request's note is consumed and the request is claimed. */
  function Consumed(s: Service, x: RequestId): Service {
    s.(routing := Remove(s.routing, x), claimed := s.claimed + {x})
  }

  /**
   * A settlement that was not routed does nothing, and a second one only takes its note. Otherwise
   * the note is taken and the request claimed, and money moves exactly for an admitted record with
   * a payout: into its operator's accrual, or into a payout of its own.
   */
  lemma {:induction false} SettleCases(s: Service, inbound: Inbound, at: int, newId: BatchId)
    ensures var x := inbound.requestId; var rec := Admitted(s, inbound, at);
      var s' := SettleInbound(s, inbound, at, newId);
      && (Find(s.routing, x) == None ==> s' == s)
      && (Find(s.routing, x).Some? && x in s.claimed ==> s' == s.(routing := Remove(s.routing, x)))
      && (Find(s.routing, x).Some? && x !in s.claimed && (rec == None || rec.value.payout == 0) ==>
            s' == Consumed(s, x))
      && (rec.Some? && rec.value.payout > 0 ==>
            s' == if s.cfg.batchMin > 0 then Accrue(Consumed(s, x), rec.value, at, newId)
                  else Consumed(s, x).(jobs := s.jobs[Single(x) :=
                    Job(rec.value.operator, rec.value.payout, [rec.value], None, false)]))
  {
    hide Accrue, Find, Remove;
  }

  /** What is admitted is the routed request, split, and stamped now. */
  lemma {:induction false} AdmittedIs(s: Service, inbound: Inbound, at: int)
    ensures var note := Find(s.routing, inbound.requestId);
      var split := Pricing.ComputeSplit(inbound.amount, s.cfg.marginBps);
      Admitted(s, inbound, at) ==
        if note.Some? && inbound.requestId !in s.claimed && split.Ok?
        then Some(Rec(inbound.requestId, note.value.nodeId, note.value.operator,
                      inbound.amount, split.value.payout, split.value.margin, at))
        else None
  {}
}
