/** What heartbeats and outcomes can and cannot do to a registered node, over any run. */
module RegistryLifetime {
  import opened Prelude
  import opened MeshTypes
  import opened NodeHealth
  import opened Registry
  import Money

  function Run(m: Nodes, ops: seq<Op>): Nodes
    decreases |ops|
  {
    if ops == [] then m else Run(Apply(m, ops[0]), ops[1..])
  }

  // ----- a heartbeat cannot forge health -----

  /** What the outcome window decides. */
  ghost predicate SameMeasured(a: Health, b: Health) {
    && a.latencyMsP50 == b.latencyMsP50 && a.latencyMsP95 == b.latencyMsP95
    && a.uptimeRatio == b.uptimeRatio && a.qualityScore == b.qualityScore
    && a.consecutiveFailures == b.consecutiveFailures && a.inFlight == b.inFlight
  }

  /**
   * Whatever a heartbeat reports, the stored health is the one its window derives: the node can
   * only take itself out (`healthy: false`), and never back in while its last three outcomes failed.
   */
  lemma {:induction false} HeartbeatCannotForge(m: Nodes, r: NodeRecord)
    requires Id(r) in m.records && WindowOf(m, Id(r)) != []
    ensures var window := WindowOf(m, Id(r));
      var stored := Apply(m, Upsert(r)).records[Id(r)].health;
      && SameMeasured(stored, DeriveHealth(m.records[Id(r)].health, window))
      && (stored.healthy <==>
          (r.health.healthy
           && (|window| < 3 || exists i :: |window| - 3 <= i < |window| && window[i].success)))
  {
    var window := WindowOf(m, Id(r));
    var prior := m.records[Id(r)];
    var health := r.health.(
      inFlight := prior.health.inFlight,
      lastSeenAt := Max(prior.health.lastSeenAt, r.health.lastSeenAt));
    HealthyIff(health, window);
    DerivedKeepsInFlight(health, window);
    DerivedKeepsInFlight(prior.health, window);
    DerivedFromWindow(health, prior.health, window);
    hide DeriveHealth;
  }

  lemma {:induction false} DerivedFromWindow(a: Health, b: Health, window: seq<Outcome>)
    requires window != []
    ensures var x, y := DeriveHealth(a, window), DeriveHealth(b, window);
      && x.latencyMsP50 == y.latencyMsP50 && x.latencyMsP95 == y.latencyMsP95
      && x.uptimeRatio == y.uptimeRatio && x.qualityScore == y.qualityScore
      && x.consecutiveFailures == y.consecutiveFailures
  {
    hide Sort, Percentile, Successes, FailureStreak, Latencies;
  }

  // ----- lifetime counters -----

  predicate Keeps(ops: seq<Op>, id: NodeId) {
    forall i | 0 <= i < |ops| :: ops[i] != Remove(id)
  }

  function OutcomesOf(ops: seq<Op>, id: NodeId): seq<Outcome> {
    if ops == [] then []
    else (if ops[0].RecordOutcome? && ops[0].id == id then [NormalizeOutcome(ops[0].outcome)] else [])
         + OutcomesOf(ops[1..], id)
  }

  /** In-flight requests after `ops`, from `n`; counting out saturates at zero. */
  function InFlightAfter(n: int, ops: seq<Op>, id: NodeId): int
    decreases |ops|
  {
    if ops == [] then n
    else
      var next := if ops[0] == Begin(id) then n + 1 else if ops[0] == End(id) then Max(0, n - 1) else n;
      InFlightAfter(next, ops[1..], id)
  }

  /** The last hundred outcomes. */
  function Recent(s: seq<Outcome>): seq<Outcome> {
    if |s| > 100 then s[|s| - 100..] else s
  }

  ghost predicate PaidAtLeast(now: string, before: string) {
    TryAtomic(before).Some? ==> TryAtomic(now).Some? && TryAtomic(now).value >= TryAtomic(before).value
  }

  /** `r` has become `next` after a run that reported `outcomes` and left `inFlight` requests. */
  ghost predicate Continues(r: NodeRecord, next: NodeRecord, outcomes: nat, inFlight: int) {
    && next.registeredAt == r.registeredAt
    && next.totalRequests >= r.totalRequests + outcomes
    && PaidAtLeast(next.totalPaidAtomic, r.totalPaidAtomic)
    && next.health.inFlight == inFlight
  }

  lemma {:induction false} MergeContinues(r: NodeRecord, incoming: NodeRecord, window: seq<Outcome>)
    ensures Continues(r, MergeRecord(Some(r), incoming, window), 0, r.health.inFlight)
  {
    MergedInFlight(Some(r), incoming, window);
    hide DeriveHealth, Money.Digits;
  }

  lemma {:induction false} ScoreContinues(r: NodeRecord, window: seq<Outcome>)
    ensures Continues(r, Scored(r, window), 1, r.health.inFlight)
  {
    DerivedKeepsInFlight(r.health, window);
    hide DeriveHealth, TryAtomic;
  }

  lemma {:induction false} StepLifetime(m: Nodes, op: Op, id: NodeId)
    requires id in m.records && op != Remove(id)
    ensures var m' := Apply(m, op);
      && id in m'.records
      && Continues(m.records[id], m'.records[id], |OutcomesOf([op], id)|,
                   InFlightAfter(m.records[id].health.inFlight, [op], id))
      && WindowOf(m', id) == (
          if op.RecordOutcome? && op.id == id then Slide(WindowOf(m, id), NormalizeOutcome(op.outcome))
          else WindowOf(m, id))
  {
    OneOp(op, id, m.records[id].health.inFlight);
    hide MergeRecord, Scored, Slide, NormalizeOutcome, OutcomesOf, InFlightAfter, TryAtomic, Continues;
    var r := m.records[id];
    CountContinues(r, r.health.inFlight);
    CountContinues(r, r.health.inFlight + 1);
    CountContinues(r, Max(0, r.health.inFlight - 1));
    if op.Upsert? && Id(op.record) == id {
      MergeContinues(r, op.record, WindowOf(m, id));
    } else if op.RecordOutcome? && op.id == id {
      ScoreContinues(r, Slide(WindowOf(m, id), NormalizeOutcome(op.outcome)));
    }
  }

  lemma {:induction false} CountContinues(r: NodeRecord, n: int)
    ensures Continues(r, WithInFlight(r, n), 0, n) && WithInFlight(r, r.health.inFlight) == r
    ensures Continues(r, r, 0, r.health.inFlight)
  {
    hide TryAtomic;
  }

  lemma {:induction false} OneOp(op: Op, id: NodeId, n: int)
    ensures OutcomesOf([op], id)
      == if op.RecordOutcome? && op.id == id then [NormalizeOutcome(op.outcome)] else []
    ensures InFlightAfter(n, [op], id)
      == if op == Begin(id) then n + 1 else if op == End(id) then Max(0, n - 1) else n
  {
    assert [op][1..] == [];
  }

  lemma {:induction false} ContinuesOn(
      a: NodeRecord, b: NodeRecord, c: NodeRecord, o1: nat, o2: nat, n1: int, n2: int)
    requires Continues(a, b, o1, n1) && Continues(b, c, o2, n2)
    ensures Continues(a, c, o1 + o2, n2) && b.health.inFlight == n1
  {
    hide TryAtomic;
  }

  lemma {:induction false} FirstThenRest(ops: seq<Op>, id: NodeId, n: int)
    requires ops != []
    ensures OutcomesOf(ops, id) == OutcomesOf([ops[0]], id) + OutcomesOf(ops[1..], id)
    ensures InFlightAfter(n, ops, id) == InFlightAfter(InFlightAfter(n, [ops[0]], id), ops[1..], id)
  {
    assert [ops[0]][1..] == [];
    assert OutcomesOf([], id) == [];
  }

  lemma {:induction false} SlideIsRecent(history: seq<Outcome>, o: Outcome)
    ensures Slide(Recent(history), o) == Recent(history + [o])
  {}

  /**
   * Until it is removed, a node keeps its registration time, never loses lifetime counts, has
   * exactly its unfinished requests in flight, and is judged on its last hundred outcomes only.
   */
  lemma {:induction false} Lifetime(m: Nodes, ops: seq<Op>, id: NodeId, history: seq<Outcome>)
    requires id in m.records && Keeps(ops, id) && WindowOf(m, id) == Recent(history)
    ensures var m' := Run(m, ops);
      && id in m'.records
      && Continues(m.records[id], m'.records[id], |OutcomesOf(ops, id)|,
                   InFlightAfter(m.records[id].health.inFlight, ops, id))
      && WindowOf(m', id) == Recent(history + OutcomesOf(ops, id))
    decreases |ops|
  {
    hide Apply, Recent, NormalizeOutcome, InFlightAfter, OutcomesOf, Continues, Slide;
    if ops == [] {
      NoOps(m.records[id], id, history);
    } else {
      var op := ops[0];
      var m1 := Apply(m, op);
      assert op != Remove(id) && Keeps(ops[1..], id);
      StepLifetime(m, op, id);
      StepHistory(m, op, id, history);
      FirstThenRest(ops, id, m.records[id].health.inFlight);
      var now := history + OutcomesOf([op], id);
      assert now + OutcomesOf(ops[1..], id) == history + OutcomesOf(ops, id);
      Lifetime(m1, ops[1..], id, now);
      ContinuesOn(m.records[id], m1.records[id], Run(m, ops).records[id],
                  |OutcomesOf([op], id)|, |OutcomesOf(ops[1..], id)|,
                  InFlightAfter(m.records[id].health.inFlight, [op], id),
                  InFlightAfter(m1.records[id].health.inFlight, ops[1..], id));
    }
  }

  lemma {:induction false} NoOps(r: NodeRecord, id: NodeId, history: seq<Outcome>)
    ensures Continues(r, r, |OutcomesOf([], id)|, InFlightAfter(r.health.inFlight, [], id))
    ensures history + OutcomesOf([], id) == history
  {
    hide TryAtomic;
  }

  lemma {:induction false} StepHistory(m: Nodes, op: Op, id: NodeId, history: seq<Outcome>)
    requires id in m.records && op != Remove(id) && WindowOf(m, id) == Recent(history)
    ensures WindowOf(Apply(m, op), id) == Recent(history + OutcomesOf([op], id))
  {
    StepLifetime(m, op, id);
    OneOp(op, id, 0);
    hide Apply, Recent, NormalizeOutcome, OutcomesOf, Slide;
    if op.RecordOutcome? && op.id == id {
      SlideIsRecent(history, NormalizeOutcome(op.outcome));
    } else {
      assert history + [] == history;
    }
  }

  // ----- what a registration brings -----

  lemma {:induction false} LargerAmount(a: string, b: string)
    ensures var r := MaxAtomic(a, b);
      && (r == a || r == b || (r == "0" && TryAtomic(a).None? && TryAtomic(b).None?))
      && PaidAtLeast(r, a) && PaidAtLeast(r, b)
  {
    hide TryAtomic;
  }

  /**
   * A first registration is stored as it comes. A later one brings its registration, its opt-in
   * and its concurrency cap; it moves neither the registration time nor the requests in flight,
   * and the lifetime counts and the last sign of life only forwards.
   */
  lemma {:induction false} RegistrationBrings(m: Nodes, r: NodeRecord)
    ensures var stored := Apply(m, Upsert(r)).records[Id(r)];
      && stored.registration == r.registration && stored.usdcOptedIn == r.usdcOptedIn
      && stored.health.maxConcurrency == r.health.maxConcurrency && stored.health.nodeId == r.health.nodeId
      && (Id(r) !in m.records ==> stored == r)
      && (Id(r) in m.records ==>
            var was := m.records[Id(r)];
            && stored.registeredAt == was.registeredAt && stored.health.inFlight == was.health.inFlight
            && stored.totalRequests >= was.totalRequests && stored.totalRequests >= r.totalRequests
            && (stored.totalRequests == was.totalRequests || stored.totalRequests == r.totalRequests)
            && PaidAtLeast(stored.totalPaidAtomic, was.totalPaidAtomic)
            && PaidAtLeast(stored.totalPaidAtomic, r.totalPaidAtomic)
            && stored.totalPaidAtomic in {was.totalPaidAtomic, r.totalPaidAtomic, "0"}
            && stored.health.lastSeenAt >= was.health.lastSeenAt
            && stored.health.lastSeenAt >= r.health.lastSeenAt)
  {
    var window := WindowOf(m, Id(r));
    if Id(r) in m.records {
      var was := m.records[Id(r)];
      var health := r.health.(
        inFlight := was.health.inFlight, lastSeenAt := Max(was.health.lastSeenAt, r.health.lastSeenAt));
      LargerAmount(was.totalPaidAtomic, r.totalPaidAtomic);
      if window != [] { DerivedFields(health, window); }
      hide DeriveHealth, TryAtomic, MaxAtomic, IsPercentile, Succeeded, TrailingFailures;
    }
  }

  /** What the last registration of `id` among `ops` brings, or else `r`'s. */
  function LastBrought(r: NodeRecord, ops: seq<Op>, id: NodeId): (Registration<string>, bool, int) {
    if ops == [] then (r.registration, r.usdcOptedIn, r.health.maxConcurrency)
    else
      match ops[|ops| - 1]
      case Upsert(incoming) =>
        if Id(incoming) == id
        then (incoming.registration, incoming.usdcOptedIn, incoming.health.maxConcurrency)
        else LastBrought(r, ops[..|ops| - 1], id)
      case _ => LastBrought(r, ops[..|ops| - 1], id)
  }

  /** Every other operation leaves these alone, and counts a request only when an outcome is reported. */
  lemma {:induction false} OtherOps(m: Nodes, op: Op, id: NodeId)
    requires id in m.records && op != Remove(id) && !(op.Upsert? && Id(op.record) == id)
    ensures var m' := Apply(m, op);
      && id in m'.records
      && var r, next := m.records[id], m'.records[id];
      && next.registration == r.registration && next.usdcOptedIn == r.usdcOptedIn
      && next.health.maxConcurrency == r.health.maxConcurrency && next.registeredAt == r.registeredAt
      && next.totalPaidAtomic == r.totalPaidAtomic
      && next.totalRequests == r.totalRequests + (if op.RecordOutcome? && op.id == id then 1 else 0)
  {
    hide MergeRecord, Slide, NormalizeOutcome;
    if op.RecordOutcome? && op.id == id {
      var window := Slide(WindowOf(m, id), NormalizeOutcome(op.outcome));
      KeepsCap(m.records[id].health, window);
    }
    hide DeriveHealth;
  }

  lemma {:induction false} KeepsCap(base: Health, window: seq<Outcome>)
    ensures DeriveHealth(base, window).maxConcurrency == base.maxConcurrency
  {
    hide Sort, Percentile, Successes, FailureStreak, Latencies, LastSuccess;
  }

  lemma {:induction false} RunAppend(m: Nodes, ops: seq<Op>, op: Op)
    ensures Run(m, ops + [op]) == Apply(Run(m, ops), op)
    decreases |ops|
  {
    hide Apply;
    if ops == [] {
      assert [op][1..] == [] && [] + [op] == [op];
    } else {
      assert (ops + [op])[1..] == ops[1..] + [op];
      RunAppend(Apply(m, ops[0]), ops[1..], op);
    }
  }

  /** The largest count that `r`, or a later registration of it, and the outcomes since then make. */
  function LargestCount(r: NodeRecord, ops: seq<Op>, id: NodeId): int {
    if ops == [] then r.totalRequests
    else
      var before := LargestCount(r, ops[..|ops| - 1], id);
      match ops[|ops| - 1]
      case Upsert(incoming) => if Id(incoming) == id then Max(before, incoming.totalRequests) else before
      case RecordOutcome(j, _) => if j == id then before + 1 else before
      case _ => before
  }

  /**
   * Until it is removed, a node shows the registration, the opt-in and the cap it last registered
   * with, and its request count grows by exactly one an outcome, unless a registration knows of more.
   */
  lemma {:induction false} LatestRegistration(m: Nodes, ops: seq<Op>, id: NodeId)
    requires id in m.records && Keeps(ops, id)
    ensures id in Run(m, ops).records
    ensures var next := Run(m, ops).records[id];
      && (next.registration, next.usdcOptedIn, next.health.maxConcurrency) == LastBrought(m.records[id], ops, id)
      && next.totalRequests == LargestCount(m.records[id], ops, id)
  {
    hide Apply;
    if ops != [] {
      var front, op := ops[..|ops| - 1], ops[|ops| - 1];
      assert ops == front + [op] && op != Remove(id);
      LatestRegistration(m, front, id);
      RunAppend(m, front, op);
      var before := Run(m, front);
      if op.Upsert? && Id(op.record) == id {
        RegistrationBrings(before, op.record);
        UpsertPresent(before, op.record);
      } else {
        OtherOps(before, op, id);
      }
    }
  }

  lemma {:induction false} UpsertPresent(m: Nodes, r: NodeRecord)
    ensures Id(r) in Apply(m, Upsert(r)).records
  {
    hide MergeRecord;
  }
}
