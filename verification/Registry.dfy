// The node registry: the in-memory store, and the Redis store that mirrors into one and falls
// back to it for good on the first command that fails.
module Registry {
  import opened Prelude
  import opened MeshTypes
  import opened NodeHealth
  import Money

  // ----- merging a registration or heartbeat -----

  function TryAtomic(s: string): Option<nat> {
    if s != "" && Money.AllDigits(s) then Some(Money.Digits(s)) else None
  }

  function MaxAtomic(a: string, b: string): string {
    match (TryAtomic(a), TryAtomic(b))
    case (None, None) => "0"
    case (None, Some(_)) => b
    case (Some(_), None) => a
    case (Some(x), Some(y)) => if x >= y then a else b
  }

  function Max(a: int, b: int): int {
    if a >= b then a else b
  }

  function MergeRecord(existing: Option<NodeRecord>, incoming: NodeRecord, window: seq<Outcome>): NodeRecord {
    match existing
    case None => incoming
    case Some(was) =>
      var health := incoming.health.(
        inFlight := was.health.inFlight,
        lastSeenAt := Max(was.health.lastSeenAt, incoming.health.lastSeenAt));
      var derived := DeriveHealth(health, window);
      incoming.(
        health := if window == [] then health
                  else derived.(healthy := incoming.health.healthy && derived.healthy),
        registeredAt := was.registeredAt,
        totalRequests := Max(was.totalRequests, incoming.totalRequests),
        totalPaidAtomic := MaxAtomic(was.totalPaidAtomic, incoming.totalPaidAtomic))
  }

  function WithInFlight(r: NodeRecord, n: int): NodeRecord {
    r.(health := r.health.(inFlight := n))
  }

  function Id(r: NodeRecord): NodeId {
    r.registration.nodeId
  }

  // ----- the in-memory store -----

  datatype Nodes = Nodes(records: map<NodeId, NodeRecord>, windows: map<NodeId, seq<Outcome>>)

  const NO_NODES := Nodes(map[], map[])

  datatype Op =
    | Upsert(record: NodeRecord)
    | RecordOutcome(id: NodeId, outcome: Reported)
    | Begin(id: NodeId)
    | End(id: NodeId)
    | Remove(id: NodeId)

  function WindowOf(m: Nodes, id: NodeId): seq<Outcome> {
    if id in m.windows then m.windows[id] else []
  }

  function RecordOf(m: Nodes, id: NodeId): Option<NodeRecord> {
    if id in m.records then Some(m.records[id]) else None
  }

  /** Append, then drop the oldest beyond the bound. */
  function Slide(window: seq<Outcome>, o: Outcome): seq<Outcome> {
    var grown := window + [o];
    if |grown| > HEALTH_WINDOW_SIZE then grown[|grown| - HEALTH_WINDOW_SIZE..] else grown
  }

  function Scored(r: NodeRecord, window: seq<Outcome>): NodeRecord {
    r.(totalRequests := r.totalRequests + 1, health := DeriveHealth(r.health, window))
  }

  function Apply(m: Nodes, op: Op): Nodes {
    match op
    case Upsert(r) =>
      var window := WindowOf(m, Id(r));
      Nodes(m.records[Id(r) := MergeRecord(RecordOf(m, Id(r)), r, window)], m.windows[Id(r) := window])
    case RecordOutcome(id, o) =>
      if id !in m.records then m
      else
        var window := Slide(WindowOf(m, id), NormalizeOutcome(o));
        Nodes(m.records[id := Scored(m.records[id], window)], m.windows[id := window])
    case Begin(id) =>
      if id !in m.records then m
      else m.(records := m.records[id := WithInFlight(m.records[id], m.records[id].health.inFlight + 1)])
    case End(id) =>
      if id !in m.records then m
      else m.(records := m.records[id :=
                WithInFlight(m.records[id], Max(0, m.records[id].health.inFlight - 1))])
    case Remove(id) => Nodes(m.records - {id}, m.windows - {id})
  }

  /** Every node once, in whatever order. */
  ghost predicate IsListing(m: Nodes, listed: seq<NodeRecord>) {
    && (forall i | 0 <= i < |listed| :: RecordOf(m, Id(listed[i])) == Some(listed[i]))
    && (forall i, j | 0 <= i < j < |listed| :: Id(listed[i]) != Id(listed[j]))
    && (forall id | id in m.records :: m.records[id] in listed)
  }

  ghost predicate KeyedById(m: Nodes) {
    && m.windows.Keys == m.records.Keys
    && forall id | id in m.records :: Id(m.records[id]) == id
  }

  class MemoryNodeStore {
    var records: map<NodeId, NodeRecord>
    var windows: map<NodeId, seq<Outcome>>

    function Contents(): Nodes
      reads this
    {
      Nodes(records, windows)
    }

    constructor ()
      ensures Contents() == NO_NODES
    {
      records, windows := map[], map[];
    }

    method Upsert(record: NodeRecord)
      modifies this
      ensures Contents() == Apply(old(Contents()), Op.Upsert(record))
    {
      var id := record.registration.nodeId;
      var existing := if id in records then Some(records[id]) else None;
      var window := if id in windows then windows[id] else [];
      records := records[id := MergeRecord(existing, record, window)];
      if id !in windows { windows := windows[id := window]; }
    }

    method Get(id: NodeId) returns (r: Option<NodeRecord>)
      ensures r == RecordOf(Contents(), id)
    {
      r := if id in records then Some(records[id]) else None;
    }

    method List() returns (listed: seq<NodeRecord>)
      requires KeyedById(Contents())
      ensures IsListing(Contents(), listed)
    {
      listed := [];
      var ids := records.Keys;
      while ids != {}
        invariant ids <= records.Keys
        invariant forall i | 0 <= i < |listed| ::
            Id(listed[i]) !in ids && RecordOf(Contents(), Id(listed[i])) == Some(listed[i])
        invariant forall i, j | 0 <= i < j < |listed| :: Id(listed[i]) != Id(listed[j])
        invariant forall id | id in records && id !in ids :: records[id] in listed
        decreases |ids|
      {
        var id :| id in ids;
        ids := ids - {id};
        listed := listed + [records[id]];
      }
    }

    method Remove(id: NodeId)
      modifies this
      ensures Contents() == Apply(old(Contents()), Op.Remove(id))
    {
      records := records - {id};
      windows := windows - {id};
    }

    method RecordOutcome(id: NodeId, o: Reported)
      modifies this
      ensures Contents() == Apply(old(Contents()), Op.RecordOutcome(id, o))
    {
      hide NormalizeOutcome, DeriveHealth;
      if id !in records { return; }
      var window := if id in windows then windows[id] else [];
      window := window + [NormalizeOutcome(o)];
      if |window| > HEALTH_WINDOW_SIZE {
        window := window[|window| - HEALTH_WINDOW_SIZE..];
      }
      windows := windows[id := window];
      var health := ComputeHealth(records[id].health, window);
      records := records[id := records[id].(totalRequests := records[id].totalRequests + 1, health := health)];
    }

    method BeginRequest(id: NodeId)
      modifies this
      ensures Contents() == Apply(old(Contents()), Begin(id))
    {
      if id in records {
        records := records[id := WithInFlight(records[id], records[id].health.inFlight + 1)];
      }
    }

    method EndRequest(id: NodeId)
      modifies this
      ensures Contents() == Apply(old(Contents()), End(id))
    {
      if id in records {
        records := records[id := WithInFlight(records[id], Max(0, records[id].health.inFlight - 1))];
      }
    }
  }

  // ----- what the store keeps in Redis -----

  /** Windows are newest-first; the in-flight count has a key of its own. */
  datatype Keyspace = Keyspace(
    records: map<NodeId, NodeRecord>, windows: map<NodeId, seq<Outcome>>,
    counts: map<NodeId, int>, index: set<NodeId>)

  const EMPTY_KEYSPACE := Keyspace(map[], map[], map[], {})

  function RawCount(k: Keyspace, id: NodeId): int {
    if id in k.counts then k.counts[id] else 0
  }

  /** `parseCount`: absent and negative counters read as zero. */
  function Count(k: Keyspace, id: NodeId): int {
    Max(0, RawCount(k, id))
  }

  function ReadRecord(k: Keyspace, id: NodeId): Option<NodeRecord> {
    if id in k.records then Some(WithInFlight(k.records[id], Count(k, id))) else None
  }

  function Reversed(s: seq<Outcome>): (r: seq<Outcome>)
    ensures |r| == |s|
    ensures forall i | 0 <= i < |s| :: r[i] == s[|s| - 1 - i]
  {
    seq(|s|, i requires 0 <= i < |s| => s[|s| - 1 - i])
  }

  /** `parseWindow`: every entry is normalized again on the way out. */
  function ParseWindow(raw: seq<Outcome>): (r: seq<Outcome>)
    ensures |r| == |raw|
  {
    seq(|raw|, i requires 0 <= i < |raw| => NormalizeOutcome(AsReported(raw[i])))
  }

  function Head(s: seq<Outcome>): seq<Outcome> {
    if |s| > HEALTH_WINDOW_SIZE then s[..HEALTH_WINDOW_SIZE] else s
  }

  function RawWindow(k: Keyspace, id: NodeId): seq<Outcome> {
    if id in k.windows then k.windows[id] else []
  }

  function ReadWindow(k: Keyspace, id: NodeId): seq<Outcome> {
    Reversed(ParseWindow(Head(RawWindow(k, id))))
  }

  /** The effect of an operation's commands when none of them fails. */
  function Commands(k: Keyspace, op: Op): Keyspace {
    match op
    case Upsert(r) =>
      k.(records := k.records[Id(r) := MergeRecord(ReadRecord(k, Id(r)), r, ReadWindow(k, Id(r)))],
         index := k.index + {Id(r)})
    case RecordOutcome(id, o) =>
      if ReadRecord(k, id).None? then k
      else
        var pushed := k.(windows := k.windows[id := Head([NormalizeOutcome(o)] + RawWindow(k, id))]);
        pushed.(records := k.records[id := Scored(ReadRecord(k, id).value, ReadWindow(pushed, id))])
    case Begin(id) => k.(counts := k.counts[id := RawCount(k, id) + 1])
    case End(id) => k.(counts := k.counts[id := Max(0, RawCount(k, id) - 1)])
    case Remove(id) =>
      Keyspace(k.records - {id}, k.windows - {id}, k.counts - {id}, k.index - {id})
  }

  /** What Redis shows of `id` is what the mirror shows, and no counter is left over. */
  ghost predicate AgreeAt(k: Keyspace, m: Nodes, id: NodeId) {
    && ReadRecord(k, id) == RecordOf(m, id)
    && ReadWindow(k, id) == WindowOf(m, id)
    && RawCount(k, id) >= 0 && |RawWindow(k, id)| <= HEALTH_WINDOW_SIZE
    && (id in k.index <==> id in m.records)
    && (id in m.windows <==> id in m.records)
    && (id in m.records ==> Id(m.records[id]) == id)
    && (id !in m.records ==> RawCount(k, id) == 0 && id !in k.windows)
  }

  ghost predicate Agree(k: Keyspace, m: Nodes) {
    forall id :: AgreeAt(k, m, id)
  }

  /** An operation on one node leaves every other where it was. */
  ghost predicate ElsewhereSame(k: Keyspace, m: Nodes, k': Keyspace, m': Nodes, id: NodeId, j: NodeId) {
    j != id ==>
      && ReadRecord(k', j) == ReadRecord(k, j) && RawWindow(k', j) == RawWindow(k, j)
      && RawCount(k', j) == RawCount(k, j) && (j in k'.index <==> j in k.index)
      && (j in k'.windows <==> j in k.windows)
      && (j in m'.windows <==> j in m.windows)
      && RecordOf(m', j) == RecordOf(m, j) && WindowOf(m', j) == WindowOf(m, j)
  }

  lemma {:induction false} AgreeFrom(k: Keyspace, m: Nodes, k': Keyspace, m': Nodes, id: NodeId)
    requires Agree(k, m) && forall j :: ElsewhereSame(k, m, k', m', id, j)
    ensures Agree(k', m') <==> AgreeAt(k', m', id)
  {
    forall j | j != id
      ensures AgreeAt(k', m', j)
    {
      assert AgreeAt(k, m, j) && ElsewhereSame(k, m, k', m', id, j);
      hide ReadRecord;
    }
  }

  function Target(op: Op): NodeId {
    if op.Upsert? then Id(op.record) else op.id
  }

  lemma {:induction false} OthersSame(k: Keyspace, m: Nodes, op: Op, j: NodeId)
    ensures ElsewhereSame(k, m, Commands(k, op), Apply(m, op), Target(op), j)
  {
    hide MergeRecord, Scored, Slide, Head, NormalizeOutcome, ReadWindow;
  }

  lemma {:induction false} ReadAfterPush(raw: seq<Outcome>, o: Reported)
    requires |raw| <= HEALTH_WINDOW_SIZE
    ensures Reversed(ParseWindow(Head(Head([NormalizeOutcome(o)] + raw))))
      == Slide(Reversed(ParseWindow(Head(raw))), NormalizeOutcome(o))
  {
    NormalizeTwice(o);
    var n := NormalizeOutcome(o);
    var pushed := Head([n] + raw);
    var x, y := Reversed(ParseWindow(pushed)), Slide(Reversed(ParseWindow(raw)), n);
    assert |x| == |y|;
    forall i | 0 <= i < |x|
      ensures x[i] == y[i]
    {
      var from := |pushed| - 1 - i;
      assert pushed[from] == if from == 0 then n else raw[from - 1];
    }
    assert x == y;
  }

  lemma {:induction false} RemoveAgrees(k: Keyspace, m: Nodes, id: NodeId)
    ensures AgreeAt(Commands(k, Remove(id)), Apply(m, Remove(id)), id)
  {
    assert ReadWindow(Commands(k, Remove(id)), id) == [];
  }

  lemma {:induction false} OutcomeAgrees(k: Keyspace, m: Nodes, id: NodeId, o: Reported)
    requires AgreeAt(k, m, id)
    ensures AgreeAt(Commands(k, RecordOutcome(id, o)), Apply(m, RecordOutcome(id, o)), id)
  {
    if id in m.records {
      var window := Slide(WindowOf(m, id), NormalizeOutcome(o));
      DerivedKeepsInFlight(m.records[id].health, window);
      OutcomeWindow(k, id, o);
      hide NormalizeOutcome, DeriveHealth, Slide, ReadWindow, Head, RawWindow;
      OutcomeRecord(k, m, id, o);
    }
  }

  lemma {:induction false} OutcomeWindow(k: Keyspace, id: NodeId, o: Reported)
    requires |RawWindow(k, id)| <= HEALTH_WINDOW_SIZE
    ensures var pushed := k.(windows := k.windows[id := Head([NormalizeOutcome(o)] + RawWindow(k, id))]);
      && ReadWindow(pushed, id) == Slide(ReadWindow(k, id), NormalizeOutcome(o))
      && |RawWindow(pushed, id)| <= HEALTH_WINDOW_SIZE
      && forall records :: RawWindow(pushed.(records := records), id) == RawWindow(pushed, id)
                           && ReadWindow(pushed.(records := records), id) == ReadWindow(pushed, id)
  {
    ReadAfterPush(RawWindow(k, id), o);
    hide NormalizeOutcome, Slide, Reversed, ParseWindow;
  }

  lemma {:induction false} OutcomeRecord(k: Keyspace, m: Nodes, id: NodeId, o: Reported)
    requires id in m.records && ReadRecord(k, id) == RecordOf(m, id)
    requires var pushed := k.(windows := k.windows[id := Head([NormalizeOutcome(o)] + RawWindow(k, id))]);
      ReadWindow(pushed, id) == Slide(WindowOf(m, id), NormalizeOutcome(o))
    requires DeriveHealth(m.records[id].health, Slide(WindowOf(m, id), NormalizeOutcome(o))).inFlight
      == m.records[id].health.inFlight
    ensures ReadRecord(Commands(k, RecordOutcome(id, o)), id) == RecordOf(Apply(m, RecordOutcome(id, o)), id)
  {
    hide NormalizeOutcome, DeriveHealth, Slide, ReadWindow, Head, RawWindow;
  }

  lemma {:induction false} DerivedKeepsInFlight(base: Health, window: seq<Outcome>)
    ensures DeriveHealth(base, window).inFlight == base.inFlight
  {
    hide Sort, Percentile;
  }

  /** Registering a node Redis does not hold agrees exactly when its record starts idle. */
  lemma {:induction false} UpsertAgreesIff(k: Keyspace, m: Nodes, r: NodeRecord)
    requires AgreeAt(k, m, Id(r))
    ensures AgreeAt(Commands(k, Upsert(r)), Apply(m, Upsert(r)), Id(r))
      <==> (Id(r) in m.records || r.health.inFlight == 0)
  {
    var id := Id(r);
    var merged := MergeRecord(RecordOf(m, id), r, WindowOf(m, id));
    MergedInFlight(RecordOf(m, id), r, WindowOf(m, id));
    hide MergeRecord, ReadWindow;
    var k', m' := Commands(k, Upsert(r)), Apply(m, Upsert(r));
    assert ReadWindow(k', id) == ReadWindow(k, id) by { WindowOnly(k, k', id); }
    assert ReadRecord(k', id) == Some(WithInFlight(merged, Count(k, id)));
    assert RecordOf(m', id) == Some(merged);
  }

  lemma {:induction false} WindowOnly(k: Keyspace, k': Keyspace, id: NodeId)
    requires RawWindow(k', id) == RawWindow(k, id)
    ensures ReadWindow(k', id) == ReadWindow(k, id)
  {}

  lemma {:induction false} MergedInFlight(existing: Option<NodeRecord>, r: NodeRecord, window: seq<Outcome>)
    ensures var merged := MergeRecord(existing, r, window);
      && Id(merged) == Id(r)
      && merged.health.inFlight == match existing case None => r.health.inFlight case Some(was) => was.health.inFlight
  {
    if existing.Some? && window != [] {
      var health := r.health.(
        inFlight := existing.value.health.inFlight,
        lastSeenAt := Max(existing.value.health.lastSeenAt, r.health.lastSeenAt));
      DerivedKeepsInFlight(health, window);
    }
    hide DeriveHealth;
  }

  /** Counting a request in agrees exactly when its node is registered. */
  lemma {:induction false} BeginAgreesIff(k: Keyspace, m: Nodes, id: NodeId)
    requires AgreeAt(k, m, id)
    ensures AgreeAt(Commands(k, Begin(id)), Apply(m, Begin(id)), id) <==> id in m.records
  {
    WindowOnly(k, Commands(k, Begin(id)), id);
    hide ReadWindow;
  }

  /** Counting a request out always agrees. */
  lemma {:induction false} EndAgrees(k: Keyspace, m: Nodes, id: NodeId)
    requires AgreeAt(k, m, id)
    ensures AgreeAt(Commands(k, End(id)), Apply(m, End(id)), id)
  {
    WindowOnly(k, Commands(k, End(id)), id);
    hide ReadWindow;
  }

  /** The stray count shows as soon as the node registers. */
  lemma {:induction false} StrayCountShows(k: Keyspace, m: Nodes, r: NodeRecord)
    requires Agree(k, m) && Id(r) !in m.records && r.health.inFlight == 0
    ensures var k' := Commands(Commands(k, Begin(Id(r))), Upsert(r));
      var m' := Apply(Apply(m, Begin(Id(r))), Upsert(r));
      && ReadRecord(k', Id(r)).Some? && ReadRecord(k', Id(r)).value.health.inFlight == 1
      && RecordOf(m', Id(r)) == Some(r)
  {
    assert AgreeAt(k, m, Id(r));
  }

  /** Requests are counted in only on registered nodes, and new nodes register idle. */
  predicate WellUsed(m: Nodes, op: Op) {
    match op
    case Upsert(r) => Id(r) in m.records || r.health.inFlight == 0
    case Begin(id) => id in m.records
    case RecordOutcome(_, _) => true
    case End(_) => true
    case Remove(_) => true
  }

  /** One operation keeps the two backends in agreement exactly when it is a proper use. */
  lemma {:induction false} CommandsAgreeIff(k: Keyspace, m: Nodes, op: Op)
    requires Agree(k, m)
    ensures Agree(Commands(k, op), Apply(m, op)) <==> WellUsed(m, op)
  {
    assert AgreeAt(k, m, Target(op));
    forall j ensures ElsewhereSame(k, m, Commands(k, op), Apply(m, op), Target(op), j) { OthersSame(k, m, op, j); }
    AgreeFrom(k, m, Commands(k, op), Apply(m, op), Target(op));
    hide Agree, AgreeAt, ElsewhereSame, Commands, Apply;
    match op
    case Upsert(r) => UpsertAgreesIff(k, m, r);
    case RecordOutcome(id, o) => OutcomeAgrees(k, m, id, o);
    case Begin(id) => BeginAgreesIff(k, m, id);
    case End(id) => EndAgrees(k, m, id);
    case Remove(id) => RemoveAgrees(k, m, id);
  }
}
