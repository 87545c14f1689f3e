/** The Redis-backed node store, with a failure possible at any of its commands. */
module RegistryRedis {
  import opened Prelude
  import opened MeshTypes
  import opened NodeHealth
  import opened Registry

  /** What becomes of one command. A command whose reply is lost has still run. */
  datatype Fault = Answered | Refused | ReplyLost

  /** No command fails from here on. */
  predicate AllAnswer(faults: seq<Fault>) {
    forall i | 0 <= i < |faults| :: faults[i] == Answered
  }

  class RedisNodeStore {
    const fallback: MemoryNodeStore
    var connected: bool
    var degraded: bool
    var warnings: nat
    var redis: Keyspace
    var faults: seq<Fault>

    ghost predicate Valid()
      reads this, fallback
    {
      && (degraded ==> !connected)
      && warnings == (if degraded then 1 else 0)
      && KeyedById(fallback.Contents())
    }

    /** While connected, Redis shows what the mirror shows. */
    ghost predicate InSync()
      reads this, fallback
    {
      connected ==> Agree(redis, fallback.Contents())
    }

    function Mirror(): Nodes
      reads this, fallback
    {
      fallback.Contents()
    }

    /** `reachable` is whether a client could be built; `faults` decides every later command. */
    constructor (reachable: bool, faults: seq<Fault>)
      ensures Valid() && InSync() && fresh(fallback)
      ensures Mirror() == NO_NODES && degraded == !reachable
      ensures connected == reachable && this.faults == faults
    {
      fallback := new MemoryNodeStore();
      connected, degraded := reachable, !reachable;
      warnings := if reachable then 0 else 1;
      redis := EMPTY_KEYSPACE;
      this.faults := faults;
      new;
      forall id ensures AgreeAt(EMPTY_KEYSPACE, NO_NODES, id) {
        assert ReadWindow(EMPTY_KEYSPACE, id) == [];
      }
    }

    // ----- commands -----

    method Command() returns (runs: bool, answers: bool)
      modifies this`faults
      ensures answers ==> runs
      ensures AllAnswer(old(faults)) ==> answers && AllAnswer(faults)
    {
      if faults == [] { return true, true; }
      runs, answers := faults[0] != Refused, faults[0] == Answered;
      faults := faults[1..];
    }

    method GetRecord(id: NodeId) returns (ok: bool, r: Option<NodeRecord>)
      modifies this`faults
      ensures ok ==> r == ReadRecord(redis, id)
      ensures AllAnswer(old(faults)) ==> ok && AllAnswer(faults)
    {
      var _, blob := Command();
      var _, count := Command();
      ok, r := blob && count, ReadRecord(redis, id);
    }

    method LRange(id: NodeId) returns (ok: bool, raw: seq<Outcome>)
      modifies this`faults
      ensures ok ==> raw == Head(RawWindow(redis, id))
      ensures AllAnswer(old(faults)) ==> ok && AllAnswer(faults)
    {
      var _, answers := Command();
      ok, raw := answers, Head(RawWindow(redis, id));
    }

    /** A command that writes: when it answers, the keyspace is `next`. */
    method Write(next: Keyspace) returns (ok: bool)
      modifies this`faults, this`redis
      ensures ok ==> redis == next
      ensures AllAnswer(old(faults)) ==> ok && AllAnswer(faults)
    {
      var runs, answers := Command();
      if runs { redis := next; }
      ok := answers;
    }

    /** Warns once, then serves from the mirror for good. */
    method Degrade()
      requires Valid()
      modifies this`connected, this`degraded, this`warnings
      ensures Valid() && degraded && !connected
    {
      connected := false;
      if degraded { return; }
      degraded := true;
      warnings := warnings + 1;
    }

    method Connect() returns (ok: bool)
      requires Valid()
      modifies this`connected, this`degraded, this`warnings, this`faults
      ensures Valid() && (old(InSync()) ==> InSync()) && ok == connected
      ensures connected ==> old(connected)
      ensures AllAnswer(old(faults)) ==> connected == old(connected) && AllAnswer(faults)
    {
      if !connected { return false; }
      var _, answers := Command();
      if !answers { Degrade(); }
      ok := answers;
    }

    // ----- operations: the mirror first, then Redis -----

    method Upsert(record: NodeRecord)
      requires Valid()
      modifies this`connected, this`degraded, this`warnings, this`faults, this`redis, fallback
      ensures Valid() && Mirror() == Apply(old(Mirror()), Op.Upsert(record))
      ensures connected ==> old(connected) && redis == Commands(old(redis), Op.Upsert(record))
      ensures old(InSync()) && WellUsed(old(Mirror()), Op.Upsert(record)) ==> InSync()
      ensures AllAnswer(old(faults)) ==> connected == old(connected) && AllAnswer(faults)
    {
      KeepsAgreement(redis, Mirror(), Op.Upsert(record));
      var id := record.registration.nodeId;
      fallback.Upsert(record);
      if !connected { return; }
      var got, existing := GetRecord(id);
      if !got { Degrade(); return; }
      var ranged, raw := LRange(id);
      if !ranged { Degrade(); return; }
      var merged := MergeRecord(existing, record, Reversed(ParseWindow(raw)));
      var stored := Write(redis.(records := redis.records[id := merged]));
      if !stored { Degrade(); return; }
      var indexed := Write(redis.(index := redis.index + {id}));
      if !indexed { Degrade(); }
    }

    method Get(id: NodeId) returns (r: Option<NodeRecord>)
      requires Valid()
      modifies this`connected, this`degraded, this`warnings, this`faults
      ensures Valid() && (old(InSync()) ==> InSync())
      ensures old(InSync()) ==> r == RecordOf(Mirror(), id)
      ensures connected ==> old(connected)
      ensures AllAnswer(old(faults)) ==> connected == old(connected) && AllAnswer(faults)
    {
      ghost var agreed := InSync();
      if connected {
        var ok;
        ok, r := GetRecord(id);
        if ok {
          assert agreed ==> AgreeAt(redis, Mirror(), id);
          return;
        }
        Degrade();
      }
      r := fallback.Get(id);
    }

    method List() returns (listed: seq<NodeRecord>)
      requires Valid()
      modifies this`connected, this`degraded, this`warnings, this`faults
      ensures Valid() && (old(InSync()) ==> InSync())
      ensures old(InSync()) ==> IsListing(Mirror(), listed)
      ensures connected ==> old(connected)
      ensures AllAnswer(old(faults)) ==> connected == old(connected) && AllAnswer(faults)
    {
      ghost var agreed := InSync();
      if connected {
        var _, members := Command();
        var ids := redis.index;
        if members && ids == {} {
          if agreed { EmptyListing(redis, Mirror()); }
          return [];
        }
        if members {
          var _, blobs := Command();
          var _, counts := Command();
          if blobs && counts {
            listed := Assemble(ids);
            if agreed { AgreeLists(redis, Mirror(), listed); }
            return;
          }
        }
        Degrade();
      }
      listed := fallback.List();
    }

    /** The records of `ids` that are there, each with its live in-flight count. */
    method Assemble(ids: set<NodeId>) returns (listed: seq<NodeRecord>)
      ensures ListsExactly(redis, ids, listed)
    {
      listed := [];
      var rest := ids;
      ghost var taken: seq<NodeId> := [];
      while rest != {}
        invariant rest <= ids
        invariant |taken| == |listed|
        invariant forall i | 0 <= i < |taken| ::
            taken[i] in ids - rest && ReadRecord(redis, taken[i]) == Some(listed[i])
        invariant forall i, j | 0 <= i < j < |taken| :: taken[i] != taken[j]
        invariant forall id | id in ids - rest && ReadRecord(redis, id).Some? :: id in taken
        decreases |rest|
      {
        var id :| id in rest;
        rest := rest - {id};
        var record := ReadRecord(redis, id);
        if record.Some? {
          listed := listed + [record.value];
          taken := taken + [id];
        }
      }
      assert ListedFrom(redis, ids, listed, taken);
    }

    method Remove(id: NodeId)
      requires Valid()
      modifies this`connected, this`degraded, this`warnings, this`faults, this`redis, fallback
      ensures Valid() && Mirror() == Apply(old(Mirror()), Op.Remove(id))
      ensures connected ==> old(connected) && redis == Commands(old(redis), Op.Remove(id))
      ensures old(InSync()) ==> InSync()
      ensures AllAnswer(old(faults)) ==> connected == old(connected) && AllAnswer(faults)
    {
      KeepsAgreement(redis, Mirror(), Op.Remove(id));
      fallback.Remove(id);
      if !connected { return; }
      var deleted := Write(redis.(records := redis.records - {id}, windows := redis.windows - {id},
                                  counts := redis.counts - {id}));
      if !deleted { Degrade(); return; }
      var unindexed := Write(redis.(index := redis.index - {id}));
      if !unindexed { Degrade(); }
    }

    method RecordOutcome(id: NodeId, o: Reported)
      requires Valid()
      modifies this`connected, this`degraded, this`warnings, this`faults, this`redis, fallback
      ensures Valid() && Mirror() == Apply(old(Mirror()), Op.RecordOutcome(id, o))
      ensures connected ==> old(connected) && redis == Commands(old(redis), Op.RecordOutcome(id, o))
      ensures old(InSync()) ==> InSync()
      ensures AllAnswer(old(faults)) ==> connected == old(connected) && AllAnswer(faults)
    {
      KeepsAgreement(redis, Mirror(), Op.RecordOutcome(id, o));
      hide NormalizeOutcome, Scored, Apply, Agree, ReadWindow, RawWindow, Head;
      fallback.RecordOutcome(id, o);
      if !connected { return; }
      var got, record := GetRecord(id);
      if !got { Degrade(); return; }
      if record.None? { return; }
      var pushed, window := PushOutcome(id, NormalizeOutcome(o));
      if !pushed { Degrade(); return; }
      var stored := Write(redis.(records := redis.records[id := Scored(record.value, window)]));
      if !stored { Degrade(); }
    }

    /** Newest first, trimmed to the bound, and read back oldest first. */
    method PushOutcome(id: NodeId, o: Outcome) returns (ok: bool, window: seq<Outcome>)
      modifies this`faults, this`redis
      ensures ok ==>
        && redis == old(redis).(windows := old(redis).windows[id := Head([o] + RawWindow(old(redis), id))])
        && window == ReadWindow(redis, id)
      ensures AllAnswer(old(faults)) ==> ok && AllAnswer(faults)
    {
      ok, window := false, [];
      var pushed := Write(redis.(windows := redis.windows[id := [o] + RawWindow(redis, id)]));
      if !pushed { return; }
      var trimmed := Write(redis.(windows := redis.windows[id := Head(RawWindow(redis, id))]));
      if !trimmed { return; }
      var raw;
      ok, raw := LRange(id);
      window := Reversed(ParseWindow(raw));
    }

    method BeginRequest(id: NodeId)
      requires Valid()
      modifies this`connected, this`degraded, this`warnings, this`faults, this`redis, fallback
      ensures Valid() && Mirror() == Apply(old(Mirror()), Begin(id))
      ensures connected ==> old(connected) && redis == Commands(old(redis), Begin(id))
      ensures old(InSync()) && WellUsed(old(Mirror()), Begin(id)) ==> InSync()
      ensures AllAnswer(old(faults)) ==> connected == old(connected) && AllAnswer(faults)
    {
      KeepsAgreement(redis, Mirror(), Begin(id));
      fallback.BeginRequest(id);
      if !connected { return; }
      var counted := Write(redis.(counts := redis.counts[id := RawCount(redis, id) + 1]));
      if !counted { Degrade(); }
    }

    method EndRequest(id: NodeId)
      requires Valid()
      modifies this`connected, this`degraded, this`warnings, this`faults, this`redis, fallback
      ensures Valid() && Mirror() == Apply(old(Mirror()), End(id))
      ensures connected ==> old(connected) && redis == Commands(old(redis), End(id))
      ensures old(InSync()) ==> InSync()
      ensures AllAnswer(old(faults)) ==> connected == old(connected) && AllAnswer(faults)
    {
      KeepsAgreement(redis, Mirror(), End(id));
      fallback.EndRequest(id);
      if !connected { return; }
      var remaining := RawCount(redis, id) - 1;
      var counted := Write(redis.(counts := redis.counts[id := remaining]));
      if !counted { Degrade(); return; }
      if remaining < 0 {
        var clamped := Write(redis.(counts := redis.counts[id := 0]));
        if !clamped { Degrade(); }
      }
    }
  }

  lemma {:induction false} KeepsAgreement(k: Keyspace, m: Nodes, op: Op)
    requires KeyedById(m)
    ensures KeyedById(Apply(m, op))
    ensures Agree(k, m) && WellUsed(m, op) ==> Agree(Commands(k, op), Apply(m, op))
  {
    if op.Upsert? { MergedInFlight(RecordOf(m, Id(op.record)), op.record, WindowOf(m, Id(op.record))); }
    hide MergeRecord, DeriveHealth, Slide;
    if Agree(k, m) { CommandsAgreeIff(k, m, op); }
  }

  // ----- listings -----

  ghost predicate ListedFrom(k: Keyspace, ids: set<NodeId>, listed: seq<NodeRecord>, taken: seq<NodeId>) {
    && |taken| == |listed|
    && (forall i | 0 <= i < |taken| :: taken[i] in ids && ReadRecord(k, taken[i]) == Some(listed[i]))
    && (forall i, j | 0 <= i < j < |taken| :: taken[i] != taken[j])
    && (forall id | id in ids && ReadRecord(k, id).Some? :: id in taken)
  }

  ghost predicate ListsExactly(k: Keyspace, ids: set<NodeId>, listed: seq<NodeRecord>) {
    exists taken :: ListedFrom(k, ids, listed, taken)
  }

  lemma {:induction false} EmptyListing(k: Keyspace, m: Nodes)
    requires Agree(k, m) && k.index == {}
    ensures IsListing(m, [])
  {
    forall id ensures id !in m.records { assert AgreeAt(k, m, id); }
  }

  lemma {:induction false} AgreeLists(k: Keyspace, m: Nodes, listed: seq<NodeRecord>)
    requires Agree(k, m) && ListsExactly(k, k.index, listed)
    ensures IsListing(m, listed)
  {
    var taken :| ListedFrom(k, k.index, listed, taken);
    hide ReadRecord;
    forall i | 0 <= i < |listed|
      ensures RecordOf(m, taken[i]) == Some(listed[i]) && Id(listed[i]) == taken[i]
    {
      assert AgreeAt(k, m, taken[i]);
    }
    forall id | id in m.records
      ensures m.records[id] in listed
    {
      assert AgreeAt(k, m, id);
      assert id in taken;
      var i :| 0 <= i < |taken| && taken[i] == id;
      assert listed[i] == m.records[id];
    }
  }

  // ----- whole runs -----

  datatype Call = Do(op: Op) | GetNode(id: NodeId) | ListNodes

  datatype Answer = Done | Found(node: Option<NodeRecord>) | Listed(nodes: set<NodeRecord>)

  function AfterCall(m: Nodes, call: Call): Nodes {
    if call.Do? then Apply(m, call.op) else m
  }

  function AnswerTo(m: Nodes, call: Call): Answer {
    match call
    case Do(_) => Done
    case GetNode(id) => Found(RecordOf(m, id))
    case ListNodes => Listed(m.records.Values)
  }

  predicate WellUsedCall(m: Nodes, call: Call) {
    call.Do? ==> WellUsed(m, call.op)
  }

  /** What a plain in-memory store answers. */
  function Answers(m: Nodes, calls: seq<Call>): seq<Answer>
    decreases |calls|
  {
    if calls == [] then [] else [AnswerTo(m, calls[0])] + Answers(AfterCall(m, calls[0]), calls[1..])
  }

  predicate WellUsedRun(m: Nodes, calls: seq<Call>)
    decreases |calls|
  {
    calls == [] || (WellUsedCall(m, calls[0]) && WellUsedRun(AfterCall(m, calls[0]), calls[1..]))
  }

  lemma {:induction false} ListingIsValues(m: Nodes, listed: seq<NodeRecord>)
    requires IsListing(m, listed)
    ensures (set r | r in listed) == m.records.Values
  {
    forall r | r in m.records.Values
      ensures r in listed
    {
      var id :| id in m.records && m.records[id] == r;
    }
    forall r | r in listed
      ensures r in m.records.Values
    {
      var i :| 0 <= i < |listed| && listed[i] == r;
      assert RecordOf(m, Id(listed[i])) == Some(r);
    }
  }

  method Perform(store: RedisNodeStore, op: Op)
    requires store.Valid() && store.InSync() && WellUsed(store.Mirror(), op)
    modifies store, store.fallback
    ensures store.Valid() && store.InSync() && store.Mirror() == Apply(old(store.Mirror()), op)
    ensures store.connected ==> old(store.connected)
    ensures AllAnswer(old(store.faults)) ==> store.connected == old(store.connected) && AllAnswer(store.faults)
  {
    match op {
      case Upsert(r) => store.Upsert(r);
      case RecordOutcome(id, o) => store.RecordOutcome(id, o);
      case Begin(id) => store.BeginRequest(id);
      case End(id) => store.EndRequest(id);
      case Remove(id) => store.Remove(id);
    }
  }

  method Respond(store: RedisNodeStore, call: Call) returns (answer: Answer)
    requires store.Valid() && store.InSync() && WellUsedCall(store.Mirror(), call)
    modifies store, store.fallback
    ensures store.Valid() && store.InSync() && store.Mirror() == AfterCall(old(store.Mirror()), call)
    ensures answer == AnswerTo(old(store.Mirror()), call)
    ensures store.connected ==> old(store.connected)
    ensures AllAnswer(old(store.faults)) ==> store.connected == old(store.connected) && AllAnswer(store.faults)
  {
    answer := Done;
    match call {
      case Do(op) =>
        Perform(store, op);
      case GetNode(id) =>
        var node := store.Get(id);
        answer := Found(node);
      case ListNodes =>
        var listed := store.List();
        ListingIsValues(store.Mirror(), listed);
        answer := Listed(set r | r in listed);
    }
  }

  lemma {:induction false} FirstCall(m: Nodes, calls: seq<Call>, i: nat)
    requires i < |calls|
    ensures Answers(m, calls[i..]) == [AnswerTo(m, calls[i])] + Answers(AfterCall(m, calls[i]), calls[i + 1..])
    ensures WellUsedRun(m, calls[i..])
      <==> WellUsedCall(m, calls[i]) && WellUsedRun(AfterCall(m, calls[i]), calls[i + 1..])
  {
    assert calls[i..][0] == calls[i] && calls[i..][1..] == calls[i + 1..];
  }

  /**
   * Every run, with Redis failing at whichever command it likes, gives the answers the plain
   * in-memory store gives; and if every command answers, Redis is still in use at the end.
   */
  method Serve(calls: seq<Call>, reachable: bool, faults: seq<Fault>) returns (seen: seq<Answer>, connected: bool)
    requires WellUsedRun(NO_NODES, calls)
    ensures seen == Answers(NO_NODES, calls)
    ensures reachable && AllAnswer(faults) ==> connected
    ensures !reachable ==> !connected
  {
    hide Answers, WellUsedRun, AfterCall, AnswerTo, WellUsedCall;
    var store := new RedisNodeStore(reachable, faults);
    var _ := store.Connect();
    seen := [];
    assert calls[0..] == calls;
    for i := 0 to |calls|
      invariant store.Valid() && store.InSync() && fresh(store) && fresh(store.fallback)
      invariant WellUsedRun(store.Mirror(), calls[i..])
      invariant seen + Answers(store.Mirror(), calls[i..]) == Answers(NO_NODES, calls)
      invariant reachable && AllAnswer(faults) ==> store.connected && AllAnswer(store.faults)
      invariant store.connected ==> reachable
    {
      FirstCall(store.Mirror(), calls, i);
      var answer := Respond(store, calls[i]);
      seen := seen + [answer];
    }
    NoCallsLeft(store.Mirror(), calls);
    connected := store.connected;
  }

  lemma {:induction false} NoCallsLeft(m: Nodes, calls: seq<Call>)
    ensures Answers(m, calls[|calls|..]) == []
  {}
}
