/** The concurrency limit of a node: permits, single-use releases, and a first-in first-out queue. */
module Semaphore {
  import opened Prelude

  /** What became of one request for a permit. `handle` names the release it was given. */
  datatype Outcome = Waiting | Granted(handle: nat) | Refused | Aborted

  /**
   * `requests[i]` is the outcome of the i-th request, `waiters` the queued requests in order, and
   * `released[h]` whether release `h` has been used.
   */
  datatype State = State(
    permits: nat, active: nat, waiters: seq<nat>, requests: seq<Outcome>, released: seq<bool>)

  function Fresh(permits: nat): State {
    State(permits, 0, [], [], [])
  }

  predicate Saturated(s: State) {
    s.active >= s.permits
  }

  /** Request a permit that is free now, or be told there is none. */
  function TryAcquired(s: State): State {
    if Saturated(s) then s.(requests := s.requests + [Refused])
    else
      s.(active := s.active + 1, requests := s.requests + [Granted(|s.released|)],
         released := s.released + [false])
  }

  /** Request a permit and queue for it; `aborted` is whether the signal had fired already. */
  function Acquired(s: State, aborted: bool): State {
    if !Saturated(s) then TryAcquired(s)
    else if aborted then s.(requests := s.requests + [Aborted])
    else s.(requests := s.requests + [Waiting], waiters := s.waiters + [|s.requests|])
  }

  function Without(ws: seq<nat>, w: nat): (r: seq<nat>)
    ensures forall x | x in r :: x in ws
    ensures w !in ws ==> r == ws
  {
    if ws == [] then [] else if ws[0] == w then ws[1..] else [ws[0]] + Without(ws[1..], w)
  }

  /** The signal of a request fires: it matters only while the request is queued. */
  function AbortedAt(s: State, w: nat): State {
    if w in s.waiters && w < |s.requests|
    then s.(waiters := Without(s.waiters, w), requests := s.requests[w := Aborted])
    else s
  }

  /** A release is called: the permit goes straight to the first waiter, or back to the pool. */
  function ReleasedBy(s: State, h: nat): State {
    if h >= |s.released| || s.released[h] then s
    else
      var used := s.released[h := true];
      if s.waiters == [] then s.(released := used, active := if s.active > 0 then s.active - 1 else 0)
      else if s.waiters[0] >= |s.requests| then s.(released := used, waiters := s.waiters[1..])
      else
        s.(released := used + [false], waiters := s.waiters[1..],
           requests := s.requests[s.waiters[0] := Granted(|used|)])
  }

  // ----- the object -----

  class Semaphore {
    const permits: nat
    var active: nat
    var waiters: seq<nat>
    var requests: seq<Outcome>
    var released: seq<bool>

    function Contents(): State
      reads this
    {
      State(permits, active, waiters, requests, released)
    }

    constructor (permits: nat)
      requires permits > 0
      ensures Contents() == Fresh(permits) && Inv(Contents())
    {
      this.permits, active, waiters, requests, released := permits, 0, [], [], [];
    }

    method MakeRelease() returns (h: nat)
      modifies this`released
      ensures h == old(|released|) && released == old(released) + [false]
    {
      h := |released|;
      released := released + [false];
    }

    method TryAcquire() returns (release: Option<nat>)
      modifies this
      ensures Contents() == TryAcquired(old(Contents()))
      ensures release == if old(active) >= permits then None else Some(old(|released|))
    {
      if active >= permits {
        requests := requests + [Refused];
        return None;
      }
      active := active + 1;
      var h := MakeRelease();
      requests := requests + [Granted(h)];
      release := Some(h);
    }

    method Acquire(aborted: bool) returns (ticket: nat)
      modifies this
      ensures Contents() == Acquired(old(Contents()), aborted) && ticket == old(|requests|)
    {
      ticket := |requests|;
      if active < permits {
        var immediate := TryAcquire();
        return;
      }
      if aborted {
        requests := requests + [Aborted];
        return;
      }
      requests := requests + [Waiting];
      waiters := waiters + [ticket];
    }

    method Abort(w: nat)
      requires Inv(Contents())
      modifies this
      ensures Contents() == AbortedAt(old(Contents()), w)
    {
      if w in waiters {
        waiters := Without(waiters, w);
        requests := requests[w := Aborted];
      }
    }

    method Release(h: nat)
      requires Inv(Contents()) && h < |released|
      modifies this
      ensures Contents() == ReleasedBy(old(Contents()), h)
    {
      if released[h] { return; }
      HeldPositive(released, h);
      released := released[h := true];
      if |waiters| > 0 {
        var w := waiters[0];
        FirstServed(waiters, requests, |released|);
        waiters := waiters[1..];
        var next := MakeRelease();
        requests := requests[w := Granted(next)];
        return;
      }
      active := active - 1;
    }
  }

  // ----- the invariant -----

  function Held(released: seq<bool>): nat {
    if released == [] then 0
    else Held(released[..|released| - 1]) + (if released[|released| - 1] then 0 else 1)
  }

  predicate Ascending(ws: seq<nat>) {
    forall i, j | 0 <= i < j < |ws| :: ws[i] < ws[j]
  }

  /** The queue holds exactly the waiting requests, longest waiting first. */
  ghost predicate QueueOk(ws: seq<nat>, requests: seq<Outcome>) {
    && Ascending(ws)
    && (forall i | 0 <= i < |ws| :: ws[i] < |requests| && requests[ws[i]] == Waiting)
    && (forall w | 0 <= w < |requests| && requests[w] == Waiting :: w in ws)
  }

  ghost predicate NoneOvertaken(requests: seq<Outcome>) {
    forall v, w | 0 <= v < w < |requests| && requests[v] == Waiting :: !requests[w].Granted?
  }

  ghost predicate Inv(s: State) {
    && s.permits > 0
    && s.active == Held(s.released) <= s.permits
    && (s.waiters != [] ==> s.active == s.permits)
    && QueueOk(s.waiters, s.requests)
    && NoneOvertaken(s.requests)
  }

  lemma {:induction false} HeldUpdate(released: seq<bool>, h: nat)
    requires h < |released| && !released[h]
    ensures Held(released[h := true]) == Held(released) - 1
  {
    var front := released[..|released| - 1];
    if h == |released| - 1 {
      assert released[h := true][..|released| - 1] == front;
    } else {
      assert released[h := true][..|released| - 1] == front[h := true];
      HeldUpdate(front, h);
    }
  }

  lemma {:induction false} HeldPositive(released: seq<bool>, h: nat)
    requires h < |released| && !released[h]
    ensures Held(released) > 0
  {
    HeldUpdate(released, h);
  }

  lemma {:induction false} HeldAppend(released: seq<bool>)
    ensures Held(released + [false]) == Held(released) + 1
  {
    assert (released + [false])[..|released|] == released;
  }

  lemma {:induction false} NobodyWaits(requests: seq<Outcome>, o: Outcome)
    requires QueueOk([], requests) && o != Waiting
    ensures QueueOk([], requests + [o]) && NoneOvertaken(requests + [o])
  {}

  lemma {:induction false} OneMoreRequest(ws: seq<nat>, requests: seq<Outcome>, o: Outcome)
    requires QueueOk(ws, requests) && NoneOvertaken(requests) && !o.Granted?
    ensures QueueOk(if o == Waiting then ws + [|requests|] else ws, requests + [o])
    ensures NoneOvertaken(requests + [o])
  {
    var more := if o == Waiting then ws + [|requests|] else ws;
    forall w | 0 <= w < |requests + [o]| && (requests + [o])[w] == Waiting
      ensures w in more
    {
      if w < |requests| { assert requests[w] == Waiting; } else { assert more[|ws|] == w; }
    }
  }

  lemma {:induction false} TryAcquireInv(s: State)
    requires Inv(s)
    ensures Inv(TryAcquired(s))
  {
    HeldAppend(s.released);
    if Saturated(s) {
      OneMoreRequest(s.waiters, s.requests, Refused);
    } else {
      NobodyWaits(s.requests, Granted(|s.released|));
    }
    hide Held, QueueOk, NoneOvertaken;
  }

  lemma {:induction false} AcquireInv(s: State, aborted: bool)
    requires Inv(s)
    ensures Inv(Acquired(s, aborted))
  {
    hide Held, QueueOk, NoneOvertaken;
    if !Saturated(s) {
      TryAcquireInv(s);
    } else {
      OneMoreRequest(s.waiters, s.requests, if aborted then Aborted else Waiting);
    }
  }

  lemma {:induction false} AscendingCons(x: nat, t: seq<nat>)
    ensures Ascending([x] + t) <==> Ascending(t) && forall y | y in t :: x < y
  {
    var s := [x] + t;
    if Ascending(s) {
      forall y | y in t
        ensures x < y
      {
        var i :| 0 <= i < |t| && t[i] == y;
        assert s[0] < s[i + 1];
      }
      forall i, j | 0 <= i < j < |t|
        ensures t[i] < t[j]
      {
        assert s[i + 1] < s[j + 1];
      }
    }
    if Ascending(t) && forall y | y in t :: x < y {
      forall i, j | 0 <= i < j < |s|
        ensures s[i] < s[j]
      {
        assert s[j] == t[j - 1] && t[j - 1] in t;
        if i > 0 { assert s[i] == t[i - 1]; }
      }
    }
  }

  lemma {:induction false} WithoutAscending(ws: seq<nat>, w: nat)
    requires Ascending(ws)
    ensures Ascending(Without(ws, w))
    ensures forall x :: x in Without(ws, w) <==> x in ws && x != w
  {
    if ws != [] {
      assert ws == [ws[0]] + ws[1..];
      AscendingCons(ws[0], ws[1..]);
      hide Ascending;
      WithoutAscending(ws[1..], w);
      AscendingCons(ws[0], Without(ws[1..], w));
    }
  }

  lemma {:induction false} LeavesQueue(ws: seq<nat>, requests: seq<Outcome>, w: nat)
    requires QueueOk(ws, requests) && NoneOvertaken(requests) && w in ws
    ensures w < |requests|
    ensures QueueOk(Without(ws, w), requests[w := Aborted]) && NoneOvertaken(requests[w := Aborted])
  {
    WithoutAscending(ws, w);
    var rest := Without(ws, w);
    forall i | 0 <= i < |rest|
      ensures rest[i] < |requests| && rest[i] != w && requests[rest[i]] == Waiting
    {
      assert rest[i] in rest && rest[i] in ws;
    }
  }

  lemma {:induction false} AbortInv(s: State, w: nat)
    requires Inv(s)
    ensures Inv(AbortedAt(s, w))
  {
    hide Held, QueueOk, NoneOvertaken;
    if w in s.waiters { LeavesQueue(s.waiters, s.requests, w); }
  }

  lemma {:induction false} FirstServed(ws: seq<nat>, requests: seq<Outcome>, h: nat)
    requires QueueOk(ws, requests) && NoneOvertaken(requests) && ws != []
    ensures ws[0] < |requests| && requests[ws[0]] == Waiting
    ensures QueueOk(ws[1..], requests[ws[0] := Granted(h)])
    ensures NoneOvertaken(requests[ws[0] := Granted(h)])
    ensures forall v | 0 <= v < |requests| && requests[v] == Waiting :: ws[0] <= v
  {
    var w := ws[0];
    assert ws == [w] + ws[1..];
    forall v | 0 <= v < |requests| && requests[v] == Waiting
      ensures w <= v
    {
      var i :| 0 <= i < |ws| && ws[i] == v;
    }
  }

  lemma {:induction false} HandedOverInv(s: State, h: nat)
    requires Inv(s) && h < |s.released| && !s.released[h] && s.waiters != []
    ensures Inv(ReleasedBy(s, h))
  {
    HeldUpdate(s.released, h);
    HeldAppend(s.released[h := true]);
    hide Held, QueueOk, NoneOvertaken;
    FirstServed(s.waiters, s.requests, |s.released|);
  }

  lemma {:induction false} ReleaseInv(s: State, h: nat)
    requires Inv(s)
    ensures Inv(ReleasedBy(s, h))
  {
    if h < |s.released| && !s.released[h] {
      if s.waiters != [] {
        HandedOverInv(s, h);
      } else {
        HeldUpdate(s.released, h);
        hide Held, QueueOk, NoneOvertaken;
      }
    }
  }

  // ----- whole runs -----

  datatype Op = TryAcquire | Acquire(aborted: bool) | Abort(request: nat) | Release(handle: nat)

  function Step(s: State, op: Op): State {
    match op
    case TryAcquire => TryAcquired(s)
    case Acquire(aborted) => Acquired(s, aborted)
    case Abort(w) => AbortedAt(s, w)
    case Release(h) => ReleasedBy(s, h)
  }

  function Run(s: State, ops: seq<Op>): State
    decreases |ops|
  {
    if ops == [] then s else Run(Step(s, ops[0]), ops[1..])
  }

  lemma {:induction false} StepInv(s: State, op: Op)
    requires Inv(s)
    ensures Inv(Step(s, op))
  {
    hide Inv;
    match op
    case TryAcquire => TryAcquireInv(s);
    case Acquire(aborted) => AcquireInv(s, aborted);
    case Abort(w) => AbortInv(s, w);
    case Release(h) => ReleaseInv(s, h);
  }

  lemma {:induction false} RunInv(s: State, ops: seq<Op>)
    requires Inv(s)
    ensures Inv(Run(s, ops))
    decreases |ops|
  {
    hide Inv, Step;
    if ops != [] {
      StepInv(s, ops[0]);
      RunInv(Step(s, ops[0]), ops[1..]);
    }
  }

  /**
   * Over every run: the permits held are exactly the releases granted and not yet used, never
   * more than the limit; somebody waits only while every permit is held; and as long as a request
   * waits, no request made after it has been granted, by either way of asking.
   */
  lemma {:induction false} NeverOverLimitNeverOvertaken(permits: nat, ops: seq<Op>)
    requires permits > 0
    ensures var s := Run(Fresh(permits), ops);
      && s.active == Held(s.released) <= permits
      && ((exists w :: 0 <= w < |s.requests| && s.requests[w] == Waiting) ==> s.active == permits)
      && NoneOvertaken(s.requests)
  {
    hide Run;
    RunInv(Fresh(permits), ops);
    RunPermits(Fresh(permits), ops);
  }

  lemma {:induction false} RunPermits(s: State, ops: seq<Op>)
    ensures Run(s, ops).permits == s.permits
    decreases |ops|
  {
    if ops != [] { RunPermits(Step(s, ops[0]), ops[1..]); }
  }

  lemma {:induction false} UsedStaysUsed(s: State, op: Op, h: nat)
    requires h < |s.released| && s.released[h]
    ensures h < |Step(s, op).released| && Step(s, op).released[h]
  {}

  /** However much happens in between, the second call of a release changes nothing. */
  lemma {:induction false} SecondReleaseIsIdle(s: State, h: nat, ops: seq<Op>)
    requires h < |s.released| && s.released[h]
    ensures ReleasedBy(Run(s, ops), h) == Run(s, ops)
    ensures h < |Run(s, ops).released| && Run(s, ops).released[h]
    decreases |ops|
  {
    if ops != [] {
      UsedStaysUsed(s, ops[0], h);
      hide Step;
      SecondReleaseIsIdle(Step(s, ops[0]), h, ops[1..]);
    }
  }

  /** A used permit reaches the longest waiting request at once, and no other. */
  lemma {:induction false} FirstWaiterIsServed(s: State, h: nat)
    requires Inv(s) && h < |s.released| && !s.released[h]
    ensures s.waiters != [] ==> s.waiters[0] < |s.requests|
    ensures var s' := ReleasedBy(s, h);
      if s.waiters == [] then s'.active == s.active - 1 && s'.requests == s.requests
      else
        var w := s.waiters[0];
        && s'.active == s.active
        && s'.requests == s.requests[w := Granted(|s.released|)] && !s'.released[|s.released|]
        && (forall v | 0 <= v < |s.requests| && s.requests[v] == Waiting :: w <= v)
  {
    HeldPositive(s.released, h);
    hide Held, QueueOk, NoneOvertaken;
    if s.waiters != [] { FirstServed(s.waiters, s.requests, |s.released|); }
  }

  /**
   * After any run, a request is granted at once exactly if a permit is free, with a release of its
   * own that has not been used. Otherwise it is refused, or turned away by its signal, or queued.
   */
  lemma {:induction false} GrantedExactlyWhenFree(permits: nat, ops: seq<Op>, op: Op)
    requires permits > 0 && (op.TryAcquire? || op.Acquire?)
    ensures var s := Run(Fresh(permits), ops); var s' := Step(s, op);
      && |s'.requests| == |s.requests| + 1 && s'.requests[..|s.requests|] == s.requests
      && var o := s'.requests[|s.requests|];
      && (Held(s.released) < permits ==>
            o == Granted(|s.released|) && s'.released == s.released + [false] && s'.waiters == s.waiters)
      && (Held(s.released) >= permits ==>
            && s'.released == s.released
            && o == (if op.TryAcquire? then Refused else if op.aborted then Aborted else Waiting)
            && s'.waiters == (if o == Waiting then s.waiters + [|s.requests|] else s.waiters))
  {
    RunInv(Fresh(permits), ops);
    RunPermits(Fresh(permits), ops);
    hide Run, Held, QueueOk, NoneOvertaken;
  }

  /** A signal takes its request out of the queue, and changes nothing for any other request. */
  lemma {:induction false} AbortTakesOut(s: State, w: nat)
    requires Inv(s)
    ensures var s' := AbortedAt(s, w);
      if w < |s.requests| && s.requests[w] == Waiting then
        && s'.requests == s.requests[w := Aborted] && w !in s'.waiters
        && (forall v | v != w :: v in s'.waiters <==> v in s.waiters) && Ascending(s'.waiters)
        && s'.active == s.active && s'.released == s.released
      else s' == s
  {
    hide Held, NoneOvertaken, Ascending;
    assert Ascending(s.waiters) && (w in s.waiters <==> w < |s.requests| && s.requests[w] == Waiting);
    WithoutAscending(s.waiters, w);
  }

  /** Every release belongs to the one request it was granted to. */
  ghost predicate OwnReleases(s: State) {
    && (forall v | 0 <= v < |s.requests| && s.requests[v].Granted? :: s.requests[v].handle < |s.released|)
    && (forall v, w | 0 <= v < w < |s.requests| && s.requests[v].Granted? && s.requests[w].Granted? ::
          s.requests[v].handle != s.requests[w].handle)
  }

  lemma {:induction false} StepOwnReleases(s: State, op: Op)
    requires Inv(s) && OwnReleases(s)
    ensures OwnReleases(Step(s, op))
  {
    hide Held, NoneOvertaken, Ascending;
  }

  /** Over every run, no two requests are ever given the same release. */
  lemma {:induction false} NoReleaseShared(permits: nat, ops: seq<Op>)
    requires permits > 0
    ensures OwnReleases(Run(Fresh(permits), ops))
  {
    RunOwnReleases(Fresh(permits), ops);
  }

  lemma {:induction false} RunOwnReleases(s: State, ops: seq<Op>)
    requires Inv(s) && OwnReleases(s)
    ensures OwnReleases(Run(s, ops))
    decreases |ops|
  {
    hide Inv, Step, OwnReleases;
    if ops != [] {
      StepInv(s, ops[0]);
      StepOwnReleases(s, ops[0]);
      RunOwnReleases(Step(s, ops[0]), ops[1..]);
    }
  }
}
