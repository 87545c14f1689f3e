/** An in-memory token bucket per key, with least-recently-used eviction. */
module RateLimit {
  import opened Prelude
  import opened InsertionMap
  import opened NodeHealth

  /** Tokens as exact reals; times in milliseconds. */
  datatype Bucket = Bucket(tokens: real, updatedAt: int)

  datatype Limits = Limits(capacity: real, refillPerSecond: real, maxKeys: nat)

  predicate Usable(c: Limits) {
    c.capacity > 0.0 && c.refillPerSecond > 0.0
  }

  datatype Answer = Admitted(remaining: int) | Rejected(retryAfterSeconds: int)

  type Buckets = seq<(string, Bucket)>

  function Refill(elapsedMs: int, c: Limits): real {
    (if elapsedMs > 0 then elapsedMs as real else 0.0) / 1000.0 * c.refillPerSecond
  }

  function Refilled(b: Bucket, at: int, c: Limits): Bucket {
    var tokens := b.tokens + Refill(at - b.updatedAt, c);
    Bucket(if tokens > c.capacity then c.capacity else tokens, at)
  }

  /** The key's bucket as this request finds it. */
  function Current(m: Buckets, key: string, at: int, c: Limits): Bucket {
    match Find(m, key)
    case None => Bucket(c.capacity, at)
    case Some(b) => Refilled(b, at, c)
  }

  function WaitSeconds(tokens: real, c: Limits): int
    requires Usable(c)
  {
    var whole := Ceil((1.0 - tokens) / c.refillPerSecond);
    if whole < 1 then 1 else whole
  }

  function Answered(m: Buckets, key: string, at: int, c: Limits): Answer
    requires Usable(c)
  {
    var b := Current(m, key, at, c);
    if b.tokens < 1.0 then Rejected(WaitSeconds(b.tokens, c)) else Admitted((b.tokens - 1.0).Floor)
  }

  /** Re-inserted last: insertion order is recency. */
  function Touched(m: Buckets, key: string, b: Bucket): Buckets {
    Put(Remove(m, key), key, b)
  }

  function Handled(m: Buckets, key: string, at: int, c: Limits): Buckets {
    var b := Current(m, key, at, c);
    if b.tokens < 1.0 then Touched(m, key, b)
    else
      var spent := Touched(m, key, Bucket(b.tokens - 1.0, b.updatedAt));
      if |spent| > c.maxKeys then spent[1..] else spent
  }

  class RateLimiter {
    const limits: Limits
    var buckets: Buckets

    constructor (limits: Limits)
      requires Usable(limits)
      ensures this.limits == limits && buckets == []
    {
      this.limits, buckets := limits, [];
    }

    method Handle(key: string, at: int) returns (answer: Answer)
      requires Usable(limits)
      modifies this
      ensures answer == Answered(old(buckets), key, at, limits)
      ensures buckets == Handled(old(buckets), key, at, limits)
    {
      var found := Find(buckets, key);
      var bucket := Bucket(limits.capacity, at);
      if found.Some? {
        buckets := Remove(buckets, key);
        bucket := Refilled(found.value, at, limits);
      } else {
        RemoveAbsent(buckets, key);
      }
      if bucket.tokens < 1.0 {
        buckets := Put(buckets, key, bucket);
        return Rejected(WaitSeconds(bucket.tokens, limits));
      }
      bucket := bucket.(tokens := bucket.tokens - 1.0);
      buckets := Put(buckets, key, bucket);
      if |buckets| > limits.maxKeys { buckets := buckets[1..]; }
      answer := Admitted(bucket.tokens.Floor);
    }
  }

  lemma {:induction false} RemoveAbsent(m: Buckets, key: string)
    requires key !in KeySet(m)
    ensures Remove(m, key) == m
  {
    if m != [] { RemoveAbsent(m[1..], key); }
  }

  // ----- one request -----

  lemma {:induction false} TouchedIsLast(m: Buckets, key: string, b: Bucket)
    requires Unique(m)
    ensures Touched(m, key, b) == Remove(m, key) + [(key, b)]
    ensures Unique(Touched(m, key, b)) && KeySet(Touched(m, key, b)) == KeySet(m) + {key}
    ensures |Touched(m, key, b)| == if key in KeySet(m) then |m| else |m| + 1
  {
    PutAbsent(Remove(m, key), key, b);
    RemoveElsewhere(m, key, key);
  }

  /** The bucket `key` is left with, before any eviction. */
  function Left(m: Buckets, key: string, at: int, c: Limits): Bucket {
    var b := Current(m, key, at, c);
    if b.tokens < 1.0 then b else Bucket(b.tokens - 1.0, b.updatedAt)
  }

  lemma {:induction false} HandledShape(m: Buckets, key: string, at: int, c: Limits)
    requires Unique(m)
    ensures var t := Touched(m, key, Left(m, key, at, c));
      && t == Remove(m, key) + [(key, Left(m, key, at, c))]
      && (Handled(m, key, at, c) == t
          || (|t| > c.maxKeys && Current(m, key, at, c).tokens >= 1.0 && Handled(m, key, at, c) == t[1..]))
      && Unique(Handled(m, key, at, c))
  {
    TouchedIsLast(m, key, Left(m, key, at, c));
    hide Current;
  }

  lemma {:induction false} FindAfterDrop(m: Buckets, key: string)
    requires Unique(m) && m != [] && key in KeySet(m[1..])
    ensures Find(m[1..], key) == Find(m, key)
  {}

  /** The key served: if it is still there, with what this request left it. */
  lemma {:induction false} ServedKey(m: Buckets, key: string, at: int, c: Limits)
    requires Unique(m)
    ensures key in KeySet(Handled(m, key, at, c)) ==> Find(Handled(m, key, at, c), key) == Some(Left(m, key, at, c))
  {
    HandledShape(m, key, at, c);
    var t := Touched(m, key, Left(m, key, at, c));
    TouchedIsLast(m, key, Left(m, key, at, c));
    hide Current, Handled, Left;
    if Handled(m, key, at, c) == t[1..] && key in KeySet(t[1..]) { FindAfterDrop(t, key); }
  }

  /** Any other key: untouched, unless it is evicted. */
  lemma {:induction false} OtherKey(m: Buckets, key: string, at: int, c: Limits, other: string)
    requires Unique(m) && other != key
    ensures other in KeySet(Handled(m, key, at, c)) ==>
      other in KeySet(m) && Find(Handled(m, key, at, c), other) == Find(m, other)
  {
    HandledShape(m, key, at, c);
    var b := Left(m, key, at, c);
    var t := Touched(m, key, b);
    TouchedIsLast(m, key, b);
    RemoveElsewhere(m, key, other);
    PutElsewhere(Remove(m, key), key, b, other);
    hide Current, Handled, Left;
    if Handled(m, key, at, c) == t[1..] && other in KeySet(t[1..]) {
      FindAfterDrop(t, other);
      assert KeySet(t[1..]) <= KeySet(t);
    }
  }

  // ----- runs -----

  datatype Request = Request(key: string, at: int)

  function Run(m: Buckets, rs: seq<Request>, c: Limits): Buckets
    decreases |rs|
  {
    if rs == [] then m else Run(Handled(m, rs[0].key, rs[0].at, c), rs[1..], c)
  }

  /** How many of the run's requests for `key` are admitted. */
  function AdmittedFor(m: Buckets, rs: seq<Request>, key: string, c: Limits): nat
    requires Usable(c)
    decreases |rs|
  {
    if rs == [] then 0
    else
      (if rs[0].key == key && Answered(m, key, rs[0].at, c).Admitted? then 1 else 0)
      + AdmittedFor(Handled(m, rs[0].key, rs[0].at, c), rs[1..], key, c)
  }

  ghost predicate InTime(rs: seq<Request>, start: int, end: int) {
    && (forall i | 0 <= i < |rs| :: start <= rs[i].at <= end)
    && (forall i, j | 0 <= i < j < |rs| :: rs[i].at <= rs[j].at)
  }

  /** `key` has a bucket after every request of the run. */
  ghost predicate Kept(m: Buckets, rs: seq<Request>, key: string, c: Limits)
    decreases |rs|
  {
    rs == [] || (key in KeySet(Handled(m, rs[0].key, rs[0].at, c))
                 && Kept(Handled(m, rs[0].key, rs[0].at, c), rs[1..], key, c))
  }

  lemma {:induction false} RefillAdds(a: int, b: int, d: int, c: Limits)
    requires a <= b <= d
    ensures Refill(b - a, c) + Refill(d - b, c) == Refill(d - a, c)
  {
    var x, y := (b - a) as real / 1000.0, (d - b) as real / 1000.0;
    assert (d - a) as real / 1000.0 == x + y;
    assert x * c.refillPerSecond + y * c.refillPerSecond == (x + y) * c.refillPerSecond;
  }

  lemma {:induction false} RefillNonNegative(e: int, c: Limits)
    requires Usable(c)
    ensures Refill(e, c) >= 0.0
  {}

  /** Buckets never go below zero. */
  ghost predicate Solvent(m: Buckets) {
    forall k, b | Find(m, k) == Some(b) :: b.tokens >= 0.0
  }

  /** What one request takes out of a bucket never exceeds what was in it plus what flowed in. */
  lemma {:induction false} OneRequest(m: Buckets, key: string, at: int, c: Limits, b: Bucket)
    requires Usable(c) && Find(m, key) == Some(b) && b.tokens >= 0.0
    ensures var left := Left(m, key, at, c);
      && left.tokens >= 0.0 && left.updatedAt == at
      && left.tokens + (if Answered(m, key, at, c).Admitted? then 1.0 else 0.0)
         <= b.tokens + Refill(at - b.updatedAt, c)
  {
    RefillNonNegative(at - b.updatedAt, c);
    hide Refill, WaitSeconds;
  }

  lemma {:induction false} InTimeTail(rs: seq<Request>, start: int, end: int)
    requires InTime(rs, start, end) && rs != []
    ensures start <= rs[0].at <= end && InTime(rs[1..], rs[0].at, end)
  {}

  /** From a bucket on: never more admissions than its tokens plus what flows in. */
  lemma {:induction false} AtMostTokens(
      m: Buckets, rs: seq<Request>, key: string, c: Limits, b: Bucket, start: int, end: int)
    requires Usable(c) && Unique(m) && Find(m, key) == Some(b) && b.tokens >= 0.0
    requires InTime(rs, start, end) && b.updatedAt <= start <= end
    requires Kept(m, rs, key, c)
    ensures (AdmittedFor(m, rs, key, c) as real) <= b.tokens + Refill(end - b.updatedAt, c)
    decreases |rs|
  {
    hide Handled, Refill, Current, Left, Answered, InTime, Unique, Find;
    if rs == [] {
      RefillNonNegative(end - b.updatedAt, c);
    } else {
      var r := rs[0];
      var next := Handled(m, r.key, r.at, c);
      HandledShape(m, r.key, r.at, c);
      InTimeTail(rs, start, end);
      if r.key == key {
        ServedKey(m, key, r.at, c);
        OneRequest(m, key, r.at, c, b);
        AtMostTokens(next, rs[1..], key, c, Left(m, key, r.at, c), r.at, end);
        RefillAdds(b.updatedAt, r.at, end, c);
      } else {
        OtherKey(m, r.key, r.at, c, key);
        AtMostTokens(next, rs[1..], key, c, b, r.at, end);
      }
    }
  }

  /** Once the run has served `key`, it keeps a bucket to the end. */
  ghost predicate KeptOnceServed(m: Buckets, rs: seq<Request>, key: string, c: Limits)
    decreases |rs|
  {
    rs == [] ||
      var next := Handled(m, rs[0].key, rs[0].at, c);
      if rs[0].key == key then key in KeySet(next) && Kept(next, rs[1..], key, c)
      else KeptOnceServed(next, rs[1..], key, c)
  }

  lemma {:induction false} WindowRefills(m: Buckets, rs: seq<Request>, key: string, c: Limits, start: int, end: int)
    requires Usable(c) && Unique(m) && Solvent(m)
    requires InTime(rs, start, end) && start <= end
    requires KeptOnceServed(m, rs, key, c)
    ensures (AdmittedFor(m, rs, key, c) as real) <= c.capacity + Refill(end - start, c)
    decreases |rs|
  {
    RefillNonNegative(end - start, c);
    hide Handled, Refill, Current, Left, Answered, InTime, Unique, Find, Solvent, KeySet, Kept;
    if rs != [] {
      var r := rs[0];
      InTimeTail(rs, start, end);
      RefillAdds(start, r.at, end, c);
      RefillNonNegative(r.at - start, c);
      HandledSolvent(m, r.key, r.at, c);
      if r.key == key {
        ServedWindow(m, rs, key, c, end);
      } else {
        WindowRefills(Handled(m, r.key, r.at, c), rs[1..], key, c, r.at, end);
      }
    }
  }

  /**
   * In any window of a run, whoever asks first in it, a key that is not evicted after its first
   * request there is admitted at most the capacity plus the refill rate times the window's length.
   */
  lemma {:induction false} WindowBound(m: Buckets, rs: seq<Request>, key: string, c: Limits, start: int, end: int)
    requires Usable(c) && Unique(m) && Solvent(m)
    requires InTime(rs, start, end) && start <= end
    requires KeptOnceServed(m, rs, key, c)
    ensures (AdmittedFor(m, rs, key, c) as real) <= c.capacity + (end - start) as real / 1000.0 * c.refillPerSecond
  {
    WindowRefills(m, rs, key, c, start, end);
  }

  /** A window that opens with the key's own request. */
  lemma {:induction false} ServedWindow(m: Buckets, rs: seq<Request>, key: string, c: Limits, end: int)
    requires Usable(c) && Unique(m) && Solvent(m)
    requires rs != [] && rs[0].key == key && rs[0].at <= end && InTime(rs[1..], rs[0].at, end)
    requires key in KeySet(Handled(m, key, rs[0].at, c)) && Kept(Handled(m, key, rs[0].at, c), rs[1..], key, c)
    ensures (AdmittedFor(m, rs, key, c) as real) <= c.capacity + Refill(end - rs[0].at, c)
  {
    var at := rs[0].at;
    FirstRequest(m, key, at, c);
    ServedKey(m, key, at, c);
    HandledShape(m, key, at, c);
    hide Handled, Refill, Current, Left, Answered, InTime, Unique, Find, Solvent;
    AtMostTokens(Handled(m, key, at, c), rs[1..], key, c, Left(m, key, at, c), at, end);
  }

  lemma {:induction false} FirstRequest(m: Buckets, key: string, at: int, c: Limits)
    requires Usable(c) && Solvent(m)
    ensures var left := Left(m, key, at, c);
      && left.tokens >= 0.0 && left.updatedAt == at
      && left.tokens + (if Answered(m, key, at, c).Admitted? then 1.0 else 0.0) <= c.capacity
  {
    if Find(m, key).Some? { RefillNonNegative(at - Find(m, key).value.updatedAt, c); }
    hide Refill, WaitSeconds;
  }

  lemma {:induction false} HandledSolvent(m: Buckets, key: string, at: int, c: Limits)
    requires Usable(c) && Unique(m) && Solvent(m)
    ensures Solvent(Handled(m, key, at, c)) && Unique(Handled(m, key, at, c))
  {
    HandledShape(m, key, at, c);
    forall k, b | Find(Handled(m, key, at, c), k) == Some(b)
      ensures b.tokens >= 0.0
    {
      if k == key {
        ServedKey(m, key, at, c);
        if Find(m, key).Some? { RefillNonNegative(at - Find(m, key).value.updatedAt, c); }
      } else {
        OtherKey(m, key, at, c, k);
      }
    }
  }

  // ----- eviction -----

  function Others(rs: seq<Request>, key: string): set<string> {
    set i | 0 <= i < |rs| && rs[i].key != key :: rs[i].key
  }

  /** Entries placed after `key`'s. */
  function Newer(m: Buckets, key: string): Buckets {
    if m == [] then [] else if m[0].0 == key then m[1..] else Newer(m[1..], key)
  }

  lemma {:induction false} NewerOfRemove(m: Buckets, key: string, gone: string)
    requires Unique(m) && gone != key
    ensures KeySet(Newer(Remove(m, gone), key)) <= KeySet(Newer(m, key))
    ensures key in KeySet(Remove(m, gone)) <==> key in KeySet(m)
  {
    if m != [] && m[0].0 != gone {
      if m[0].0 == key {
      } else {
        NewerOfRemove(m[1..], key, gone);
      }
    }
  }

  lemma {:induction false} NewerOfAppend(m: Buckets, e: (string, Bucket), key: string)
    requires key in KeySet(m)
    ensures KeySet(Newer(m + [e], key)) == KeySet(Newer(m, key)) + {e.0}
    ensures key in KeySet(m + [e])
  {
    assert (m + [e])[1..] == m[1..] + [e];
    if m[0].0 == key {
      KeySetAppend(m[1..], e);
    } else {
      NewerOfAppend(m[1..], e, key);
    }
  }

  lemma {:induction false} KeySetAppend(m: Buckets, e: (string, Bucket))
    ensures KeySet(m + [e]) == KeySet(m) + {e.0}
  {
    if m == [] {
      assert m + [e] == [e] && [e][1..] == [];
    } else {
      assert (m + [e])[1..] == m[1..] + [e];
      KeySetAppend(m[1..], e);
    }
  }

  lemma {:induction false} SizeIsKeys(m: Buckets)
    requires Unique(m)
    ensures |m| == |KeySet(m)|
  {
    if m != [] { SizeIsKeys(m[1..]); }
  }

  /** One request for another key evicts `key` only past the cap, and then nothing else is older. */
  lemma {:induction false} NewerStep(m: Buckets, r: Request, key: string, c: Limits)
    requires Unique(m) && key in KeySet(m) && r.key != key
    ensures var next := Handled(m, r.key, r.at, c);
      && Unique(next)
      && (key in KeySet(next) ==> KeySet(Newer(next, key)) <= KeySet(Newer(m, key)) + {r.key})
      && (key !in KeySet(next) ==> |KeySet(Newer(m, key)) + {r.key}| >= c.maxKeys)
  {
    HandledShape(m, r.key, r.at, c);
    var b := Left(m, r.key, r.at, c);
    var t := Touched(m, r.key, b);
    NewerOfRemove(m, key, r.key);
    NewerOfAppend(Remove(m, r.key), (r.key, b), key);
    TouchedIsLast(m, r.key, b);
    var next := Handled(m, r.key, r.at, c);
    hide Handled, Left, Touched, Current;
    if next == t[1..] {
      if t[0].0 == key {
        assert Newer(t, key) == t[1..];
        SizeIsKeys(t[1..]);
        SubsetSize(KeySet(t[1..]), KeySet(Newer(m, key)) + {r.key});
      } else {
        assert Newer(t, key) == Newer(t[1..], key);
      }
    }
  }

  lemma {:induction false} SubsetSize(a: set<string>, b: set<string>)
    requires a <= b
    ensures |a| <= |b|
  {
    assert b == a + (b - a);
  }

  lemma {:induction false} OthersStep(rs: seq<Request>, key: string)
    requires rs != [] && rs[0].key != key
    ensures Others(rs, key) == {rs[0].key} + Others(rs[1..], key)
  {
    forall k | k in Others(rs, key)
      ensures k in {rs[0].key} + Others(rs[1..], key)
    {
      var i :| 0 <= i < |rs| && rs[i].key != key && rs[i].key == k;
      if i > 0 { assert rs[1..][i - 1].key == k; }
    }
    forall k | k in Others(rs[1..], key)
      ensures k in Others(rs, key)
    {
      var i :| 0 <= i < |rs[1..]| && rs[1..][i].key != key && rs[1..][i].key == k;
      assert rs[i + 1].key == k;
    }
  }

  lemma {:induction false} EvictedAfter(m: Buckets, rs: seq<Request>, key: string, c: Limits, seen: set<string>)
    requires Unique(m) && key in KeySet(m) && KeySet(Newer(m, key)) <= seen
    requires forall i | 0 <= i < |rs| :: rs[i].key != key
    requires key !in KeySet(Run(m, rs, c))
    ensures |seen + Others(rs, key)| >= c.maxKeys
    decreases |rs|
  {
    if rs != [] {
      var r := rs[0];
      var next := Handled(m, r.key, r.at, c);
      NewerStep(m, r, key, c);
      OthersStep(rs, key);
      hide Handled, Newer, Unique, Others;
      if key in KeySet(next) {
        EvictedAfter(next, rs[1..], key, c, seen + {r.key});
        assert (seen + {r.key}) + Others(rs[1..], key) == seen + Others(rs, key);
      } else {
        SubsetSize(KeySet(Newer(m, key)) + {r.key}, seen + Others(rs, key));
      }
    }
  }

  /** A key is evicted only once at least `maxKeys` other keys were seen since its last request. */
  lemma {:induction false} EvictedOnlyPastTheCap(m: Buckets, at: int, rs: seq<Request>, key: string, c: Limits)
    requires Unique(m) && c.maxKeys > 0
    requires forall i | 0 <= i < |rs| :: rs[i].key != key
    requires key !in KeySet(Run(Handled(m, key, at, c), rs, c))
    ensures |Others(rs, key)| >= c.maxKeys
  {
    HandledShape(m, key, at, c);
    var next := Handled(m, key, at, c);
    var b := Left(m, key, at, c);
    LastIsNewest(Remove(m, key), key, b, c.maxKeys);
    TouchedIsLast(m, key, b);
    hide Handled, Left, Touched, Current, Run;
    assert key in KeySet(next) && KeySet(Newer(next, key)) == {};
    EvictedAfter(next, rs, key, c, {});
    assert {} + Others(rs, key) == Others(rs, key);
  }

  lemma {:induction false} LastIsNewest(m: Buckets, key: string, b: Bucket, maxKeys: nat)
    requires key !in KeySet(m) && maxKeys > 0
    ensures var t := m + [(key, b)];
      && key in KeySet(t) && Newer(t, key) == []
      && (|t| > maxKeys ==> key in KeySet(t[1..]) && Newer(t[1..], key) == [])
  {
    NewestOf(m, key, b);
    if |m| >= 1 {
      NewestOf(m[1..], key, b);
      assert (m + [(key, b)])[1..] == m[1..] + [(key, b)];
    }
  }

  lemma {:induction false} NewestOf(m: Buckets, key: string, b: Bucket)
    requires key !in KeySet(m)
    ensures key in KeySet(m + [(key, b)]) && Newer(m + [(key, b)], key) == []
  {
    KeySetAppend(m, (key, b));
    if m == [] {
      assert m + [(key, b)] == [(key, b)] && [(key, b)][1..] == [];
    } else {
      assert (m + [(key, b)])[1..] == m[1..] + [(key, b)];
      NewestOf(m[1..], key, b);
    }
  }

  /** One request, and what it does to the size of the map. */
  lemma {:induction false} SizeStep(m: Buckets, key: string, at: int, c: Limits)
    requires Unique(m)
    ensures c.capacity >= 1.0 && |m| <= c.maxKeys ==> |Handled(m, key, at, c)| <= c.maxKeys
    ensures c.capacity < 1.0 ==> |Handled(m, key, at, c)| == if key in KeySet(m) then |m| else |m| + 1
    ensures KeySet(Handled(m, key, at, c)) <= KeySet(m) + {key} && Unique(Handled(m, key, at, c))
  {
    HandledShape(m, key, at, c);
    TouchedIsLast(m, key, Left(m, key, at, c));
  }

  lemma {:induction false} RunStaysWithin(m: Buckets, rs: seq<Request>, c: Limits)
    requires Unique(m) && |m| <= c.maxKeys && c.capacity >= 1.0
    ensures |Run(m, rs, c)| <= c.maxKeys
    decreases |rs|
  {
    if rs != [] {
      SizeStep(m, rs[0].key, rs[0].at, c);
      hide Handled;
      RunStaysWithin(Handled(m, rs[0].key, rs[0].at, c), rs[1..], c);
    }
  }

  lemma {:induction false} RunAppend(m: Buckets, rs: seq<Request>, r: Request, c: Limits)
    ensures Run(m, rs + [r], c) == Handled(Run(m, rs, c), r.key, r.at, c)
    decreases |rs|
  {
    hide Handled;
    if rs == [] {
      assert [r][1..] == [] && [] + [r] == [r];
    } else {
      assert (rs + [r])[1..] == rs[1..] + [r];
      RunAppend(Handled(m, rs[0].key, rs[0].at, c), rs[1..], r, c);
    }
  }

  /** Below a capacity of one nothing is admitted, so nothing is evicted: `n` keys, `n` entries. */
  lemma {:induction false} Grows(c: Limits, n: nat) returns (rs: seq<Request>)
    requires c.capacity < 1.0
    ensures |rs| == n && |Run([], rs, c)| == n && Unique(Run([], rs, c))
    ensures forall k | k in KeySet(Run([], rs, c)) :: |k| < n
  {
    rs := [];
    if n > 0 {
      var before := Grows(c, n - 1);
      var key := seq(n - 1, _ => 'k');
      assert |key| == n - 1;
      SizeStep(Run([], before, c), key, 0, c);
      RunAppend([], before, Request(key, 0), c);
      hide Handled, Run, Unique;
      rs := before + [Request(key, 0)];
    }
  }

  /** Every run from an empty map stays within the cap exactly when a fresh key can afford its first request. */
  lemma {:induction false} SizeBounded(c: Limits)
    ensures c.capacity >= 1.0 <==> forall rs :: |Run([], rs, c)| <= c.maxKeys
  {
    if c.capacity >= 1.0 {
      forall rs
        ensures |Run([], rs, c)| <= c.maxKeys
      {
        RunStaysWithin([], rs, c);
      }
    } else {
      var rs := Grows(c, c.maxKeys + 1);
    }
  }

  // ----- Retry-After -----

  lemma {:induction false} WaitCovers(tokens: real, elapsedMs: int, c: Limits)
    requires Usable(c) && tokens < 1.0
    requires elapsedMs >= 1000 * WaitSeconds(tokens, c)
    ensures tokens + Refill(elapsedMs, c) >= 1.0
  {
    var need := (1.0 - tokens) / c.refillPerSecond;
    var w := WaitSeconds(tokens, c);
    assert need <= w as real <= elapsedMs as real / 1000.0;
    Cover(need, elapsedMs as real / 1000.0, c.refillPerSecond);
    assert need * c.refillPerSecond == 1.0 - tokens;
  }

  lemma {:induction false} Cover(x: real, y: real, r: real)
    requires x <= y && r > 0.0
    ensures x * r <= y * r
  {
    assert (y - x) * r >= 0.0;
  }

  /** Unless it is the minimum of one second, one second less is not enough. */
  lemma {:induction false} WaitIsLeast(tokens: real, c: Limits)
    requires Usable(c) && tokens < 1.0 && WaitSeconds(tokens, c) > 1
    ensures tokens + Refill(1000 * (WaitSeconds(tokens, c) - 1), c) < 1.0
  {
    var need := (1.0 - tokens) / c.refillPerSecond;
    var w := WaitSeconds(tokens, c);
    var e := 1000 * (w - 1);
    assert e as real / 1000.0 == (w - 1) as real < need;
    assert need * c.refillPerSecond == 1.0 - tokens;
    assert (need - (w - 1) as real) * c.refillPerSecond > 0.0;
  }

  lemma {:induction false} WaitingKeepsBucket(m: Buckets, rs: seq<Request>, key: string, c: Limits)
    requires Unique(m) && forall i | 0 <= i < |rs| :: rs[i].key != key
    ensures Unique(Run(m, rs, c))
    ensures key in KeySet(Run(m, rs, c)) ==> Find(Run(m, rs, c), key) == Find(m, key)
    decreases |rs|
  {
    if rs != [] {
      HandledShape(m, rs[0].key, rs[0].at, c);
      OtherKey(m, rs[0].key, rs[0].at, c, key);
      WaitingKeepsBucket(Handled(m, rs[0].key, rs[0].at, c), rs[1..], key, c);
    }
  }

  /**
   * A client that is told to wait and waits at least that long is admitted, whatever other keys
   * do in the meantime and whether or not its bucket was evicted.
   */
  lemma {:induction false} WaitingSuffices(m: Buckets, key: string, at: int, rs: seq<Request>, later: int, c: Limits)
    requires Usable(c) && c.capacity >= 1.0 && Unique(m)
    requires Answered(m, key, at, c).Rejected?
    requires forall i | 0 <= i < |rs| :: rs[i].key != key
    requires later - at >= 1000 * Answered(m, key, at, c).retryAfterSeconds
    ensures Answered(Run(Handled(m, key, at, c), rs, c), key, later, c).Admitted?
  {
    var b := Current(m, key, at, c);
    var waited := Run(Handled(m, key, at, c), rs, c);
    HandledShape(m, key, at, c);
    ServedKey(m, key, at, c);
    WaitingKeepsBucket(Handled(m, key, at, c), rs, key, c);
    WaitCovers(b.tokens, later - at, c);
    hide Handled, Run, Refill, WaitSeconds;
    assert b.updatedAt == at;
  }

  // ----- what a key may count on -----

  function Min(a: int, b: int): int {
    if a <= b then a else b
  }

  /** The run's requests for `key`. */
  function Asked(rs: seq<Request>, key: string): nat {
    if rs == [] then 0 else (if rs[0].key == key then 1 else 0) + Asked(rs[1..], key)
  }

  /** The key's bucket, if it has one, holds what is left of a full one after `spent` admissions. */
  ghost predicate HoldsRest(m: Buckets, key: string, c: Limits, spent: nat) {
    forall b | Find(m, key) == Some(b) :: b.tokens >= c.capacity - spent as real
  }

  lemma {:induction false} OwnRequest(m: Buckets, key: string, at: int, c: Limits, spent: nat)
    requires Usable(c) && Unique(m) && HoldsRest(m, key, c, spent)
    ensures c.capacity - spent as real >= 1.0 ==> Answered(m, key, at, c).Admitted?
    ensures HoldsRest(Handled(m, key, at, c), key, c, spent + 1) && Unique(Handled(m, key, at, c))
    ensures Answered(m, key, at, c).Rejected? ==> HoldsRest(Handled(m, key, at, c), key, c, spent)
  {
    if Find(m, key).Some? { RefillNonNegative(at - Find(m, key).value.updatedAt, c); }
    HandledShape(m, key, at, c);
    ServedKey(m, key, at, c);
    hide Handled, Refill, WaitSeconds, Unique;
  }

  lemma {:induction false} AnotherRequest(m: Buckets, other: string, at: int, key: string, c: Limits, spent: nat)
    requires Unique(m) && HoldsRest(m, key, c, spent) && other != key
    ensures HoldsRest(Handled(m, other, at, c), key, c, spent) && Unique(Handled(m, other, at, c))
  {
    HandledShape(m, other, at, c);
    OtherKey(m, other, at, c, key);
    hide Handled, Unique, Find;
  }

  lemma {:induction false} RestIsAdmitted(m: Buckets, rs: seq<Request>, key: string, c: Limits, spent: nat)
    requires Usable(c) && Unique(m) && HoldsRest(m, key, c, spent)
    ensures AdmittedFor(m, rs, key, c) >= Min(c.capacity.Floor - spent, Asked(rs, key))
    decreases |rs|
  {
    hide Handled, Answered, HoldsRest, Unique;
    if rs != [] {
      var r := rs[0];
      var next := Handled(m, r.key, r.at, c);
      if r.key == key {
        OwnRequest(m, key, r.at, c, spent);
        RestIsAdmitted(next, rs[1..], key, c, spent + 1);
      } else {
        AnotherRequest(m, r.key, r.at, key, c, spent);
        RestIsAdmitted(next, rs[1..], key, c, spent);
      }
    }
  }

  /**
   * A key without a bucket gets at least the capacity, rounded down, of its requests admitted,
   * at any instants, whatever other keys do in between and whether or not it is evicted.
   */
  lemma {:induction false} FreshKeyGetsBurst(m: Buckets, rs: seq<Request>, key: string, c: Limits)
    requires Usable(c) && Unique(m) && key !in KeySet(m)
    ensures AdmittedFor(m, rs, key, c) >= Min(c.capacity.Floor, Asked(rs, key))
  {
    RestIsAdmitted(m, rs, key, c, 0);
  }

  /** In one instant, and without being evicted, it gets exactly that many. */
  lemma {:induction false} BurstIsExact(m: Buckets, rs: seq<Request>, key: string, c: Limits, at: int)
    requires Usable(c) && Unique(m) && Solvent(m) && key !in KeySet(m)
    requires (forall i | 0 <= i < |rs| :: rs[i].at == at) && KeptOnceServed(m, rs, key, c)
    ensures AdmittedFor(m, rs, key, c) == Min(c.capacity.Floor, Asked(rs, key))
  {
    FreshKeyGetsBurst(m, rs, key, c);
    WindowBound(m, rs, key, c, at, at);
    AdmittedAsked(m, rs, key, c);
  }

  lemma {:induction false} AdmittedAsked(m: Buckets, rs: seq<Request>, key: string, c: Limits)
    requires Usable(c)
    ensures AdmittedFor(m, rs, key, c) <= Asked(rs, key)
    decreases |rs|
  {
    hide Handled, Answered;
    if rs != [] { AdmittedAsked(Handled(m, rs[0].key, rs[0].at, c), rs[1..], key, c); }
  }

  lemma {:induction false} AgainAtOnce(m: Buckets, key: string, at: int, c: Limits, b: Bucket)
    requires Usable(c) && Unique(m) && c.maxKeys > 0
    requires Find(m, key) == Some(b) && b.updatedAt == at && b.tokens <= c.capacity
    ensures Answered(m, key, at, c).Admitted? <==> b.tokens >= 1.0
    ensures Unique(Handled(m, key, at, c))
    ensures Find(Handled(m, key, at, c), key)
      == Some(if b.tokens >= 1.0 then Bucket(b.tokens - 1.0, at) else b)
  {
    assert Refill(0, c) == 0.0;
    assert Current(m, key, at, c) == b;
    HandledShape(m, key, at, c);
    ServedKey(m, key, at, c);
    TouchedIsLast(m, key, Left(m, key, at, c));
    LastIsNewest(Remove(m, key), key, Left(m, key, at, c), c.maxKeys);
    hide Handled, Touched, Refill, WaitSeconds;
  }

  lemma {:induction false} TokensAreAdmissions(m: Buckets, rs: seq<Request>, key: string, at: int, c: Limits, b: Bucket)
    requires Usable(c) && Unique(m) && c.maxKeys > 0
    requires Find(m, key) == Some(b) && b.updatedAt == at && 0.0 <= b.tokens <= c.capacity
    requires forall i | 0 <= i < |rs| :: rs[i] == Request(key, at)
    ensures AdmittedFor(m, rs, key, c) == Min(b.tokens.Floor, |rs|)
    decreases |rs|
  {
    hide Handled, Answered, Unique, Find;
    if rs != [] {
      AgainAtOnce(m, key, at, c, b);
      var left := if b.tokens >= 1.0 then Bucket(b.tokens - 1.0, at) else b;
      assert forall i | 0 <= i < |rs[1..]| :: rs[1..][i] == rs[i + 1];
      TokensAreAdmissions(Handled(m, key, at, c), rs[1..], key, at, c, left);
    }
  }

  /** A client told that `n` requests remain can make exactly `n` more in that instant. */
  lemma {:induction false} RemainingIsExact(m: Buckets, key: string, at: int, more: seq<Request>, c: Limits)
    requires Usable(c) && Unique(m) && Solvent(m) && c.maxKeys > 0
    requires Answered(m, key, at, c).Admitted?
    requires forall i | 0 <= i < |more| :: more[i] == Request(key, at)
    ensures AdmittedFor(Handled(m, key, at, c), more, key, c) == Min(Answered(m, key, at, c).remaining, |more|)
  {
    FirstRequest(m, key, at, c);
    HandledShape(m, key, at, c);
    ServedKey(m, key, at, c);
    TouchedIsLast(m, key, Left(m, key, at, c));
    LastIsNewest(Remove(m, key), key, Left(m, key, at, c), c.maxKeys);
    hide Handled, Touched, Refill, WaitSeconds, AdmittedFor;
    TokensAreAdmissions(Handled(m, key, at, c), more, key, at, c, Left(m, key, at, c));
  }
}
