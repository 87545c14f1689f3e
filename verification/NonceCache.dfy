/** Replay defence: every nonce seen inside the freshness window is remembered, up to a cap. */
module NonceCache {
  import opened InsertionMap

  const REGISTRATION_MAX_SKEW_MS := 120000

  /** The width of the accepted timestamp range. */
  const TTL_MS := 2 * REGISTRATION_MAX_SKEW_MS

  type Seen = seq<(string, int)>

  /** Both ends of the window are accepted. */
  predicate IsFresh(ts: int, now: int) {
    -REGISTRATION_MAX_SKEW_MS <= ts - now <= REGISTRATION_MAX_SKEW_MS
  }

  function Expire(m: Seen, at: int): Seen {
    if m != [] && at - m[0].1 >= TTL_MS then Expire(m[1..], at) else m
  }

  function Shrink(m: Seen, maxEntries: nat): Seen {
    if m != [] && |m| >= maxEntries then Shrink(m[1..], maxEntries) else m
  }

  function Prune(m: Seen, at: int, maxEntries: nat): Seen {
    Shrink(Expire(m, at), maxEntries)
  }

  /** Whether a claim succeeds on a pruned cache. */
  predicate Claimable(m: Seen, nonce: string, at: int) {
    match Find(m, nonce)
    case None => true
    case Some(previous) => at - previous >= TTL_MS
  }

  function After(m: Seen, nonce: string, at: int, maxEntries: nat): Seen {
    var pruned := Prune(m, at, maxEntries);
    if Claimable(pruned, nonce, at) then Put(pruned, nonce, at) else pruned
  }

  predicate Claims(m: Seen, nonce: string, at: int, maxEntries: nat) {
    Claimable(Prune(m, at, maxEntries), nonce, at)
  }

  class NonceCache {
    const maxEntries: nat
    var seen: Seen

    constructor (maxEntries: nat)
      ensures this.maxEntries == maxEntries && seen == []
    {
      this.maxEntries, seen := maxEntries, [];
    }

    method Claim(nonce: string, at: int) returns (ok: bool)
      modifies this
      ensures ok == Claims(old(seen), nonce, at, maxEntries)
      ensures seen == After(old(seen), nonce, at, maxEntries)
    {
      DoPrune(at);
      var previous := Find(seen, nonce);
      if previous.Some? && at - previous.value < TTL_MS { return false; }
      seen := Put(seen, nonce, at);
      ok := true;
    }

    method DoPrune(at: int)
      modifies this
      ensures seen == Prune(old(seen), at, maxEntries)
    {
      while |seen| > 0 && at - seen[0].1 >= TTL_MS
        invariant Expire(seen, at) == Expire(old(seen), at)
        decreases |seen|
      {
        seen := seen[1..];
      }
      while |seen| > 0 && |seen| >= maxEntries
        invariant Shrink(seen, maxEntries) == Prune(old(seen), at, maxEntries)
        decreases |seen|
      {
        seen := seen[1..];
      }
    }
  }

  // ----- oldest first -----

  /** Entries are in claim order, none later than `now`. */
  ghost predicate InOrder(m: Seen, now: int) {
    && Unique(m)
    && (forall i, j | 0 <= i < j < |m| :: m[i].1 <= m[j].1)
    && (forall i | 0 <= i < |m| :: m[i].1 <= now)
  }

  lemma {:induction false} ExpireKeepsOrder(m: Seen, at: int, now: int)
    requires InOrder(m, now)
    ensures InOrder(Expire(m, at), now)
    ensures forall i | 0 <= i < |Expire(m, at)| :: at - Expire(m, at)[i].1 < TTL_MS
    ensures KeySet(Expire(m, at)) <= KeySet(m)
  {
    if m != [] && at - m[0].1 >= TTL_MS {
      ExpireKeepsOrder(m[1..], at, now);
    }
  }

  lemma {:induction false} ShrinkKeepsOrder(m: Seen, maxEntries: nat, now: int)
    requires InOrder(m, now)
    ensures InOrder(Shrink(m, maxEntries), now)
    ensures forall e | e in Shrink(m, maxEntries) :: e in m
  {
    if m != [] && |m| >= maxEntries {
      ShrinkKeepsOrder(m[1..], maxEntries, now);
      assert forall e | e in m[1..] :: e in m;
    }
  }

  lemma {:induction false} FoundEntry(m: Seen, nonce: string)
    requires Find(m, nonce).Some?
    ensures (nonce, Find(m, nonce).value) in m
  {
    if m[0].0 != nonce {
      FoundEntry(m[1..], nonce);
      assert forall e | e in m[1..] :: e in m;
    }
  }

  lemma {:induction false} ExpireDrops(m: Seen, at: int, nonce: string)
    requires Unique(m)
    ensures Unique(Expire(m, at))
    ensures Find(Expire(m, at), nonce).None? || Find(Expire(m, at), nonce) == Find(m, nonce)
  {
    if m != [] && at - m[0].1 >= TTL_MS { ExpireDrops(m[1..], at, nonce); }
  }

  lemma {:induction false} ShrinkDrops(m: Seen, maxEntries: nat, nonce: string)
    requires Unique(m)
    ensures Find(Shrink(m, maxEntries), nonce).None? || Find(Shrink(m, maxEntries), nonce) == Find(m, nonce)
  {
    if m != [] && |m| >= maxEntries { ShrinkDrops(m[1..], maxEntries, nonce); }
  }

  /**
   * Whatever the cache holds, and in whatever order, a nonce is claimable when it was never seen or
   * its last acceptance is 240000 ms old.
   */
  lemma {:induction false} ExpiredIsClaimable(m: Seen, nonce: string, at: int, maxEntries: nat)
    requires Unique(m)
    requires Find(m, nonce).Some? ==> at - Find(m, nonce).value >= 240000
    ensures Claims(m, nonce, at, maxEntries)
  {
    ExpireDrops(m, at, nonce);
    ShrinkDrops(Expire(m, at), maxEntries, nonce);
    hide Expire, Shrink, Find;
  }

  lemma {:induction false} PrunedInOrder(m: Seen, at: int, maxEntries: nat)
    requires InOrder(m, at)
    ensures InOrder(Prune(m, at, maxEntries), at)
    ensures forall e | e in Prune(m, at, maxEntries) :: at - e.1 < TTL_MS
  {
    var alive := Expire(m, at);
    ExpireKeepsOrder(m, at, at);
    ShrinkKeepsOrder(alive, maxEntries, at);
    hide Expire, Shrink, InOrder;
    forall e | e in Prune(m, at, maxEntries)
      ensures at - e.1 < TTL_MS
    {
      var i :| 0 <= i < |alive| && alive[i] == e;
    }
  }

  lemma {:induction false} AppendInOrder(m: Seen, nonce: string, at: int)
    requires InOrder(m, at) && nonce !in KeySet(m)
    ensures Put(m, nonce, at) == m + [(nonce, at)] && InOrder(m + [(nonce, at)], at)
  {
    PutAbsent(m, nonce, at);
  }

  /** On a pruned cache a claim succeeds exactly when the nonce is not there, and appends it. */
  lemma {:induction false} ClaimAppends(m: Seen, nonce: string, at: int, maxEntries: nat)
    requires InOrder(m, at)
    ensures var pruned := Prune(m, at, maxEntries);
      && InOrder(pruned, at)
      && (Claims(m, nonce, at, maxEntries) <==> nonce !in KeySet(pruned))
      && After(m, nonce, at, maxEntries)
         == (if Claims(m, nonce, at, maxEntries) then pruned + [(nonce, at)] else pruned)
      && InOrder(After(m, nonce, at, maxEntries), at)
  {
    var pruned := Prune(m, at, maxEntries);
    PrunedInOrder(m, at, maxEntries);
    hide Prune, InOrder, KeySet;
    if nonce in KeySet(pruned) {
      FoundEntry(pruned, nonce);
    } else {
      AppendInOrder(pruned, nonce, at);
    }
    hide Find;
  }

  // ----- how long a nonce is remembered -----

  /** The cache holds `nonce` from `t1`, with `later` entries claimed after it. */
  ghost predicate Holds(m: Seen, nonce: string, t1: int, later: nat) {
    && later < |m|
    && m[|m| - 1 - later] == (nonce, t1)
  }

  lemma {:induction false} ExpireHolds(m: Seen, at: int, nonce: string, t1: int, later: nat)
    requires Holds(m, nonce, t1, later) && at - t1 < TTL_MS
    ensures Holds(Expire(m, at), nonce, t1, later)
  {
    if m != [] && at - m[0].1 >= TTL_MS { ExpireHolds(m[1..], at, nonce, t1, later); }
  }

  lemma {:induction false} ShrinkHolds(m: Seen, maxEntries: nat, nonce: string, t1: int, later: nat)
    requires Holds(m, nonce, t1, later)
    ensures later + 1 < maxEntries ==> Holds(Shrink(m, maxEntries), nonce, t1, later)
    ensures later + 1 >= maxEntries ==> |Shrink(m, maxEntries)| <= later
  {
    if |m| >= maxEntries {
      if later + 1 < |m| {
        ShrinkHolds(m[1..], maxEntries, nonce, t1, later);
      } else {
        ShrinkLength(m[1..], maxEntries);
      }
    }
  }

  lemma {:induction false} ShrinkLength(m: Seen, maxEntries: nat)
    ensures |Shrink(m, maxEntries)| <= |m|
    ensures Shrink(m, maxEntries) == m[|m| - |Shrink(m, maxEntries)|..]
  {
    if m != [] && |m| >= maxEntries { ShrinkLength(m[1..], maxEntries); }
  }

  lemma {:induction false} UniqueAt(m: Seen, i: nat, j: nat)
    requires Unique(m) && i < j < |m|
    ensures m[i].0 != m[j].0 && m[i].0 in KeySet(m) && m[j].0 in KeySet(m)
  {
    if i > 0 {
      UniqueAt(m[1..], i - 1, j - 1);
    } else {
      KeyIn(m[1..], j - 1);
    }
  }

  lemma {:induction false} KeyIn(m: Seen, i: nat)
    requires i < |m|
    ensures m[i].0 in KeySet(m)
  {
    if i > 0 { KeyIn(m[1..], i - 1); }
  }

  lemma {:induction false} KeyAt(m: Seen, nonce: string) returns (i: nat)
    requires nonce in KeySet(m)
    ensures i < |m| && m[i].0 == nonce
  {
    if m[0].0 == nonce { i := 0; } else {
      var k := KeyAt(m[1..], nonce);
      i := k + 1;
    }
  }

  /** Inside its window a nonce is dropped exactly when the cap makes room for what came later. */
  lemma {:induction false} PruneHolds(m: Seen, at: int, maxEntries: nat, nonce: string, t1: int, later: nat)
    requires InOrder(m, at) && Holds(m, nonce, t1, later) && at - t1 < TTL_MS
    ensures later + 1 < maxEntries ==> Holds(Prune(m, at, maxEntries), nonce, t1, later)
    ensures later + 1 >= maxEntries ==> nonce !in KeySet(Prune(m, at, maxEntries))
  {
    var alive := Expire(m, at);
    ExpireHolds(m, at, nonce, t1, later);
    ExpireKeepsOrder(m, at, at);
    ShrinkHolds(alive, maxEntries, nonce, t1, later);
    ShrinkLength(alive, maxEntries);
    var pruned := Shrink(alive, maxEntries);
    if later + 1 >= maxEntries && nonce in KeySet(pruned) {
      var i := KeyAt(pruned, nonce);
      var k := |alive| - |pruned| + i;
      assert pruned[i] == alive[k];
      UniqueAt(alive, |alive| - 1 - later, k);
      assert false;
    }
  }

  datatype Claim = Claim(nonce: string, at: int)

  function Run(m: Seen, cs: seq<Claim>, maxEntries: nat): Seen
    decreases |cs|
  {
    if cs == [] then m else Run(After(m, cs[0].nonce, cs[0].at, maxEntries), cs[1..], maxEntries)
  }

  /** How many claims of the run succeed. */
  function Accepted(m: Seen, cs: seq<Claim>, maxEntries: nat): nat
    decreases |cs|
  {
    if cs == [] then 0
    else (if Claims(m, cs[0].nonce, cs[0].at, maxEntries) then 1 else 0)
         + Accepted(After(m, cs[0].nonce, cs[0].at, maxEntries), cs[1..], maxEntries)
  }

  /** How many claims of `nonce` itself succeed. */
  function AcceptedOf(m: Seen, cs: seq<Claim>, maxEntries: nat, nonce: string): nat
    decreases |cs|
  {
    if cs == [] then 0
    else (if cs[0].nonce == nonce && Claims(m, cs[0].nonce, cs[0].at, maxEntries) then 1 else 0)
         + AcceptedOf(After(m, cs[0].nonce, cs[0].at, maxEntries), cs[1..], maxEntries, nonce)
  }

  /** Claims of any nonces, at times that never go back and never pass `end`. */
  ghost predicate Between(cs: seq<Claim>, start: int, end: int) {
    && (forall i | 0 <= i < |cs| :: start <= cs[i].at <= end)
    && (forall i, j | 0 <= i < j < |cs| :: cs[i].at <= cs[j].at)
  }

  /** A nonce that is absent stays absent until a claim of its own succeeds. */
  lemma {:induction false} Forgotten(m: Seen, cs: seq<Claim>, maxEntries: nat, nonce: string, start: int, end: int)
    requires InOrder(m, start) && nonce !in KeySet(m) && Between(cs, start, end) && start <= end
    requires AcceptedOf(m, cs, maxEntries, nonce) == 0
    ensures InOrder(Run(m, cs, maxEntries), end) && nonce !in KeySet(Run(m, cs, maxEntries))
    decreases |cs|
  {
    if cs == [] {
      OrderedLater(m, start, end);
    } else {
      var c := cs[0];
      var next := After(m, c.nonce, c.at, maxEntries);
      OrderedLater(m, start, c.at);
      ClaimAppends(m, c.nonce, c.at, maxEntries);
      OnlyClaimed(m, c.nonce, c.at, maxEntries);
      PruneKeys(m, c.at, maxEntries);
      BetweenTail(cs, start, end);
      hide Prune, InOrder, Between, After, Claims;
      Forgotten(next, cs[1..], maxEntries, nonce, c.at, end);
    }
  }

  lemma {:induction false} PruneKeys(m: Seen, at: int, maxEntries: nat)
    ensures KeySet(Prune(m, at, maxEntries)) <= KeySet(m)
  {
    ExpireKeys(m, at);
    ShrinkKeys(Expire(m, at), maxEntries);
  }

  lemma {:induction false} OnlyClaimed(m: Seen, nonce: string, at: int, maxEntries: nat)
    ensures KeySet(After(m, nonce, at, maxEntries)) <= KeySet(m) + {nonce}
  {
    ExpireKeys(m, at);
    ShrinkKeys(Expire(m, at), maxEntries);
  }

  lemma {:induction false} ExpireKeys(m: Seen, at: int)
    ensures KeySet(Expire(m, at)) <= KeySet(m)
  {
    if m != [] && at - m[0].1 >= TTL_MS { ExpireKeys(m[1..], at); }
  }

  lemma {:induction false} ShrinkKeys(m: Seen, maxEntries: nat)
    ensures KeySet(Shrink(m, maxEntries)) <= KeySet(m)
  {
    if m != [] && |m| >= maxEntries { ShrinkKeys(m[1..], maxEntries); }
  }

  lemma {:induction false} HeldStep(m: Seen, nonce: string, t1: int, later: nat, c: Claim, maxEntries: nat)
    requires InOrder(m, c.at) && Holds(m, nonce, t1, later) && c.at - t1 < TTL_MS && later + 1 < maxEntries
    ensures InOrder(After(m, c.nonce, c.at, maxEntries), c.at)
    ensures Holds(After(m, c.nonce, c.at, maxEntries), nonce, t1,
                  if Claims(m, c.nonce, c.at, maxEntries) then later + 1 else later)
  {
    ClaimAppends(m, c.nonce, c.at, maxEntries);
    PruneHolds(m, c.at, maxEntries, nonce, t1, later);
    hide Prune, After, Claims, Unique;
  }

  lemma {:induction false} OrderedLater(m: Seen, start: int, end: int)
    requires InOrder(m, start) && start <= end
    ensures InOrder(m, end)
  {}

  lemma {:induction false} BetweenTail(cs: seq<Claim>, start: int, end: int)
    requires Between(cs, start, end) && cs != []
    ensures start <= cs[0].at <= end && Between(cs[1..], cs[0].at, end)
  {}

  /** A nonce that is held, with room for what came later, is refused. */
  lemma {:induction false} HeldIsRefused(m: Seen, nonce: string, t1: int, later: nat, at: int, maxEntries: nat)
    requires InOrder(m, at) && Holds(m, nonce, t1, later) && at - t1 < TTL_MS && later + 1 < maxEntries
    ensures !Claims(m, nonce, at, maxEntries)
  {
    ClaimAppends(m, nonce, at, maxEntries);
    PruneHolds(m, at, maxEntries, nonce, t1, later);
    var pruned := Prune(m, at, maxEntries);
    hide Prune, Claims, After, InOrder;
    KeyIn(pruned, |pruned| - 1 - later);
  }

  /** A nonce that is held but has no room left is accepted again at its next claim. */
  lemma {:induction false} CrowdedIsAccepted(m: Seen, nonce: string, t1: int, later: nat, at: int, maxEntries: nat)
    requires InOrder(m, at) && Holds(m, nonce, t1, later) && at - t1 < TTL_MS && later + 1 >= maxEntries
    ensures Claims(m, nonce, at, maxEntries)
  {
    ClaimAppends(m, nonce, at, maxEntries);
    PruneHolds(m, at, maxEntries, nonce, t1, later);
    hide Prune, Claims, After, InOrder, Holds;
  }

  /**
   * Whatever is claimed inside the window, the nonce's own replays included: while the cap has
   * room, the nonce stays held and no replay of it succeeds.
   */
  lemma {:induction false} HeldThroughout(
      m: Seen, cs: seq<Claim>, maxEntries: nat, nonce: string, t1: int, later: nat, start: int, end: int)
    requires InOrder(m, start) && Holds(m, nonce, t1, later)
    requires Between(cs, start, end) && start <= end < t1 + TTL_MS
    requires later + Accepted(m, cs, maxEntries) + 1 < maxEntries
    ensures InOrder(Run(m, cs, maxEntries), end)
    ensures Holds(Run(m, cs, maxEntries), nonce, t1, later + Accepted(m, cs, maxEntries))
    ensures AcceptedOf(m, cs, maxEntries, nonce) == 0
    decreases |cs|
  {
    hide Holds, InOrder, Between, After, Claims;
    if cs == [] {
      OrderedLater(m, start, end);
    } else {
      var c := cs[0];
      BetweenTail(cs, start, end);
      OrderedLater(m, start, c.at);
      HeldStep(m, nonce, t1, later, c, maxEntries);
      HeldIsRefused(m, nonce, t1, later, c.at, maxEntries);
      HeldThroughout(After(m, c.nonce, c.at, maxEntries), cs[1..], maxEntries, nonce, t1,
                     if Claims(m, c.nonce, c.at, maxEntries) then later + 1 else later, c.at, end);
    }
  }

  /** After claims none of which got the nonce again, it is still held, or the cap has pushed it out. */
  lemma {:induction false} HeldOrPushedOut(
      m: Seen, cs: seq<Claim>, maxEntries: nat, nonce: string, t1: int, later: nat, start: int, end: int)
    requires InOrder(m, start) && Holds(m, nonce, t1, later)
    requires Between(cs, start, end) && start <= end < t1 + TTL_MS
    requires AcceptedOf(m, cs, maxEntries, nonce) == 0
    ensures var total := later + Accepted(m, cs, maxEntries); var final := Run(m, cs, maxEntries);
      && InOrder(final, end)
      && (Holds(final, nonce, t1, total) || (nonce !in KeySet(final) && total + 1 >= maxEntries))
    decreases |cs|
  {
    hide Holds, InOrder, Between, After, Claims;
    if cs == [] {
      OrderedLater(m, start, end);
    } else {
      var c := cs[0];
      var next := After(m, c.nonce, c.at, maxEntries);
      BetweenTail(cs, start, end);
      OrderedLater(m, start, c.at);
      if later + 1 < maxEntries {
        HeldStep(m, nonce, t1, later, c, maxEntries);
        HeldOrPushedOut(next, cs[1..], maxEntries, nonce, t1,
                        if Claims(m, c.nonce, c.at, maxEntries) then later + 1 else later, c.at, end);
      } else {
        PushedOut(m, cs, maxEntries, nonce, t1, later, start, end);
      }
    }
  }

  lemma {:induction false} PushedOut(
      m: Seen, cs: seq<Claim>, maxEntries: nat, nonce: string, t1: int, later: nat, start: int, end: int)
    requires InOrder(m, start) && Holds(m, nonce, t1, later) && later + 1 >= maxEntries
    requires Between(cs, start, end) && start <= end < t1 + TTL_MS && cs != []
    requires AcceptedOf(m, cs, maxEntries, nonce) == 0
    ensures InOrder(Run(m, cs, maxEntries), end) && nonce !in KeySet(Run(m, cs, maxEntries))
  {
    var c := cs[0];
    var next := After(m, c.nonce, c.at, maxEntries);
    BetweenTail(cs, start, end);
    OrderedLater(m, start, c.at);
    if c.nonce == nonce { CrowdedIsAccepted(m, nonce, t1, later, c.at, maxEntries); }
    assert c.nonce != nonce;
    ClaimAppends(m, c.nonce, c.at, maxEntries);
    PruneHolds(m, c.at, maxEntries, nonce, t1, later);
    assert KeySet(next) <= KeySet(Prune(m, c.at, maxEntries)) + {c.nonce};
    hide Prune, InOrder, Between, Holds, Claims, After;
    Forgotten(next, cs[1..], maxEntries, nonce, c.at, end);
  }

  // ----- replay -----

  /** Until a claim of its own succeeds, a nonce has no entries but those it had. */
  lemma {:induction false} EntriesOf(m: Seen, cs: seq<Claim>, maxEntries: nat, nonce: string, start: int, end: int)
    requires InOrder(m, start) && Between(cs, start, end) && start <= end
    requires AcceptedOf(m, cs, maxEntries, nonce) == 0
    ensures forall e | e in Run(m, cs, maxEntries) && e.0 == nonce :: e in m
    ensures InOrder(Run(m, cs, maxEntries), end)
    decreases |cs|
  {
    if cs == [] {
      OrderedLater(m, start, end);
    } else {
      var c := cs[0];
      var next := After(m, c.nonce, c.at, maxEntries);
      BetweenTail(cs, start, end);
      OrderedLater(m, start, c.at);
      ClaimAppends(m, c.nonce, c.at, maxEntries);
      PrunedEntries(m, c.at, maxEntries);
      hide Prune, InOrder, Between, After, Claims;
      EntriesOf(next, cs[1..], maxEntries, nonce, c.at, end);
    }
  }

  lemma {:induction false} PrunedEntries(m: Seen, at: int, maxEntries: nat)
    requires InOrder(m, at)
    ensures forall e | e in Prune(m, at, maxEntries) :: e in m && at - e.1 < TTL_MS
  {
    ExpireKeepsOrder(m, at, at);
    ExpiredEntries(m, at);
    ShrinkKeepsOrder(Expire(m, at), maxEntries, at);
    forall e | e in Prune(m, at, maxEntries)
      ensures e in m && at - e.1 < TTL_MS
    {
      var i :| 0 <= i < |Expire(m, at)| && Expire(m, at)[i] == e;
    }
  }

  lemma {:induction false} ExpiredEntries(m: Seen, at: int)
    ensures forall e | e in Expire(m, at) :: e in m
  {
    if m != [] && at - m[0].1 >= TTL_MS {
      ExpiredEntries(m[1..], at);
      assert forall e | e in m[1..] :: e in m;
    }
  }

  lemma {:induction false} OneEntry(m: Seen, i: nat, e: (string, int))
    requires Unique(m) && i < |m| && e in m && e.0 == m[i].0
    ensures e == m[i]
  {
    var j :| 0 <= j < |m| && m[j] == e;
    if i < j { UniqueAt(m, i, j); }
    if j < i { UniqueAt(m, j, i); }
  }

  /** A nonce past its window can always be claimed again. */
  lemma {:induction false} LateClaim(m: Seen, cs: seq<Claim>, maxEntries: nat, nonce: string, t1: int, t2: int)
    requires InOrder(m, t1) && Holds(m, nonce, t1, 0) && Between(cs, t1, t2)
    requires t2 >= t1 + TTL_MS && AcceptedOf(m, cs, maxEntries, nonce) == 0
    ensures Claims(Run(m, cs, maxEntries), nonce, t2, maxEntries)
  {
    var final := Run(m, cs, maxEntries);
    var last: nat := |m| - 1;
    EntriesOf(m, cs, maxEntries, nonce, t1, t2);
    ClaimAppends(final, nonce, t2, maxEntries);
    PrunedEntries(final, t2, maxEntries);
    var pruned := Prune(final, t2, maxEntries);
    hide Prune, Run, Claims, After, Unique;
    forall e | e in pruned
      ensures e.0 != nonce
    {
      if e.0 == nonce { OneEntry(m, last, e); }
    }
    AbsentKey(pruned, nonce);
  }

  lemma {:induction false} AbsentKey(m: Seen, nonce: string)
    requires forall e | e in m :: e.0 != nonce
    ensures nonce !in KeySet(m)
  {
    if m != [] {
      assert m[0] in m && forall e | e in m[1..] :: e in m;
      AbsentKey(m[1..], nonce);
    }
  }

  /**
   * A nonce last accepted at `t1` is accepted again exactly once its window is over, or once the
   * claims accepted in between, with its own, fill the cache: one fewer than the cap is enough.
   * Its own refused replays in between change nothing.
   */
  lemma {:induction false} ClaimedAgainIff(m: Seen, nonce: string, t1: int, cs: seq<Claim>, t2: int, maxEntries: nat)
    requires InOrder(m, t1) && Claims(m, nonce, t1, maxEntries)
    requires Between(cs, t1, t2) && t1 <= t2
    requires AcceptedOf(After(m, nonce, t1, maxEntries), cs, maxEntries, nonce) == 0
    ensures var m1 := After(m, nonce, t1, maxEntries);
      Claims(Run(m1, cs, maxEntries), nonce, t2, maxEntries)
      <==> (t2 - t1 >= TTL_MS || Accepted(m1, cs, maxEntries) + 1 >= maxEntries)
  {
    hide InOrder, Between, Claims, After, Prune, Holds, Run, Accepted, AcceptedOf;
    var m1 := After(m, nonce, t1, maxEntries);
    FreshlyHeld(m, nonce, t1, maxEntries);
    if t2 - t1 >= TTL_MS {
      LateClaim(m1, cs, maxEntries, nonce, t1, t2);
    } else {
      HeldOrPushedOut(m1, cs, maxEntries, nonce, t1, 0, t1, t2);
      SecondClaim(Run(m1, cs, maxEntries), nonce, t1, t2, Accepted(m1, cs, maxEntries), maxEntries);
    }
  }

  /** While the cap has room, no replay succeeds inside the window, however often it is tried. */
  lemma {:induction false} NoReplayInside(m: Seen, nonce: string, t1: int, cs: seq<Claim>, t2: int, maxEntries: nat)
    requires InOrder(m, t1) && Claims(m, nonce, t1, maxEntries)
    requires Between(cs, t1, t2) && t1 <= t2 < t1 + TTL_MS
    requires Accepted(After(m, nonce, t1, maxEntries), cs, maxEntries) + 1 < maxEntries
    ensures var m1 := After(m, nonce, t1, maxEntries);
      && AcceptedOf(m1, cs, maxEntries, nonce) == 0
      && !Claims(Run(m1, cs, maxEntries), nonce, t2, maxEntries)
  {
    hide InOrder, Between, Claims, After, Prune, Holds, Run, Accepted, AcceptedOf;
    var m1 := After(m, nonce, t1, maxEntries);
    FreshlyHeld(m, nonce, t1, maxEntries);
    HeldThroughout(m1, cs, maxEntries, nonce, t1, 0, t1, t2);
    HeldIsRefused(Run(m1, cs, maxEntries), nonce, t1, Accepted(m1, cs, maxEntries), t2, maxEntries);
  }

  lemma {:induction false} FreshlyHeld(m: Seen, nonce: string, at: int, maxEntries: nat)
    requires InOrder(m, at) && Claims(m, nonce, at, maxEntries)
    ensures InOrder(After(m, nonce, at, maxEntries), at) && Holds(After(m, nonce, at, maxEntries), nonce, at, 0)
  {
    ClaimAppends(m, nonce, at, maxEntries);
    hide Prune, Claims, After, Unique;
  }

  lemma {:induction false} SecondClaim(m: Seen, nonce: string, t1: int, t2: int, later: nat, maxEntries: nat)
    requires InOrder(m, t2) && t2 - t1 < TTL_MS
    requires Holds(m, nonce, t1, later) || (nonce !in KeySet(m) && later + 1 >= maxEntries)
    ensures Claims(m, nonce, t2, maxEntries) <==> later + 1 >= maxEntries
  {
    ClaimAppends(m, nonce, t2, maxEntries);
    hide InOrder, Claims, After, KeySet;
    if Holds(m, nonce, t1, later) {
      PruneHolds(m, t2, maxEntries, nonce, t1, later);
      var pruned := Prune(m, t2, maxEntries);
      hide Prune;
      if later + 1 < maxEntries { KeyIn(pruned, |pruned| - 1 - later); }
    } else {
      ExpireKeys(m, t2);
      ShrinkKeys(Expire(m, t2), maxEntries);
    }
  }

  /** Within one instant, a nonce accepted once is not accepted again while the cap has room. */
  lemma {:induction false} OnceAnInstant(m: Seen, cs: seq<Claim>, maxEntries: nat, nonce: string, at: int)
    requires InOrder(m, at) && Between(cs, at, at)
    requires AcceptedOf(m, cs, maxEntries, nonce) > 0 && Accepted(m, cs, maxEntries) < maxEntries
    ensures !Claims(Run(m, cs, maxEntries), nonce, at, maxEntries)
    decreases |cs|
  {
    hide InOrder, Between, Claims, After, Holds;
    var c := cs[0];
    var next := After(m, c.nonce, c.at, maxEntries);
    BetweenTail(cs, at, at);
    if c.nonce == nonce && Claims(m, c.nonce, at, maxEntries) {
      FreshlyHeld(m, nonce, at, maxEntries);
      HeldThroughout(next, cs[1..], maxEntries, nonce, at, 0, at, at);
      HeldIsRefused(Run(next, cs[1..], maxEntries), nonce, at, Accepted(next, cs[1..], maxEntries), at, maxEntries);
    } else {
      ClaimAppends(m, c.nonce, at, maxEntries);
      hide Prune;
      OnceAnInstant(next, cs[1..], maxEntries, nonce, at);
    }
  }

  /** A run that ends at the very end of the window: a replay it lets through is its last. */
  lemma {:induction false} EdgeRun(
      m: Seen, cs: seq<Claim>, maxEntries: nat, nonce: string, t1: int, later: nat, start: int)
    requires InOrder(m, start) && Holds(m, nonce, t1, later)
    requires Between(cs, start, t1 + TTL_MS) && start <= t1 + TTL_MS
    requires later + Accepted(m, cs, maxEntries) + 1 < maxEntries && AcceptedOf(m, cs, maxEntries, nonce) > 0
    ensures !Claims(Run(m, cs, maxEntries), nonce, t1 + TTL_MS, maxEntries)
    decreases |cs|
  {
    hide InOrder, Between, Claims, After, Holds;
    var c := cs[0];
    BetweenTail(cs, start, t1 + TTL_MS);
    OrderedLater(m, start, c.at);
    if c.at < t1 + TTL_MS {
      HeldStep(m, nonce, t1, later, c, maxEntries);
      HeldIsRefused(m, nonce, t1, later, c.at, maxEntries);
      EdgeRun(After(m, c.nonce, c.at, maxEntries), cs[1..], maxEntries, nonce, t1,
              if Claims(m, c.nonce, c.at, maxEntries) then later + 1 else later, c.at);
    } else {
      FromNowOn(cs, start, t1 + TTL_MS);
      OnceAnInstant(m, cs, maxEntries, nonce, t1 + TTL_MS);
    }
  }

  lemma {:induction false} FromNowOn(cs: seq<Claim>, start: int, end: int)
    requires cs != [] && Between(cs, start, end) && cs[0].at == end
    ensures Between(cs, end, end)
  {}

  /**
   * A payload stamped `ts` and accepted at `t1` is accepted again later exactly at the one
   * instant where the inclusive freshness window and the exclusive retention window touch, and
   * there once; whatever was claimed in between, its own replays included.
   */
  lemma {:induction false} ReplayedOnlyAtTheEdge(
      m: Seen, ts: int, nonce: string, t1: int, cs: seq<Claim>, t2: int, maxEntries: nat)
    requires InOrder(m, t1) && IsFresh(ts, t1) && Claims(m, nonce, t1, maxEntries)
    requires Between(cs, t1, t2) && t1 <= t2
    requires Accepted(After(m, nonce, t1, maxEntries), cs, maxEntries) + 1 < maxEntries
    ensures var m1 := After(m, nonce, t1, maxEntries);
      (IsFresh(ts, t2) && Claims(Run(m1, cs, maxEntries), nonce, t2, maxEntries))
      <==> (t2 == t1 + 240000 && ts == t1 + 120000 && AcceptedOf(m1, cs, maxEntries, nonce) == 0)
  {
    hide InOrder, Between, Claims, After, Prune, Holds, Run, Accepted, AcceptedOf;
    var m1 := After(m, nonce, t1, maxEntries);
    if t2 < t1 + TTL_MS {
      NoReplayInside(m, nonce, t1, cs, t2, maxEntries);
    } else if t2 == t1 + TTL_MS {
      FreshlyHeld(m, nonce, t1, maxEntries);
      if AcceptedOf(m1, cs, maxEntries, nonce) == 0 {
        LateClaim(m1, cs, maxEntries, nonce, t1, t2);
      } else {
        EdgeRun(m1, cs, maxEntries, nonce, t1, 0, t1);
      }
    }
  }

  /** With room for one entry only, a replay goes straight through. */
  lemma {:induction false} NoRoomNoMemory(nonce: string, at: int)
    ensures var m1 := After([], nonce, at, 1);
      Claims([], nonce, at, 1) && Claims(m1, nonce, at, 1)
  {
    ClaimedAgainIff([], nonce, at, [], at, 1);
  }

  /** The one instant, in numbers: stamped 120000, accepted at 0, and accepted again at 240000. */
  lemma {:induction false} AcceptedAgainAtTheEdge(nonce: string, maxEntries: nat)
    requires maxEntries > 1
    ensures IsFresh(120000, 0) && Claims([], nonce, 0, maxEntries)
    ensures var m1 := After([], nonce, 0, maxEntries);
      IsFresh(120000, 240000) && Claims(m1, nonce, 240000, maxEntries)
  {
    assert After([], nonce, 0, maxEntries) == Run(After([], nonce, 0, maxEntries), [], maxEntries);
    ReplayedOnlyAtTheEdge([], 120000, nonce, 0, [], 240000, maxEntries);
  }
}
