/** Selection depends on the set of nodes and on nothing else: not their order, not the units. */
module SelectorTheorems {
  import opened Prelude
  import opened MeshTypes
  import opened CodeUnits
  import opened Score
  import opened Selector
  import Money

  // ----- what is selected -----

  lemma {:induction false} QuotesAre(rs: seq<NodeRecord>, q: Query, o: Options, x: Quote)
    ensures x in Quotes(rs, q, o) <==> x.record in rs && Judge(x.record, q, o) == Eligible(x.price)
  {
    hide Judge;
    if rs != [] {
      var front := rs[..|rs| - 1];
      QuotesAre(front, q, o, x);
      assert rs == front + [rs[|rs| - 1]];
    }
  }

  lemma {:induction false} EveryRecordCounts(rs: seq<NodeRecord>, q: Query, o: Options)
    ensures var t := TallyOf(rs, q, o);
      t.wrongNetwork + t.stale + t.unhealthy + t.wrongModel + t.notOptedIn + t.saturated + t.excluded
      + t.unpriceable + |Quotes(rs, q, o)| == |rs|
  {
    hide Judge;
    if rs != [] {
      EveryRecordCounts(rs[..|rs| - 1], q, o);
      match Judge(rs[|rs| - 1], q, o)
      case Eligible(_) =>
      case Rejected(Excluded) =>
      case Rejected(WrongNetwork) =>
      case Rejected(Stale) =>
      case Rejected(Unhealthy) =>
      case Rejected(WrongModel) =>
      case Rejected(NotOptedIn) =>
      case Rejected(Saturated) =>
      case Rejected(Unpriceable) =>
    }
  }

  /**
   * A node is selected exactly when some node is eligible; it is one of them, its score is a
   * ratio, and every record is either a candidate or tallied under one reason.
   */
  lemma {:induction false} SelectsAnEligibleNode(rs: seq<NodeRecord>, q: Query, o: Options, draw: Option<real>)
    requires NormalizeWeights(o.weights).Some?
    ensures Selected(rs, q, o, draw).Ok? <==> exists r :: r in rs && Judge(r, q, o).Eligible?
    ensures Selected(rs, q, o, draw).Ok? ==>
      var s := Selected(rs, q, o, draw).value;
      s.node in rs && Judge(s.node, q, o).Eligible? && Unit(s.score) && s.candidates == |Quotes(rs, q, o)|
  {
    hide Judge, Scores, Extrema, Times, Total, UnitDraw;
    var qs := Quotes(rs, q, o);
    var sorted := SortById(qs);
    if exists r :: r in rs && Judge(r, q, o).Eligible? {
      var r :| r in rs && Judge(r, q, o).Eligible?;
      QuotesAre(rs, q, o, Quote(r, Judge(r, q, o).price));
    }
    if qs != [] {
      QuotesAre(rs, q, o, qs[0]);
      assert qs[0] in qs;
      if Selected(rs, q, o, draw).Ok? {
        var w := NormalizeWeights(o.weights).value;
        var x := ChosenQuote(sorted, w, Floor(o), draw);
        QuotesAre(rs, q, o, x);
      }
    }
  }

  lemma {:induction false} ChosenQuote(qs: seq<Quote>, w: Weights, floor: real, draw: Option<real>) returns (x: Quote)
    requires qs != []
    ensures x in qs && Choose(qs, w, floor, draw).node == x.record
    ensures Unit(Choose(qs, w, floor, draw).score) && Choose(qs, w, floor, draw).candidates == |qs|
  {
    var scores := Scores(qs, Extrema(qs), w);
    hide Scores, Extrema, Times, Total, UnitDraw;
    x := qs[Pick(DrawWeights(scores, floor), Times(UnitDraw(draw), Total(DrawWeights(scores, floor))), 0)];
  }

  // ----- eligibility, field by field -----

  /** The first capability for the wanted model, and what it costs. */
  ghost predicate PricedAt(cs: seq<Capability<string>>, wanted: string, fold: string -> string, price: nat) {
    exists i :: 0 <= i < |cs| && FirstFor(cs, wanted, fold, i)
      && Money.UsdcToAtomic(cs[i].pricePer1kTokensUsdc) == Ok(price)
  }

  ghost predicate FirstFor(cs: seq<Capability<string>>, wanted: string, fold: string -> string, i: nat) {
    && i < |cs| && NormalizeModelId(cs[i].model, fold) == wanted
    && forall k | 0 <= k < i :: NormalizeModelId(cs[k].model, fold) != wanted
  }

  /** What a record must not be, in the order it is asked. */
  ghost predicate Fails(r: NodeRecord, q: Query, o: Options, test: Reason) {
    match test
    case Excluded => r.registration.nodeId in q.excluded
    case WrongNetwork => o.network.Some? && r.registration.network != o.network.value
    case Stale => o.staleAfterMs.Some? && q.now > r.health.lastSeenAt + o.staleAfterMs.value
    case Unhealthy => !r.health.healthy
    case WrongModel =>
      forall c | c in r.registration.capabilities ::
        NormalizeModelId(c.model, o.fold) != NormalizeModelId(q.model, o.fold)
    case NotOptedIn => !r.usdcOptedIn
    case Saturated => r.health.inFlight >= r.health.maxConcurrency
    case Unpriceable =>
      forall price :: !PricedAt(r.registration.capabilities, NormalizeModelId(q.model, o.fold), o.fold, price)
  }

  const TESTS := [Excluded, WrongNetwork, Stale, Unhealthy, WrongModel, NotOptedIn, Saturated, Unpriceable]

  /** Not excluded, on the network, fresh, healthy, offering the model, opted in, idle enough, priceable. */
  ghost predicate Routable(r: NodeRecord, q: Query, o: Options) {
    forall test :: !Fails(r, q, o, test)
  }

  /** `test` is the first that the record fails. */
  ghost predicate FirstFailed(r: NodeRecord, q: Query, o: Options, test: Reason) {
    exists i :: 0 <= i < |TESTS| && TESTS[i] == test && Fails(r, q, o, test)
      && forall j | 0 <= j < i :: !Fails(r, q, o, TESTS[j])
  }

  lemma {:induction false} PriceOfIff(cs: seq<Capability<string>>, wanted: string, fold: string -> string, price: nat)
    ensures PriceOf(cs, wanted, fold) == Some(price) <==> PricedAt(cs, wanted, fold, price)
  {
    hide Money.UsdcToAtomic, NormalizeModelId;
    if cs != [] && NormalizeModelId(cs[0].model, fold) == wanted {
      assert FirstFor(cs, wanted, fold, 0);
    } else if cs != [] {
      PriceOfIff(cs[1..], wanted, fold, price);
      PricedLater(cs, wanted, fold, price);
    }
  }

  lemma {:induction false} PricedLater(cs: seq<Capability<string>>, wanted: string, fold: string -> string, price: nat)
    requires cs != [] && NormalizeModelId(cs[0].model, fold) != wanted
    ensures PricedAt(cs, wanted, fold, price) <==> PricedAt(cs[1..], wanted, fold, price)
  {
    hide Money.UsdcToAtomic, NormalizeModelId;
    if PricedAt(cs[1..], wanted, fold, price) {
      var i :| 0 <= i < |cs[1..]| && FirstFor(cs[1..], wanted, fold, i)
        && Money.UsdcToAtomic(cs[1..][i].pricePer1kTokensUsdc) == Ok(price);
      forall k | 0 <= k < i + 1
        ensures NormalizeModelId(cs[k].model, fold) != wanted
      {
        if k > 0 { assert cs[1..][k - 1] == cs[k]; }
      }
      assert FirstFor(cs, wanted, fold, i + 1);
    }
    if PricedAt(cs, wanted, fold, price) {
      var i :| 0 <= i < |cs| && FirstFor(cs, wanted, fold, i)
        && Money.UsdcToAtomic(cs[i].pricePer1kTokensUsdc) == Ok(price);
      forall k | 0 <= k < i - 1
        ensures NormalizeModelId(cs[1..][k].model, fold) != wanted
      {
        assert cs[1..][k] == cs[k + 1];
      }
      assert FirstFor(cs[1..], wanted, fold, i - 1);
    }
  }

  lemma {:induction false} AdvertisesIff(r: NodeRecord, q: Query, o: Options)
    ensures Advertises(r, q.model, o.fold) <==> !Fails(r, q, o, WrongModel)
  {
    hide NormalizeModelId;
  }

  lemma {:induction false} PriceableIff(r: NodeRecord, q: Query, o: Options)
    ensures NodePriceAtomic(r, q.model, o.fold).Some? <==> !Fails(r, q, o, Unpriceable)
  {
    hide PriceOf, PricedAt, NormalizeModelId;
    var cs, wanted := r.registration.capabilities, NormalizeModelId(q.model, o.fold);
    forall price: nat ensures PriceOf(cs, wanted, o.fold) == Some(price) <==> PricedAt(cs, wanted, o.fold, price) {
      PriceOfIff(cs, wanted, o.fold, price);
    }
  }

  /** A record is a candidate exactly if it is routable, and is turned away for the first test it fails. */
  lemma {:induction false} JudgeIff(r: NodeRecord, q: Query, o: Options)
    ensures Judge(r, q, o).Eligible? <==> Routable(r, q, o)
    ensures forall test :: Judge(r, q, o) == Rejected(test) <==> FirstFailed(r, q, o, test)
  {
    hide Judge, Advertises, NodePriceAtomic, Fails, Routable, FirstFailed;
    AdvertisesIff(r, q, o);
    PriceableIff(r, q, o);
    RoutableIs(r, q, o);
    forall test
      ensures Judge(r, q, o) == Rejected(test) <==> FirstFailed(r, q, o, test)
    {
      FirstFailedIs(r, q, o, test);
    }
  }

  lemma {:induction false} RoutableIs(r: NodeRecord, q: Query, o: Options)
    requires Advertises(r, q.model, o.fold) <==> !Fails(r, q, o, WrongModel)
    requires NodePriceAtomic(r, q.model, o.fold).Some? <==> !Fails(r, q, o, Unpriceable)
    ensures Judge(r, q, o).Eligible? <==> Routable(r, q, o)
  {
    hide Advertises, NodePriceAtomic, PricedAt, NormalizeModelId;
    if Judge(r, q, o).Rejected? { assert Fails(r, q, o, Judge(r, q, o).reason); }
  }

  lemma {:induction false} FirstFailedIs(r: NodeRecord, q: Query, o: Options, test: Reason)
    requires Advertises(r, q.model, o.fold) <==> !Fails(r, q, o, WrongModel)
    requires NodePriceAtomic(r, q.model, o.fold).Some? <==> !Fails(r, q, o, Unpriceable)
    ensures Judge(r, q, o) == Rejected(test) <==> FirstFailed(r, q, o, test)
  {
    hide Advertises, NodePriceAtomic, PricedAt, NormalizeModelId;
    assert TESTS[0] == Excluded && TESTS[1] == WrongNetwork && TESTS[2] == Stale && TESTS[3] == Unhealthy;
    assert TESTS[4] == WrongModel && TESTS[5] == NotOptedIn && TESTS[6] == Saturated && TESTS[7] == Unpriceable;
  }

  /** The records that fail `test` first. */
  ghost function TurnedAway(rs: seq<NodeRecord>, q: Query, o: Options, test: Reason): set<int> {
    set i | 0 <= i < |rs| && FirstFailed(rs[i], q, o, test)
  }

  lemma {:induction false} TurnedAwayGrows(rs: seq<NodeRecord>, q: Query, o: Options, test: Reason, last: nat)
    requires |rs| == last + 1
    ensures |TurnedAway(rs, q, o, test)|
      == |TurnedAway(rs[..last], q, o, test)| + (if FirstFailed(rs[last], q, o, test) then 1 else 0)
  {
    hide FirstFailed;
    var now, before := TurnedAway(rs, q, o, test), TurnedAway(rs[..last], q, o, test);
    forall i
      ensures i in now <==> i in before || (i == last && FirstFailed(rs[last], q, o, test))
    {
      if 0 <= i < last { assert rs[..last][i] == rs[i]; }
    }
    assert now == before + (if FirstFailed(rs[last], q, o, test) then {last} else {});
  }

  lemma {:induction false} CountIs(rs: seq<NodeRecord>, q: Query, o: Options, test: Reason)
    ensures Count(rs, q, o, test) == |TurnedAway(rs, q, o, test)|
  {
    hide Judge, FirstFailed, Routable;
    if rs == [] {
      assert TurnedAway(rs, q, o, test) == {};
    } else {
      var last := |rs| - 1;
      CountIs(rs[..last], q, o, test);
      JudgeIff(rs[last], q, o);
      TurnedAwayGrows(rs, q, o, test, last);
      hide TurnedAway;
    }
  }

  /** Each tally counts the records whose first failed test it is. */
  lemma {:induction false} TallyIs(rs: seq<NodeRecord>, q: Query, o: Options)
    ensures var t := TallyOf(rs, q, o);
      && t.excluded == |TurnedAway(rs, q, o, Excluded)| && t.wrongNetwork == |TurnedAway(rs, q, o, WrongNetwork)|
      && t.stale == |TurnedAway(rs, q, o, Stale)| && t.unhealthy == |TurnedAway(rs, q, o, Unhealthy)|
      && t.wrongModel == |TurnedAway(rs, q, o, WrongModel)| && t.notOptedIn == |TurnedAway(rs, q, o, NotOptedIn)|
      && t.saturated == |TurnedAway(rs, q, o, Saturated)| && t.unpriceable == |TurnedAway(rs, q, o, Unpriceable)|
  {
    hide Count, TurnedAway;
    CountIs(rs, q, o, Excluded);
    CountIs(rs, q, o, WrongNetwork);
    CountIs(rs, q, o, Stale);
    CountIs(rs, q, o, Unhealthy);
    CountIs(rs, q, o, WrongModel);
    CountIs(rs, q, o, NotOptedIn);
    CountIs(rs, q, o, Saturated);
    CountIs(rs, q, o, Unpriceable);
  }

  /**
   * A node is selected exactly if the weights are usable and some record is routable, and then it
   * is one of those. With none routable the answer is the size of the listing and the tallies.
   */
  lemma {:induction false} SelectsIff(rs: seq<NodeRecord>, q: Query, o: Options, draw: Option<real>)
    ensures var w := o.weights; var r := Selected(rs, q, o, draw);
      var usable := w.latency >= 0.0 && w.price >= 0.0 && w.quality >= 0.0 && w.latency + w.price + w.quality > 0.0;
      if forall x | x in rs :: !Routable(x, q, o) then r == Err(NoCapacity(|rs|, TallyOf(rs, q, o)))
      else if !usable then r == Err(BadWeights)
      else r.Ok? && r.value.node in rs && Routable(r.value.node, q, o)
  {
    hide Judge, Routable, TallyOf, Choose, SortById, Quotes, NormalizeWeights;
    forall x ensures Judge(x, q, o).Eligible? <==> Routable(x, q, o) { JudgeIff(x, q, o); }
    QuotesNone(rs, q, o);
    if NormalizeWeights(o.weights).Some? { SelectsAnEligibleNode(rs, q, o, draw); }
  }

  lemma {:induction false} QuotesNone(rs: seq<NodeRecord>, q: Query, o: Options)
    ensures SortById(Quotes(rs, q, o)) == [] <==> forall r | r in rs :: !Judge(r, q, o).Eligible?
  {
    hide Judge, Quotes;
    var qs := Quotes(rs, q, o);
    if qs != [] {
      assert qs[0] in qs;
      QuotesAre(rs, q, o, qs[0]);
    }
    if exists r :: r in rs && Judge(r, q, o).Eligible? {
      var r :| r in rs && Judge(r, q, o).Eligible?;
      QuotesAre(rs, q, o, Quote(r, Judge(r, q, o).price));
    }
  }

  // ----- the order of the listing -----

  ghost predicate DistinctIds(rs: seq<NodeRecord>) {
    forall i, j | 0 <= i < j < |rs| :: NodeIdOf(rs[i]) != NodeIdOf(rs[j])
  }

  lemma {:induction false} CountSplit(a: seq<NodeRecord>, b: seq<NodeRecord>, q: Query, o: Options, reason: Reason)
    ensures Count(a + b, q, o, reason) == Count(a, q, o, reason) + Count(b, q, o, reason)
  {
    hide Judge;
    if b == [] {
      assert a + b == a;
    } else {
      assert (a + b)[..|a + b| - 1] == a + b[..|b| - 1];
      CountSplit(a, b[..|b| - 1], q, o, reason);
    }
  }

  /** Taking one occurrence out of each of two equal bags leaves equal bags. */
  lemma {:induction false} SameBagRest(
      front: seq<NodeRecord>, x: NodeRecord, left: seq<NodeRecord>, right: seq<NodeRecord>)
    requires multiset(front + [x]) == multiset(left + ([x] + right))
    ensures multiset(front) == multiset(left + right)
  {
    assert multiset(front + [x]) == multiset(front) + multiset{x};
    assert multiset(left + ([x] + right)) == multiset(left) + multiset{x} + multiset(right);
    assert multiset(front) == multiset(front + [x]) - multiset{x};
    assert multiset(left + right) == multiset(left + ([x] + right)) - multiset{x};
  }

  lemma {:induction false} CountAround(
      left: seq<NodeRecord>, x: NodeRecord, right: seq<NodeRecord>, q: Query, o: Options, reason: Reason)
    ensures Count(left + ([x] + right), q, o, reason)
      == Count(left + right, q, o, reason) + Count([x], q, o, reason)
  {
    CountSplit(left, [x] + right, q, o, reason);
    CountSplit([x], right, q, o, reason);
    CountSplit(left, right, q, o, reason);
    hide Count;
  }

  lemma {:induction false} OccursIn(b: seq<NodeRecord>, x: NodeRecord)
      returns (left: seq<NodeRecord>, right: seq<NodeRecord>)
    requires x in multiset(b)
    ensures b == left + ([x] + right)
  {
    var k :| 0 <= k < |b| && b[k] == x;
    left, right := b[..k], b[k + 1..];
  }

  /** The last of one bag, taken out of both. */
  lemma {:induction false} TakeOut(a: seq<NodeRecord>, b: seq<NodeRecord>)
      returns (front: seq<NodeRecord>, x: NodeRecord, left: seq<NodeRecord>, right: seq<NodeRecord>)
    requires a != [] && multiset(a) == multiset(b)
    ensures a == front + [x] && b == left + ([x] + right)
    ensures multiset(front) == multiset(left + right)
  {
    x, front := a[|a| - 1], a[..|a| - 1];
    assert x in multiset(a);
    left, right := OccursIn(b, x);
    assert a == front + [x];
    SameBagRest(front, x, left, right);
  }

  lemma {:induction false} CountSameBag(
      a: seq<NodeRecord>, b: seq<NodeRecord>, q: Query, o: Options, reason: Reason)
    requires multiset(a) == multiset(b)
    ensures Count(a, q, o, reason) == Count(b, q, o, reason)
    decreases |a|
  {
    hide Judge, Count;
    if a == [] {
      assert |multiset(b)| == 0;
    } else {
      var front, x, left, right := TakeOut(a, b);
      CountSameBag(front, left + right, q, o, reason);
      CountSplit(front, [x], q, o, reason);
      CountAround(left, x, right, q, o, reason);
    }
  }

  ghost predicate DistinctNodes(qs: seq<Quote>) {
    forall i, j | 0 <= i < j < |qs| :: NodeIdOf(qs[i].record) != NodeIdOf(qs[j].record)
  }

  lemma {:induction false} QuotesDistinct(rs: seq<NodeRecord>, q: Query, o: Options)
    requires DistinctIds(rs)
    ensures DistinctNodes(Quotes(rs, q, o))
  {
    hide Judge;
    if rs != [] {
      var front := rs[..|rs| - 1];
      QuotesDistinct(front, q, o);
      var qs := Quotes(front, q, o);
      forall i | 0 <= i < |qs|
        ensures NodeIdOf(qs[i].record) != NodeIdOf(rs[|rs| - 1])
      {
        QuotesAre(front, q, o, qs[i]);
        var k :| 0 <= k < |front| && front[k] == qs[i].record;
        assert front[k] == rs[k];
      }
    }
  }

  lemma {:induction false} KeyedDistinct(qs: seq<Quote>)
    requires DistinctNodes(qs)
    ensures DistinctKeys(Keyed(qs))
  {
    forall i, j | 0 <= i < j < |qs|
      ensures Keyed(qs)[i].0 != Keyed(qs)[j].0
    {
      if Utf16(NodeIdOf(qs[i].record)) == Utf16(NodeIdOf(qs[j].record)) {
        Utf16Injective(NodeIdOf(qs[i].record), NodeIdOf(qs[j].record));
      }
    }
  }

  lemma {:induction false} KeyedSame(a: seq<Quote>, b: seq<Quote>)
    requires forall x :: x in a <==> x in b
    ensures SameEntries(Keyed(a), Keyed(b))
  {
    forall e
      ensures e in Keyed(a) <==> e in Keyed(b)
    {
      KeyedHas(a, e);
      KeyedHas(b, e);
    }
  }

  lemma {:induction false} KeyedHas(qs: seq<Quote>, e: (Text, Quote))
    ensures e in Keyed(qs) <==> e.1 in qs && e.0 == Utf16(NodeIdOf(e.1.record))
  {
    if e in Keyed(qs) {
      var i :| 0 <= i < |qs| && Keyed(qs)[i] == e;
    }
    if e.1 in qs && e.0 == Utf16(NodeIdOf(e.1.record)) {
      var i :| 0 <= i < |qs| && qs[i] == e.1;
      assert Keyed(qs)[i] == e;
    }
  }

  lemma {:induction false} SortedAlike(a: seq<Quote>, b: seq<Quote>)
    requires forall x :: x in a <==> x in b
    requires DistinctNodes(a) && DistinctNodes(b)
    ensures SortById(a) == SortById(b)
  {
    KeyedDistinct(a);
    KeyedDistinct(b);
    KeyedSame(a, b);
    hide Keyed;
    SortAscending(Keyed(a));
    SortAscending(Keyed(b));
    SortKeeps(Keyed(a));
    SortKeeps(Keyed(b));
    AscendingUnique(SortEntries(Keyed(a)), SortEntries(Keyed(b)));
  }

  /** For a fixed draw, the store's listing order changes nothing: not the node, not the tally. */
  lemma {:induction false} ListingOrderIrrelevant(
      a: seq<NodeRecord>, b: seq<NodeRecord>, q: Query, o: Options, draw: Option<real>)
    requires multiset(a) == multiset(b) && DistinctIds(a) && DistinctIds(b)
    ensures Selected(a, q, o, draw) == Selected(b, q, o, draw)
  {
    var x, y := Quotes(a, q, o), Quotes(b, q, o);
    assert |a| == |multiset(a)| == |multiset(b)| == |b|;
    assert TallyOf(a, q, o) == TallyOf(b, q, o) by {
      forall reason ensures Count(a, q, o, reason) == Count(b, q, o, reason) {
        CountSameBag(a, b, q, o, reason);
      }
    }
    assert SortById(x) == SortById(y) by {
      forall r ensures r in a <==> r in b {
        assert r in a <==> r in multiset(a);
        assert r in b <==> r in multiset(b);
      }
      forall e ensures e in x <==> e in y {
        QuotesAre(a, q, o, e);
        QuotesAre(b, q, o, e);
      }
      QuotesDistinct(a, q, o);
      QuotesDistinct(b, q, o);
      SortedAlike(x, y);
    }
    hide SortById, Quotes, TallyOf, Choose, NormalizeWeights;
  }

  // ----- who wins -----

  /** The weights drawn from, in node id order. */
  function WeightsOf(qs: seq<Quote>, w: Weights, floor: real): (r: seq<real>)
    requires qs != []
    ensures |r| == |qs|
  {
    DrawWeights(Scores(qs, Extrema(qs), w), floor)
  }

  lemma {:induction false} PickWins(qs: seq<Quote>, w: Weights, floor: real, unit: real, i: nat)
    requires qs != [] && floor > 0.0 && 0.0 <= unit < 1.0 && i < |qs|
    ensures var ws := WeightsOf(qs, w, floor);
      && AllPositive(ws) && Total(ws) > 0.0
      && var from, to := ShareOf(Cumulative(ws, i), Total(ws)), ShareOf(Cumulative(ws, i + 1), Total(ws));
         && (Pick(ws, Times(unit, Total(ws)), 0) == i <==> from <= unit < to)
         && to == from + ShareOf(Scores(qs, Extrema(qs), w)[i] + floor, Total(ws))
  {
    var ws := WeightsOf(qs, w, floor);
    hide Scores, Extrema;
    assert AllPositive(ws);
    WinningInterval(ws, unit, i);
    var t := Times(unit, Total(ws));
    hide Times, Total, Cumulative, ShareOf, Drawn;
    PickIsDrawn(ws, t, 0);
    if Drawn(ws, t, i) { DrawnOnce(ws, t, i, Pick(ws, t, 0)); }
  }

  /**
   * Each eligible node is selected on exactly one interval of the draw, as long as its score plus
   * the floor, as a share of the total over all eligible nodes.
   */
  lemma {:induction false} EligibleWinsItsShare(
      rs: seq<NodeRecord>, q: Query, o: Options, unit: real, node: NodeRecord)
      returns (i: nat, from: real, to: real)
    requires DistinctIds(rs) && NormalizeWeights(o.weights).Some? && 0.0 <= unit < 1.0
    requires node in rs && Judge(node, q, o).Eligible?
    ensures var qs := SortById(Quotes(rs, q, o)); var w := NormalizeWeights(o.weights).value;
      && i < |qs| && qs[i].record == node && 0.0 <= from <= to <= 1.0
      && var total := Total(WeightsOf(qs, w, Floor(o)));
      && total > 0.0 && from == ShareOf(Cumulative(WeightsOf(qs, w, Floor(o)), i), total)
      && to - from == ShareOf(Scores(qs, Extrema(qs), w)[i] + Floor(o), total)
    ensures Floor(o)
      == if o.weightFloor.Some? && o.weightFloor.value > 0.0 then o.weightFloor.value else 5.0 / 100.0
    ensures var r := Selected(rs, q, o, Some(unit)); r.Ok? && (r.value.node == node <==> from <= unit < to)
    ensures from <= unit < to ==>
      var qs := SortById(Quotes(rs, q, o)); var w := NormalizeWeights(o.weights).value;
      Selected(rs, q, o, Some(unit)).value.score == Scores(qs, Extrema(qs), w)[i]
  {
    hide Judge, Scores, Extrema, Quotes, SortById, Times, Total, Cumulative, Pick, ShareOf, Selected, WeightsOf;
    var qs := SortById(Quotes(rs, q, o));
    var w := NormalizeWeights(o.weights).value;
    var x := Quote(node, Judge(node, q, o).price);
    QuotesAre(rs, q, o, x);
    assert x in Quotes(rs, q, o) && x in qs;
    i :| 0 <= i < |qs| && qs[i] == x;
    PickWins(qs, w, Floor(o), unit, i);
    SelectedPick(rs, q, o, unit, w);
    var ws := WeightsOf(qs, w, Floor(o));
    from, to := ShareOf(Cumulative(ws, i), Total(ws)), ShareOf(Cumulative(ws, i + 1), Total(ws));
    WithinUnit(ws, i);
    QuotesDistinct(rs, q, o);
    SortedDistinct(Quotes(rs, q, o));
    var p := Pick(ws, Times(unit, Total(ws)), 0);
    assert p != i ==> NodeIdOf(qs[p].record) != NodeIdOf(node);
  }

  lemma {:induction false} SelectedPick(rs: seq<NodeRecord>, q: Query, o: Options, unit: real, w: Weights)
    requires SortById(Quotes(rs, q, o)) != [] && NormalizeWeights(o.weights) == Some(w) && 0.0 <= unit < 1.0
    ensures var qs := SortById(Quotes(rs, q, o)); var ws := WeightsOf(qs, w, Floor(o));
      var r := Selected(rs, q, o, Some(unit));
      var p := Pick(ws, Times(unit, Total(ws)), 0);
      r.Ok? && r.value.node == qs[p].record && r.value.score == Scores(qs, Extrema(qs), w)[p]
  {
    hide Judge, Scores, Extrema, Quotes, SortById, Times, Total, Cumulative, Pick, NormalizeWeights, TallyOf;
  }

  lemma {:induction false} SortedDistinct(qs: seq<Quote>)
    requires DistinctNodes(qs)
    ensures DistinctNodes(SortById(qs))
  {
    KeyedDistinct(qs);
    SortAscending(Keyed(qs));
    SortKeeps(Keyed(qs));
    var sorted := SortEntries(Keyed(qs));
    forall i, j | 0 <= i < j < |qs|
      ensures NodeIdOf(sorted[i].1.record) != NodeIdOf(sorted[j].1.record)
    {
      LessIrreflexive(sorted[i].0);
      assert Less(sorted[i].0, sorted[j].0);
      assert sorted[i] in sorted && sorted[j] in sorted;
      assert sorted[i] in Keyed(qs) && sorted[j] in Keyed(qs);
    }
  }

  /** The candidates stand in ascending order of node id. */
  lemma {:induction false} CandidatesInIdOrder(rs: seq<NodeRecord>, q: Query, o: Options)
    requires DistinctIds(rs)
    ensures var qs := SortById(Quotes(rs, q, o));
      forall i, j | 0 <= i < j < |qs| :: Less(Utf16(NodeIdOf(qs[i].record)), Utf16(NodeIdOf(qs[j].record)))
  {
    var qs := Quotes(rs, q, o);
    QuotesDistinct(rs, q, o);
    KeyedDistinct(qs);
    SortAscending(Keyed(qs));
    SortKeeps(Keyed(qs));
    var sorted := SortEntries(Keyed(qs));
    hide Quotes, SortEntries;
    forall i | 0 <= i < |sorted|
      ensures sorted[i].0 == Utf16(NodeIdOf(sorted[i].1.record))
    {
      assert sorted[i] in Keyed(qs);
    }
  }

  /** A draw of one takes the last candidate; below zero, or not finite, a draw counts as zero. */
  lemma {:induction false} OutermostDraws(rs: seq<NodeRecord>, q: Query, o: Options, draw: real)
    requires NormalizeWeights(o.weights).Some? && SortById(Quotes(rs, q, o)) != []
    ensures draw >= 1.0 ==>
      var qs := SortById(Quotes(rs, q, o));
      Selected(rs, q, o, Some(draw)).Ok? && Selected(rs, q, o, Some(draw)).value.node == qs[|qs| - 1].record
    ensures draw <= 0.0 ==> Selected(rs, q, o, Some(draw)) == Selected(rs, q, o, None)
    ensures draw <= 0.0 ==> Selected(rs, q, o, None) == Selected(rs, q, o, Some(0.0))
  {
    hide Judge, Scores, Extrema, Quotes, SortById, Total, Cumulative, Pick, NormalizeWeights, TallyOf;
    var qs, w := SortById(Quotes(rs, q, o)), NormalizeWeights(o.weights).value;
    LastAtOne(WeightsOf(qs, w, Floor(o)));
  }

  lemma {:induction false} LastAtOne(ws: seq<real>)
    requires ws != [] && AllPositive(ws)
    ensures Pick(ws, Times(1.0, Total(ws)), 0) == |ws| - 1
  {
    hide Pick, Cumulative;
    var t := Times(1.0, Total(ws));
    PickIsDrawn(ws, t, 0);
    forall k | 0 < k <= |ws| - 1
      ensures Cumulative(ws, k) <= t
    {
      TotalGrows(ws, k, |ws|);
    }
    DrawnOnce(ws, t, |ws| - 1, Pick(ws, t, 0));
  }

  lemma {:induction false} WithinUnit(ws: seq<real>, i: nat)
    requires AllPositive(ws) && i < |ws| && Total(ws) > 0.0
    ensures 0.0 <= ShareOf(Cumulative(ws, i), Total(ws)) <= ShareOf(Cumulative(ws, i + 1), Total(ws)) <= 1.0
  {
    TotalGrows(ws, 0, i);
    TotalGrows(ws, i, i + 1);
    TotalGrows(ws, i + 1, |ws|);
    assert Cumulative(ws, 0) == 0.0;
    hide Cumulative;
    SharesInOrder(0.0, Cumulative(ws, i), Total(ws));
    SharesInOrder(Cumulative(ws, i), Cumulative(ws, i + 1), Total(ws));
    SharesInOrder(Cumulative(ws, i + 1), Total(ws), Total(ws));
  }

  lemma {:induction false} SharesInOrder(a: real, b: real, total: real)
    requires total > 0.0 && a <= b
    ensures ShareOf(a, total) <= ShareOf(b, total)
    ensures ShareOf(0.0, total) == 0.0 && ShareOf(total, total) == 1.0
  {
    assert (b - a) / total >= 0.0;
    assert b / total == a / total + (b - a) / total;
  }

  // ----- the units of price and latency -----

  /** `r'` is `r` with its latency in another unit and its price at the exchange rate n/d. */
  ghost predicate Rescaled(
      r: NodeRecord, r': NodeRecord, model: string, fold: string -> string, c: real, n: nat, d: nat)
  {
    && NodeIdOf(r') == NodeIdOf(r) && r'.registration.network == r.registration.network
    && r'.usdcOptedIn == r.usdcOptedIn
    && r'.health == r.health.(latencyMsP50 := r'.health.latencyMsP50, latencyMsP95 := r'.health.latencyMsP95)
    && r'.health.latencyMsP95 == Times(c, r.health.latencyMsP95)
    && Advertises(r', model, fold) == Advertises(r, model, fold)
    && (match (NodePriceAtomic(r, model, fold), NodePriceAtomic(r', model, fold))
        case (None, None) => true
        case (Some(p), Some(p')) => Exchanged(p, p', n, d)
        case _ => false)
  }

  ghost predicate RescaledQuote(x: Quote, x': Quote, c: real, n: nat, d: nat) {
    && NodeIdOf(x'.record) == NodeIdOf(x.record) && Exchanged(x.price, x'.price, n, d)
    && Latency(x') == Times(c, Latency(x)) && x'.record.health.qualityScore == x.record.health.qualityScore
  }

  ghost predicate RescaledQuotes(a: seq<Quote>, b: seq<Quote>, c: real, n: nat, d: nat) {
    |a| == |b| && forall i | 0 <= i < |a| :: RescaledQuote(a[i], b[i], c, n, d)
  }

  lemma {:induction false} JudgedAlike(r: NodeRecord, r': NodeRecord, q: Query, o: Options, c: real, n: nat, d: nat)
    requires Rescaled(r, r', q.model, o.fold, c, n, d)
    ensures match (Judge(r, q, o), Judge(r', q, o))
      case (Rejected(x), Rejected(y)) => x == y
      case (Eligible(p), Eligible(p')) => RescaledQuote(Quote(r, p), Quote(r', p'), c, n, d)
      case _ => false
  {
    hide Advertises, NodePriceAtomic, Exchanged, Times;
  }

  lemma {:induction false} QuotedAlike(
      a: seq<NodeRecord>, b: seq<NodeRecord>, q: Query, o: Options, c: real, n: nat, d: nat)
    requires |a| == |b| && forall i | 0 <= i < |a| :: Rescaled(a[i], b[i], q.model, o.fold, c, n, d)
    ensures RescaledQuotes(Quotes(a, q, o), Quotes(b, q, o), c, n, d)
    ensures forall reason :: Count(a, q, o, reason) == Count(b, q, o, reason)
  {
    if a != [] {
      var i := |a| - 1;
      hide Judge, Rescaled, RescaledQuote, Quotes, Count;
      QuotedAlike(a[..i], b[..i], q, o, c, n, d);
      JudgedAlike(a[i], b[i], q, o, c, n, d);
      Grown(a, q, o, i);
      Grown(b, q, o, i);
      assert a[..i + 1] == a && b[..i + 1] == b;
    } else {
      NoneJudged(a, q, o);
      NoneJudged(b, q, o);
    }
  }

  ghost predicate RescaledEntries(
      a: seq<(Text, Quote)>, b: seq<(Text, Quote)>, c: real, n: nat, d: nat)
  {
    |a| == |b| && forall i | 0 <= i < |a| :: a[i].0 == b[i].0 && RescaledQuote(a[i].1, b[i].1, c, n, d)
  }

  lemma {:induction false} InsertRescaled(
      e: (Text, Quote), a: seq<(Text, Quote)>, f: (Text, Quote), b: seq<(Text, Quote)>, c: real, n: nat, d: nat)
    requires RescaledEntries(a, b, c, n, d) && e.0 == f.0 && RescaledQuote(e.1, f.1, c, n, d)
    ensures RescaledEntries(InsertEntry(e, a), InsertEntry(f, b), c, n, d)
  {
    hide RescaledQuote;
    if a != [] && Less(a[0].0, e.0) { InsertRescaled(e, a[1..], f, b[1..], c, n, d); }
  }

  lemma {:induction false} SortRescaled(
      a: seq<(Text, Quote)>, b: seq<(Text, Quote)>, c: real, n: nat, d: nat)
    requires RescaledEntries(a, b, c, n, d)
    ensures RescaledEntries(SortEntries(a), SortEntries(b), c, n, d)
  {
    hide RescaledQuote;
    if a != [] {
      SortRescaled(a[1..], b[1..], c, n, d);
      InsertRescaled(a[0], SortEntries(a[1..]), b[0], SortEntries(b[1..]), c, n, d);
    }
  }

  lemma {:induction false} SortByIdRescaled(a: seq<Quote>, b: seq<Quote>, c: real, n: nat, d: nat)
    requires RescaledQuotes(a, b, c, n, d)
    ensures RescaledQuotes(SortById(a), SortById(b), c, n, d)
  {
    forall i | 0 <= i < |a|
      ensures Keyed(a)[i].0 == Keyed(b)[i].0 && RescaledQuote(Keyed(a)[i].1, Keyed(b)[i].1, c, n, d)
    {
      assert RescaledQuote(a[i], b[i], c, n, d);
    }
    SortRescaled(Keyed(a), Keyed(b), c, n, d);
    hide RescaledQuote;
  }

  ghost predicate RescaledContext(x: Context, y: Context, c: real, n: nat, d: nat) {
    && y.minLatency == Times(c, x.minLatency) && y.maxLatency == Times(c, x.maxLatency)
    && Exchanged(x.minPrice, y.minPrice, n, d) && Exchanged(x.maxPrice, y.maxPrice, n, d)
  }

  lemma {:induction false} ScaledComparison(c: real, x: real, y: real)
    requires c > 0.0
    ensures Times(c, x) < Times(c, y) <==> x < y
  {
    assert Times(c, y) - Times(c, x) == c * (y - x);
    if x < y { assert c * (y - x) > 0.0; } else { assert c * (y - x) <= 0.0; }
  }

  lemma {:induction false} ExchangedComparison(x: nat, x': nat, y: nat, y': nat, n: nat, d: nat)
    requires n > 0 && d > 0 && Exchanged(x, x', n, d) && Exchanged(y, y', n, d)
    ensures x' < y' <==> x < y
  {
    ExchangedDifference(x, x', y, y', n, d);
    ExchangedSign(x - y, x' - y', n, d);
  }

  lemma {:induction false} ExtremaRescaled(a: seq<Quote>, b: seq<Quote>, c: real, n: nat, d: nat)
    requires a != [] && RescaledQuotes(a, b, c, n, d) && c > 0.0 && n > 0 && d > 0
    ensures RescaledContext(Extrema(a), Extrema(b), c, n, d)
  {
    var i := |a| - 1;
    assert RescaledQuote(a[i], b[i], c, n, d);
    if i > 0 {
      assert RescaledQuotes(a[..i], b[..i], c, n, d);
      ExtremaRescaled(a[..i], b[..i], c, n, d);
      var x, y := Extrema(a[..i]), Extrema(b[..i]);
      hide Times, Exchanged;
      ScaledComparison(c, Latency(a[i]), x.minLatency);
      ScaledComparison(c, x.maxLatency, Latency(a[i]));
      ExchangedComparison(a[i].price, b[i].price, x.minPrice, y.minPrice, n, d);
      ExchangedComparison(x.maxPrice, y.maxPrice, a[i].price, b[i].price, n, d);
    }
  }

  lemma {:induction false} LatencyTermRescaled(l: real, x: Context, y: Context, c: real)
    requires c > 0.0 && y.minLatency == Times(c, x.minLatency) && y.maxLatency == Times(c, x.maxLatency)
    ensures LatencyTerm(Times(c, l), y) == LatencyTerm(l, x)
  {
    NumberScales(l, x.minLatency, x.maxLatency, c);
    assert y.minLatency == c * x.minLatency && y.maxLatency == c * x.maxLatency && Times(c, l) == c * l;
    hide NormalizeNumber, Times;
  }

  lemma {:induction false} ScoreRescaled(
      x: Quote, x': Quote, ctx: Context, ctx': Context, w: Weights, c: real, n: nat, d: nat)
    requires c > 0.0 && n > 0 && d > 0
    requires RescaledQuote(x, x', c, n, d) && RescaledContext(ctx, ctx', c, n, d)
    ensures ScoreNode(Latency(x'), Some(x'.price), x'.record.health.qualityScore, ctx', w)
      == ScoreNode(Latency(x), Some(x.price), x.record.health.qualityScore, ctx, w)
  {
    hide Times, Exchanged, NormalizeAtomic;
    AtomicExchanged(x.price, x'.price, ctx.minPrice, ctx'.minPrice, ctx.maxPrice, ctx'.maxPrice, n, d);
    LatencyTermRescaled(Latency(x), ctx, ctx', c);
    hide LatencyTerm;
  }

  lemma {:induction false} ChosenAlike(
      a: seq<Quote>, b: seq<Quote>, w: Weights, floor: real, draw: Option<real>, c: real, n: nat, d: nat)
    requires a != [] && RescaledQuotes(a, b, c, n, d) && c > 0.0 && n > 0 && d > 0
    ensures var s, t := Choose(a, w, floor, draw), Choose(b, w, floor, draw);
      NodeIdOf(s.node) == NodeIdOf(t.node) && s.score == t.score && s.candidates == t.candidates
  {
    var ctx, ctx' := Extrema(a), Extrema(b);
    ExtremaRescaled(a, b, c, n, d);
    hide Extrema, RescaledContext;
    forall i | 0 <= i < |a|
      ensures Scores(a, ctx, w)[i] == Scores(b, ctx', w)[i]
    {
      assert RescaledQuote(a[i], b[i], c, n, d);
      ScoreRescaled(a[i], b[i], ctx, ctx', w, c, n, d);
    }
    assert Scores(a, ctx, w) == Scores(b, ctx', w);
    var ws := DrawWeights(Scores(a, ctx, w), floor);
    hide Scores, Times, Total, UnitDraw;
    var i := Pick(ws, Times(UnitDraw(draw), Total(ws)), 0);
    assert RescaledQuote(a[i], b[i], c, n, d);
  }

  /**
   * Quoting every price at one exchange rate and every latency in one other unit changes
   * neither the winner nor its score.
   */
  lemma {:induction false} UnitsIrrelevant(
      a: seq<NodeRecord>, b: seq<NodeRecord>, q: Query, o: Options, draw: Option<real>,
      c: real, n: nat, d: nat)
    requires c > 0.0 && n > 0 && d > 0
    requires |a| == |b| && forall i | 0 <= i < |a| :: Rescaled(a[i], b[i], q.model, o.fold, c, n, d)
    ensures match (Selected(a, q, o, draw), Selected(b, q, o, draw))
      case (Err(x), Err(y)) => x == y
      case (Ok(s), Ok(t)) =>
        NodeIdOf(s.node) == NodeIdOf(t.node) && s.score == t.score && s.candidates == t.candidates
      case _ => false
  {
    QuotedAlike(a, b, q, o, c, n, d);
    SortByIdRescaled(Quotes(a, q, o), Quotes(b, q, o), c, n, d);
    var x, y := SortById(Quotes(a, q, o)), SortById(Quotes(b, q, o));
    hide Quotes, SortById, Choose, Rescaled, RescaledQuote, NormalizeWeights;
    match NormalizeWeights(o.weights)
    case None =>
    case Some(w) => if x != [] { ChosenAlike(x, y, w, Floor(o), draw, c, n, d); }
  }
}
