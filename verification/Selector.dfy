/** Routing: a hard eligibility filter, then one weighted draw over the nodes that pass. */
module Selector {
  import opened Prelude
  import opened MeshTypes
  import opened CodeUnits
  import opened Score

  const DEFAULT_WEIGHT_FLOOR := 0.05

  /** `fold` is the runtime's case folding. */
  datatype Options = Options(
    network: Option<string>, staleAfterMs: Option<int>, weights: Weights, weightFloor: Option<real>,
    fold: string -> string)

  datatype Query = Query(model: string, excluded: set<NodeId>, now: int)

  datatype Reason =
    | Excluded | WrongNetwork | Stale | Unhealthy | WrongModel | NotOptedIn | Saturated | Unpriceable

  datatype Verdict = Rejected(reason: Reason) | Eligible(price: nat)

  /** How many records were turned away for each reason. */
  datatype Tally = Tally(
    wrongNetwork: nat, stale: nat, unhealthy: nat, wrongModel: nat,
    notOptedIn: nat, saturated: nat, excluded: nat, unpriceable: nat)

  datatype Quote = Quote(record: NodeRecord, price: nat)

  datatype Selection = Selection(node: NodeRecord, score: real, candidates: nat)

  datatype SelectError = NoCapacity(registered: nat, rejected: Tally) | BadWeights

  function NodeIdOf(r: NodeRecord): NodeId {
    r.registration.nodeId
  }

  predicate Advertises(r: NodeRecord, model: string, fold: string -> string) {
    exists i :: 0 <= i < |r.registration.capabilities|
      && NormalizeModelId(r.registration.capabilities[i].model, fold) == NormalizeModelId(model, fold)
  }

  function Judge(r: NodeRecord, q: Query, o: Options): Verdict {
    if NodeIdOf(r) in q.excluded then Rejected(Excluded)
    else if o.network.Some? && r.registration.network != o.network.value then Rejected(WrongNetwork)
    else if o.staleAfterMs.Some? && q.now - r.health.lastSeenAt > o.staleAfterMs.value then Rejected(Stale)
    else if !r.health.healthy then Rejected(Unhealthy)
    else if !Advertises(r, q.model, o.fold) then Rejected(WrongModel)
    else if !r.usdcOptedIn then Rejected(NotOptedIn)
    else if r.health.inFlight >= r.health.maxConcurrency then Rejected(Saturated)
    else
      match NodePriceAtomic(r, q.model, o.fold)
      case None => Rejected(Unpriceable)
      case Some(price) => Eligible(price)
  }

  function Count(rs: seq<NodeRecord>, q: Query, o: Options, reason: Reason): nat {
    if rs == [] then 0
    else Count(rs[..|rs| - 1], q, o, reason) + (if Judge(rs[|rs| - 1], q, o) == Rejected(reason) then 1 else 0)
  }

  function TallyOf(rs: seq<NodeRecord>, q: Query, o: Options): Tally {
    Tally(
      Count(rs, q, o, WrongNetwork), Count(rs, q, o, Stale), Count(rs, q, o, Unhealthy),
      Count(rs, q, o, WrongModel), Count(rs, q, o, NotOptedIn), Count(rs, q, o, Saturated),
      Count(rs, q, o, Excluded), Count(rs, q, o, Unpriceable))
  }

  function Quotes(rs: seq<NodeRecord>, q: Query, o: Options): seq<Quote> {
    if rs == [] then []
    else
      Quotes(rs[..|rs| - 1], q, o)
      + (match Judge(rs[|rs| - 1], q, o)
         case Eligible(price) => [Quote(rs[|rs| - 1], price)]
         case Rejected(_) => [])
  }

  // ----- the candidate set, in node id order -----

  function Keyed(qs: seq<Quote>): (r: seq<(Text, Quote)>)
    ensures |r| == |qs| && forall i | 0 <= i < |qs| :: r[i] == (Utf16(NodeIdOf(qs[i].record)), qs[i])
  {
    seq(|qs|, i requires 0 <= i < |qs| => (Utf16(NodeIdOf(qs[i].record)), qs[i]))
  }

  function Unkeyed(es: seq<(Text, Quote)>): (r: seq<Quote>)
    ensures |r| == |es| && forall i | 0 <= i < |es| :: r[i] == es[i].1
  {
    seq(|es|, i requires 0 <= i < |es| => es[i].1)
  }

  function SortById(qs: seq<Quote>): (r: seq<Quote>)
    ensures |r| == |qs|
    ensures forall x :: x in r <==> x in qs
  {
    SortKeeps(Keyed(qs));
    var sorted := SortEntries(Keyed(qs));
    assert forall x | x in Unkeyed(sorted) :: x in qs by {
      forall x | x in Unkeyed(sorted) ensures x in qs {
        var i :| 0 <= i < |sorted| && sorted[i].1 == x;
        assert sorted[i] in sorted && sorted[i] in Keyed(qs);
      }
    }
    assert forall x | x in qs :: x in Unkeyed(sorted) by {
      forall x | x in qs ensures x in Unkeyed(sorted) {
        var i :| 0 <= i < |qs| && qs[i] == x;
        assert Keyed(qs)[i] in Keyed(qs) && Keyed(qs)[i] in sorted;
        var j :| 0 <= j < |sorted| && sorted[j] == Keyed(qs)[i];
        assert Unkeyed(sorted)[j] == x;
      }
    }
    Unkeyed(sorted)
  }

  function MinReal(a: real, b: real): real { if b < a then b else a }
  function MaxReal(a: real, b: real): real { if b > a then b else a }
  function MinNat(a: nat, b: nat): nat { if b < a then b else a }
  function MaxNat(a: nat, b: nat): nat { if b > a then b else a }

  function Latency(q: Quote): real {
    q.record.health.latencyMsP95
  }

  function Extrema(qs: seq<Quote>): Context
    requires qs != []
  {
    var last := qs[|qs| - 1];
    if |qs| == 1 then Context(Latency(last), Latency(last), last.price, last.price)
    else
      var c := Extrema(qs[..|qs| - 1]);
      Context(MinReal(c.minLatency, Latency(last)), MaxReal(c.maxLatency, Latency(last)),
              MinNat(c.minPrice, last.price), MaxNat(c.maxPrice, last.price))
  }

  function Scores(qs: seq<Quote>, ctx: Context, w: Weights): (r: seq<real>)
    ensures |r| == |qs| && forall i | 0 <= i < |r| :: Unit(r[i])
  {
    seq(|qs|, i requires 0 <= i < |qs| =>
      ScoreNode(Latency(qs[i]), Some(qs[i].price), qs[i].record.health.qualityScore, ctx, w))
  }

  // ----- the draw -----

  function Floor(o: Options): (r: real)
    ensures r > 0.0
  {
    if o.weightFloor.Some? && o.weightFloor.value > 0.0 then o.weightFloor.value else DEFAULT_WEIGHT_FLOOR
  }

  function DrawWeights(scores: seq<real>, floor: real): (r: seq<real>)
    ensures |r| == |scores| && forall i | 0 <= i < |r| :: r[i] == scores[i] + floor
  {
    seq(|scores|, i requires 0 <= i < |scores| => scores[i] + floor)
  }

  /** The weight of the first `n` candidates. */
  function Cumulative(ws: seq<real>, n: nat): real
    requires n <= |ws|
  {
    if n == 0 then 0.0 else Cumulative(ws, n - 1) + ws[n - 1]
  }

  function Total(ws: seq<real>): real {
    Cumulative(ws, |ws|)
  }

  /** A draw that is not finite counts as zero. */
  function UnitDraw(draw: Option<real>): (r: real)
    ensures Unit(r)
  {
    match draw
    case None => 0.0
    case Some(d) => if d < 0.0 then 0.0 else if d > 1.0 then 1.0 else d
  }

  /** Candidate `i` is the first whose cumulative weight exceeds the threshold, or else the last. */
  ghost predicate Drawn(ws: seq<real>, threshold: real, i: nat) {
    && i < |ws|
    && (forall k | 0 < k <= i :: Cumulative(ws, k) <= threshold)
    && (threshold < Cumulative(ws, i + 1) || i == |ws| - 1)
  }

  method WeightedChoice(ws: seq<real>, draw: Option<real>) returns (picked: nat)
    requires ws != []
    ensures Drawn(ws, Times(UnitDraw(draw), Total(ws)), picked)
  {
    hide Times, UnitDraw;
    var total := 0.0;
    for i := 0 to |ws|
      invariant total == Cumulative(ws, i)
    {
      total := total + ws[i];
    }
    ghost var start := Times(UnitDraw(draw), Total(ws));
    var threshold := Times(UnitDraw(draw), total);
    for i := 0 to |ws|
      invariant threshold == start - Cumulative(ws, i)
      invariant forall k | 0 < k <= i :: Cumulative(ws, k) <= start
    {
      threshold := threshold - ws[i];
      if threshold < 0.0 { return i; }
    }
    picked := |ws| - 1;
  }

  predicate AllPositive(ws: seq<real>) {
    forall i | 0 <= i < |ws| :: ws[i] > 0.0
  }

  lemma {:induction false} TotalGrows(ws: seq<real>, i: nat, j: nat)
    requires AllPositive(ws) && i <= j <= |ws|
    ensures Cumulative(ws, i) <= Cumulative(ws, j) && (i < j ==> Cumulative(ws, i) < Cumulative(ws, j))
    decreases j - i
  {
    if i < j {
      TotalGrows(ws, i, j - 1);
      assert ws[j - 1] > 0.0;
    }
  }

  function ShareOf(part: real, total: real): real
    requires total > 0.0
  {
    part / total
  }

  /**
   * Every candidate wins on exactly one interval of the unit draw, as long as its share of the
   * total weight; the intervals follow each other from 0 to 1.
   */
  lemma {:induction false} WinningInterval(ws: seq<real>, unit: real, i: nat)
    requires AllPositive(ws) && i < |ws| && 0.0 <= unit < 1.0
    ensures Total(ws) > 0.0
    ensures var from, to := ShareOf(Cumulative(ws, i), Total(ws)), ShareOf(Cumulative(ws, i + 1), Total(ws));
      && (Drawn(ws, Times(unit, Total(ws)), i) <==> from <= unit < to)
      && to == from + ShareOf(ws[i], Total(ws))
    ensures ShareOf(Cumulative(ws, 0), Total(ws)) == 0.0 && ShareOf(Cumulative(ws, |ws|), Total(ws)) == 1.0
  {
    var total := Total(ws);
    TotalGrows(ws, 0, |ws|);
    assert Cumulative(ws, i + 1) == Cumulative(ws, i) + ws[i] && Cumulative(ws, 0) == 0.0;
    hide Cumulative, ShareOf, Times, Drawn;
    Shares(unit, Cumulative(ws, i), total);
    Shares(unit, Cumulative(ws, i + 1), total);
    AddShares(Cumulative(ws, i), ws[i], total);
    BelowTotal(unit, total);
    DrawnBetween(ws, Times(unit, total), i);
  }

  /** With positive weights the draw is decided by the two sums around the candidate. */
  lemma {:induction false} DrawnBetween(ws: seq<real>, threshold: real, i: nat)
    requires AllPositive(ws) && i < |ws| && 0.0 <= threshold < Total(ws)
    ensures Drawn(ws, threshold, i) <==> Cumulative(ws, i) <= threshold < Cumulative(ws, i + 1)
  {
    assert Cumulative(ws, 0) == 0.0;
    hide Cumulative;
    forall k | 0 < k <= i
      ensures Cumulative(ws, k) <= Cumulative(ws, i)
    {
      TotalGrows(ws, k, i);
    }
  }

  lemma {:induction false} Shares(unit: real, part: real, total: real)
    requires total > 0.0
    ensures part <= Times(unit, total) <==> ShareOf(part, total) <= unit
  {
    var q := ShareOf(part, total);
    assert Times(q, total) == part;
    ScaledOrder(q, unit, total);
  }

  lemma {:induction false} ScaledOrder(x: real, y: real, t: real)
    requires t > 0.0
    ensures Times(x, t) <= Times(y, t) <==> x <= y
  {
    if x <= y { assert (y - x) * t >= 0.0; } else { assert (x - y) * t > 0.0; }
  }

  lemma {:induction false} AddShares(a: real, b: real, total: real)
    requires total > 0.0
    ensures ShareOf(a + b, total) == ShareOf(a, total) + ShareOf(b, total)
    ensures ShareOf(0.0, total) == 0.0 && ShareOf(total, total) == 1.0
  {}

  lemma {:induction false} BelowTotal(unit: real, total: real)
    requires 0.0 <= unit < 1.0 && total > 0.0
    ensures 0.0 <= Times(unit, total) < total
  {
    assert (1.0 - unit) * total > 0.0;
  }

  /** At most one candidate is drawn. */
  lemma {:induction false} DrawnOnce(ws: seq<real>, threshold: real, i: nat, j: nat)
    requires Drawn(ws, threshold, i) && Drawn(ws, threshold, j)
    ensures i == j
  {}

  function Pick(ws: seq<real>, threshold: real, i: nat): (r: nat)
    requires i < |ws|
    ensures r < |ws|
    decreases |ws| - i
  {
    if threshold < Cumulative(ws, i + 1) || i == |ws| - 1 then i else Pick(ws, threshold, i + 1)
  }

  lemma {:induction false} PickIsDrawn(ws: seq<real>, threshold: real, i: nat)
    requires i < |ws| && forall k | 0 < k <= i :: Cumulative(ws, k) <= threshold
    ensures Drawn(ws, threshold, Pick(ws, threshold, i))
    decreases |ws| - i
  {
    if threshold >= Cumulative(ws, i + 1) && i < |ws| - 1 { PickIsDrawn(ws, threshold, i + 1); }
  }

  // ----- the whole selection -----

  /** The draw over a candidate set already in order. */
  function Choose(qs: seq<Quote>, w: Weights, floor: real, draw: Option<real>): Selection
    requires qs != []
  {
    var scores := Scores(qs, Extrema(qs), w);
    var ws := DrawWeights(scores, floor);
    var i := Pick(ws, Times(UnitDraw(draw), Total(ws)), 0);
    Selection(qs[i].record, scores[i], |qs|)
  }

  function Selected(rs: seq<NodeRecord>, q: Query, o: Options, draw: Option<real>): Result<Selection, SelectError> {
    var qs := SortById(Quotes(rs, q, o));
    if qs == [] then Err(NoCapacity(|rs|, TallyOf(rs, q, o)))
    else
      match NormalizeWeights(o.weights)
      case None => Err(BadWeights)
      case Some(w) => Ok(Choose(qs, w, Floor(o), draw))
  }

  lemma {:induction false} Grown(rs: seq<NodeRecord>, q: Query, o: Options, i: nat)
    requires i < |rs|
    ensures Quotes(rs[..i + 1], q, o) == Quotes(rs[..i], q, o)
      + (match Judge(rs[i], q, o) case Eligible(price) => [Quote(rs[i], price)] case Rejected(_) => [])
    ensures forall reason ::
        Count(rs[..i + 1], q, o, reason)
        == Count(rs[..i], q, o, reason) + (if Judge(rs[i], q, o) == Rejected(reason) then 1 else 0)
  {
    assert rs[..i + 1][..i] == rs[..i];
  }

  lemma {:induction false} NoneJudged(rs: seq<NodeRecord>, q: Query, o: Options)
    ensures rs[..|rs|] == rs
    ensures Quotes(rs[..0], q, o) == [] && TallyOf(rs[..0], q, o) == Tally(0, 0, 0, 0, 0, 0, 0, 0)
  {}

  function Add(t: Tally, reason: Reason): Tally {
    match reason
    case Excluded => t.(excluded := t.excluded + 1)
    case WrongNetwork => t.(wrongNetwork := t.wrongNetwork + 1)
    case Stale => t.(stale := t.stale + 1)
    case Unhealthy => t.(unhealthy := t.unhealthy + 1)
    case WrongModel => t.(wrongModel := t.wrongModel + 1)
    case NotOptedIn => t.(notOptedIn := t.notOptedIn + 1)
    case Saturated => t.(saturated := t.saturated + 1)
    case Unpriceable => t.(unpriceable := t.unpriceable + 1)
  }

  /** The filter as it runs: one pass, each record kept with its price or tallied once. */
  method Filter(rs: seq<NodeRecord>, q: Query, o: Options) returns (eligible: seq<Quote>, tally: Tally)
    ensures eligible == Quotes(rs, q, o) && tally == TallyOf(rs, q, o)
  {
    hide Judge, Quotes, Count;
    eligible, tally := [], Tally(0, 0, 0, 0, 0, 0, 0, 0);
    NoneJudged(rs, q, o);
    for i := 0 to |rs|
      invariant eligible == Quotes(rs[..i], q, o) && tally == TallyOf(rs[..i], q, o)
    {
      Grown(rs, q, o, i);
      match Judge(rs[i], q, o) {
        case Rejected(reason) => tally := Add(tally, reason);
        case Eligible(price) => eligible := eligible + [Quote(rs[i], price)];
      }
    }
  }

  lemma {:induction false} ExtremaStep(qs: seq<Quote>, i: nat)
    requires 0 < i < |qs|
    ensures var c := Extrema(qs[..i]); var next := qs[i];
      Extrema(qs[..i + 1]) ==
        Context(MinReal(c.minLatency, Latency(next)), MaxReal(c.maxLatency, Latency(next)),
                MinNat(c.minPrice, next.price), MaxNat(c.maxPrice, next.price))
  {
    assert qs[..i + 1][..i] == qs[..i];
  }

  /** `c` bounds every candidate's latency and price, and each bound is some candidate's. */
  ghost predicate BoundsOf(qs: seq<Quote>, c: Context) {
    && (forall x | x in qs ::
          c.minLatency <= Latency(x) <= c.maxLatency && c.minPrice <= x.price <= c.maxPrice)
    && (exists x :: x in qs && Latency(x) == c.minLatency)
    && (exists x :: x in qs && Latency(x) == c.maxLatency)
    && (exists x :: x in qs && x.price == c.minPrice)
    && (exists x :: x in qs && x.price == c.maxPrice)
  }

  lemma {:induction false} ExtremaBound(qs: seq<Quote>)
    requires qs != []
    ensures BoundsOf(qs, Extrema(qs))
  {
    var last := qs[|qs| - 1];
    assert last in qs;
    if |qs| > 1 {
      var front := qs[..|qs| - 1];
      ExtremaBound(front);
      assert qs == front + [last];
    }
  }

  method Measure(qs: seq<Quote>) returns (c: Context)
    requires qs != []
    ensures c == Extrema(qs) && BoundsOf(qs, c)
  {
    ExtremaBound(qs);
    hide BoundsOf;
    var minLatency, maxLatency := Latency(qs[0]), Latency(qs[0]);
    var minPrice, maxPrice := qs[0].price, qs[0].price;
    assert Extrema(qs[..1]) == Context(minLatency, maxLatency, minPrice, maxPrice);
    for i := 1 to |qs|
      invariant Extrema(qs[..i]) == Context(minLatency, maxLatency, minPrice, maxPrice)
    {
      ExtremaStep(qs, i);
      if Latency(qs[i]) < minLatency { minLatency := Latency(qs[i]); }
      if Latency(qs[i]) > maxLatency { maxLatency := Latency(qs[i]); }
      if qs[i].price < minPrice { minPrice := qs[i].price; }
      if qs[i].price > maxPrice { maxPrice := qs[i].price; }
    }
    assert qs[..|qs|] == qs;
    c := Context(minLatency, maxLatency, minPrice, maxPrice);
  }

  method Select(rs: seq<NodeRecord>, q: Query, o: Options, draw: Option<real>)
      returns (r: Result<Selection, SelectError>)
    ensures r == Selected(rs, q, o, draw)
  {
    hide Quotes, TallyOf, Extrema, Scores, Times, Total, UnitDraw, SortById, NormalizeWeights, Drawn;
    var eligible, tally := Filter(rs, q, o);
    if |eligible| == 0 { return Err(NoCapacity(|rs|, tally)); }
    var qs := SortById(eligible);
    var ctx := Measure(qs);
    var weights := NormalizeWeights(o.weights);
    if weights.None? { return Err(BadWeights); }
    var scores := Scores(qs, ctx, weights.value);
    var ws := DrawWeights(scores, Floor(o));
    var picked := WeightedChoice(ws, draw);
    PickIsDrawn(ws, Times(UnitDraw(draw), Total(ws)), 0);
    DrawnOnce(ws, Times(UnitDraw(draw), Total(ws)), picked, Pick(ws, Times(UnitDraw(draw), Total(ws)), 0));
    r := Ok(Selection(qs[picked].record, scores[picked], |qs|));
  }
}
