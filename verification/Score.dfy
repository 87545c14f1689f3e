/** Composite routing score: latency, price and quality, each relative to the candidate set. */
module Score {
  import opened Prelude
  import opened MeshTypes
  import opened NodeHealth
  import Money

  datatype Weights = Weights(latency: real, price: real, quality: real)

  const RATIO_SCALE := 1000000

  /** Candidate-set extrema. */
  datatype Context = Context(minLatency: real, maxLatency: real, minPrice: nat, maxPrice: nat)

  predicate Unit(v: real) {
    0.0 <= v <= 1.0
  }

  /** `None` stands for the configuration error. */
  function NormalizeWeights(w: Weights): (r: Option<Weights>)
    ensures r.Some? <==>
      (w.latency >= 0.0 && w.price >= 0.0 && w.quality >= 0.0 && w.latency + w.price + w.quality > 0.0)
  {
    if w.latency < 0.0 || w.price < 0.0 || w.quality < 0.0 then None
    else
      var total := w.latency + w.price + w.quality;
      if total <= 0.0 then None
      else Some(Weights(w.latency / total, w.price / total, w.quality / total))
  }

  function NormalizeNumber(value: real, min: real, max: real): (r: real)
    ensures Unit(r)
  {
    var span := max - min;
    if span <= 0.0 then 0.0 else Clamp01((value - min) / span)
  }

  function NormalizeAtomic(value: nat, min: nat, max: nat): real {
    Ratio(value - min, max - min)
  }

  function Ratio(offset: int, span: int): real {
    if span <= 0 || offset <= 0 then 0.0
    else if offset >= span then 1.0
    else (offset * RATIO_SCALE / span) as real / RATIO_SCALE as real
  }

  /** Surrounding space is dropped, then case is folded. */
  function NormalizeModelId(model: string, fold: string -> string): string {
    fold(Money.Trim(model))
  }

  /** The first capability for the model prices it, if its quote is well formed. */
  function PriceOf(cs: seq<Capability<string>>, wanted: string, fold: string -> string): Option<nat> {
    if cs == [] then None
    else if NormalizeModelId(cs[0].model, fold) == wanted then
      match Money.UsdcToAtomic(cs[0].pricePer1kTokensUsdc)
      case Ok(price) => Some(price)
      case Err(_) => None
    else PriceOf(cs[1..], wanted, fold)
  }

  function NodePriceAtomic(node: NodeRecord, model: string, fold: string -> string): Option<nat> {
    PriceOf(node.registration.capabilities, NormalizeModelId(model, fold), fold)
  }

  function LatencyTerm(latency: real, ctx: Context): real {
    1.0 - NormalizeNumber(latency, ctx.minLatency, ctx.maxLatency)
  }

  function PriceTerm(price: Option<nat>, ctx: Context): real {
    match price
    case None => 0.0
    case Some(p) => 1.0 - NormalizeAtomic(p, ctx.minPrice, ctx.maxPrice)
  }

  /** A product, named so that sums of products stay linear to reason about. */
  function Times(a: real, b: real): real {
    a * b
  }

  function Weighted(w: Weights, l: real, p: real, q: real): real {
    Times(w.latency, l) + Times(w.price, p) + Times(w.quality, q)
  }

  function Composite(latency: real, price: Option<nat>, quality: real, ctx: Context, w: Weights): real {
    Weighted(w, LatencyTerm(latency, ctx), PriceTerm(price, ctx), Clamp01(quality))
  }

  /** `w` are normalized weights. */
  function ScoreNode(latency: real, price: Option<nat>, quality: real, ctx: Context, w: Weights): (r: real)
    ensures Unit(r)
  {
    Clamp01(Composite(latency, price, quality, ctx, w))
  }

  // ----- the composite is a ratio before it is clamped -----

  predicate Normalized(w: Weights) {
    w.latency >= 0.0 && w.price >= 0.0 && w.quality >= 0.0 && w.latency + w.price + w.quality == 1.0
  }

  lemma {:induction false} WeightsSumToOne(w: Weights)
    requires NormalizeWeights(w).Some?
    ensures Normalized(NormalizeWeights(w).value)
  {
    var total := w.latency + w.price + w.quality;
    assert w.latency / total + w.price / total + w.quality / total == total / total;
  }

  lemma {:induction false} AtomicInUnit(value: nat, min: nat, max: nat)
    ensures Unit(NormalizeAtomic(value, min, max))
  {
    var span, offset := max - min, value - min;
    if span > 0 && 0 < offset < span {
      var q := offset * RATIO_SCALE / span;
      QuotientBounds(offset, span);
      assert 0 <= q <= RATIO_SCALE;
    }
  }

  lemma {:induction false} QuotientBounds(offset: nat, span: nat)
    requires 0 < offset < span
    ensures 0 <= offset * RATIO_SCALE / span <= RATIO_SCALE
  {
    var q := offset * RATIO_SCALE / span;
    assert q * span <= offset * RATIO_SCALE < span * RATIO_SCALE;
    CancelLess(q, RATIO_SCALE + 1, span);
  }

  lemma {:induction false} WeightedTerm(w: real, t: real)
    requires w >= 0.0 && Unit(t)
    ensures 0.0 <= Times(w, t) <= w
  {
    assert w - w * t == w * (1.0 - t);
  }

  /** With normalized weights the weighted sum is already in the unit interval: clamping is idle. */
  lemma {:induction false} ScoreIsComposite(
      latency: real, price: Option<nat>, quality: real, ctx: Context, w: Weights)
    requires Normalized(w)
    ensures ScoreNode(latency, price, quality, ctx, w) == Composite(latency, price, quality, ctx, w)
  {
    assert Unit(LatencyTerm(latency, ctx));
    assert Unit(PriceTerm(price, ctx)) by {
      if price.Some? { AtomicInUnit(price.value, ctx.minPrice, ctx.maxPrice); }
    }
    hide LatencyTerm, PriceTerm, Weighted;
    WeightedInUnit(w, LatencyTerm(latency, ctx), PriceTerm(price, ctx), Clamp01(quality));
  }

  lemma {:induction false} WeightedInUnit(w: Weights, l: real, p: real, q: real)
    requires Normalized(w) && Unit(l) && Unit(p) && Unit(q)
    ensures Unit(Weighted(w, l, p, q))
  {
    hide Times;
    WeightedTerm(w.latency, l);
    WeightedTerm(w.price, p);
    WeightedTerm(w.quality, q);
  }

  // ----- what each term measures -----

  /** Weights keep their proportions. */
  lemma {:induction false} WeightsKeepProportions(w: Weights)
    requires NormalizeWeights(w).Some?
    ensures var n := NormalizeWeights(w).value; var total := w.latency + w.price + w.quality;
      n.latency * total == w.latency && n.price * total == w.price && n.quality * total == w.quality
  {}

  /** Below one, the latency term is the distance from the fastest, as a share of the whole range. */
  lemma {:induction false} LatencyTermMeasures(latency: real, ctx: Context)
    requires ctx.minLatency <= latency <= ctx.maxLatency
    ensures (1.0 - LatencyTerm(latency, ctx)) * (ctx.maxLatency - ctx.minLatency) == latency - ctx.minLatency
    ensures ctx.minLatency == ctx.maxLatency ==> LatencyTerm(latency, ctx) == 1.0
  {
    var span, offset := ctx.maxLatency - ctx.minLatency, latency - ctx.minLatency;
    if span > 0.0 {
      assert offset / span * span == offset;
      DivideMonotone(0.0, offset, span);
      DivideMonotone(offset, span, span);
    }
  }

  /** The price term does the same for the price, in whole millionths, rounded towards the cheapest. */
  lemma {:induction false} PriceTermMeasures(price: nat, ctx: Context) returns (millionths: nat)
    requires ctx.minPrice <= price <= ctx.maxPrice
    ensures 1.0 - PriceTerm(Some(price), ctx) == millionths as real / 1000000.0
    ensures var span, offset := ctx.maxPrice - ctx.minPrice, price - ctx.minPrice;
      if span == 0 then millionths == 0
      else millionths * span <= offset * 1000000 < (millionths + 1) * span
  {
    var span, offset := ctx.maxPrice - ctx.minPrice, price - ctx.minPrice;
    millionths := if span == 0 then 0 else offset * 1000000 / span;
    if span > 0 { QuotientIs(offset, span); }
  }

  lemma {:induction false} QuotientIs(offset: nat, span: nat)
    requires span > 0 && offset <= span
    ensures var q := offset * 1000000 / span; q * span <= offset * 1000000 < (q + 1) * span
    ensures offset == 0 ==> offset * 1000000 / span == 0
    ensures offset == span ==> offset * 1000000 / span == 1000000
  {
    var x := offset * 1000000;
    DivisionBounds(x, span);
    if offset == span {
      var q := x / span;
      CancelLess(1000000, q + 1, span);
      if q > 1000000 { MulMono(1000001, q, span); }
    }
  }

  lemma {:induction false} DivisionBounds(x: nat, d: nat)
    requires d > 0
    ensures x / d * d <= x < (x / d + 1) * d
    ensures x == 0 ==> x / d == 0
  {
    assert x == x / d * d + x % d;
  }

  /**
   * Each weight is what its own term is worth: the fastest, the cheapest and the best candidate
   * score it when they are last in the other two. Where all are alike only quality tells.
   */
  lemma {:induction false} WeightsAreWorth(ctx: Context, w: Weights, quality: real)
    requires Normalized(w) && ctx.minLatency <= ctx.maxLatency && ctx.minPrice <= ctx.maxPrice && Unit(quality)
    ensures ctx.minLatency < ctx.maxLatency && ctx.minPrice < ctx.maxPrice ==>
      && ScoreNode(ctx.minLatency, Some(ctx.maxPrice), 0.0, ctx, w) == w.latency
      && ScoreNode(ctx.maxLatency, Some(ctx.minPrice), 0.0, ctx, w) == w.price
      && ScoreNode(ctx.maxLatency, Some(ctx.maxPrice), 1.0, ctx, w) == w.quality
    ensures ctx.minLatency == ctx.maxLatency && ctx.minPrice == ctx.maxPrice ==>
      ScoreNode(ctx.minLatency, Some(ctx.minPrice), quality, ctx, w) == w.latency + w.price + w.quality * quality
  {
    ScoreIsComposite(ctx.minLatency, Some(ctx.maxPrice), 0.0, ctx, w);
    ScoreIsComposite(ctx.maxLatency, Some(ctx.minPrice), 0.0, ctx, w);
    ScoreIsComposite(ctx.maxLatency, Some(ctx.maxPrice), 1.0, ctx, w);
    ScoreIsComposite(ctx.minLatency, Some(ctx.minPrice), quality, ctx, w);
    TermsAtEnds(ctx);
    hide LatencyTerm, PriceTerm, ScoreNode;
  }

  lemma {:induction false} TermsAtEnds(ctx: Context)
    requires ctx.minLatency <= ctx.maxLatency && ctx.minPrice <= ctx.maxPrice
    ensures LatencyTerm(ctx.minLatency, ctx) == 1.0 && PriceTerm(Some(ctx.minPrice), ctx) == 1.0
    ensures ctx.minLatency < ctx.maxLatency ==> LatencyTerm(ctx.maxLatency, ctx) == 0.0
    ensures ctx.minPrice < ctx.maxPrice ==> PriceTerm(Some(ctx.maxPrice), ctx) == 0.0
  {
    var span := ctx.maxLatency - ctx.minLatency;
    if span > 0.0 { assert span / span == 1.0; }
  }

  /** A node without a price earns nothing for it: it scores no more than at any price. */
  lemma {:induction false} NoPriceNoCredit(latency: real, price: nat, quality: real, ctx: Context, w: Weights)
    requires Normalized(w)
    ensures ScoreNode(latency, None, quality, ctx, w) <= ScoreNode(latency, Some(price), quality, ctx, w)
    ensures w.price == 1.0 ==> ScoreNode(latency, None, quality, ctx, w) == 0.0
  {
    AtomicInUnit(price, ctx.minPrice, ctx.maxPrice);
    var l, q := LatencyTerm(latency, ctx), Clamp01(quality);
    assert PriceTerm(Some(price), ctx) >= PriceTerm(None, ctx) == 0.0;
    hide LatencyTerm, NormalizeAtomic, Weighted;
    WeightedMonotone(w, l, PriceTerm(None, ctx), q, l, PriceTerm(Some(price), ctx), q);
    if w.price == 1.0 { NothingWeighed(w, l, q); }
  }

  lemma {:induction false} NothingWeighed(w: Weights, l: real, q: real)
    requires Normalized(w) && w.price == 1.0
    ensures Weighted(w, l, 0.0, q) == 0.0
  {
    assert w.latency == 0.0 && w.quality == 0.0;
  }

  /** Space around a model's name does not matter. */
  lemma {:induction false} SpaceIgnored(before: string, model: string, after: string, fold: string -> string)
    requires Money.AllSpace(before) && Money.AllSpace(after)
    ensures NormalizeModelId(before + model + after, fold) == NormalizeModelId(model, fold)
  {
    Money.TrimAround(before, model, after);
  }

  // ----- lower latency, lower price and higher quality never hurt -----

  lemma {:induction false} NumberMonotone(a: real, b: real, min: real, max: real)
    requires a <= b
    ensures NormalizeNumber(a, min, max) <= NormalizeNumber(b, min, max)
  {
    var span := max - min;
    if span > 0.0 { DivideMonotone(a - min, b - min, span); }
  }

  lemma {:induction false} DivideMonotone(x: real, y: real, d: real)
    requires x <= y && d > 0.0
    ensures x / d <= y / d
  {
    assert y / d - x / d == (y - x) / d;
    assert (y - x) / d * d == y - x;
  }

  lemma {:induction false} AtomicMonotone(a: nat, b: nat, min: nat, max: nat)
    requires a <= b
    ensures NormalizeAtomic(a, min, max) <= NormalizeAtomic(b, min, max)
  {
    AtomicInUnit(a, min, max);
    AtomicInUnit(b, min, max);
    var span := max - min;
    if span > 0 && 0 < a - min && b - min < span {
      QuotientMonotone(a - min, b - min, span);
      DivideMonotone(((a - min) * RATIO_SCALE / span) as real, ((b - min) * RATIO_SCALE / span) as real,
                     RATIO_SCALE as real);
    }
  }

  lemma {:induction false} QuotientMonotone(x: nat, y: nat, d: nat)
    requires x <= y && d > 0
    ensures x * RATIO_SCALE / d <= y * RATIO_SCALE / d
  {
    var p, q := x * RATIO_SCALE / d, y * RATIO_SCALE / d;
    assert p * d <= x * RATIO_SCALE <= y * RATIO_SCALE < (q + 1) * d;
    CancelLess(p, q + 1, d);
  }

  lemma {:induction false} TermMonotone(w: real, s: real, t: real)
    requires w >= 0.0 && s <= t
    ensures Times(w, s) <= Times(w, t)
  {
    assert w * t - w * s == w * (t - s);
  }

  /** A node that is no slower, no dearer and no worse scores at least as high. */
  lemma {:induction false} BetterScoresHigher(
      l1: real, p1: nat, q1: real, l2: real, p2: nat, q2: real, ctx: Context, w: Weights)
    requires Normalized(w) && l1 <= l2 && p1 <= p2 && q1 >= q2
    ensures ScoreNode(l1, Some(p1), q1, ctx, w) >= ScoreNode(l2, Some(p2), q2, ctx, w)
  {
    hide NormalizeNumber, NormalizeAtomic;
    NumberMonotone(l1, l2, ctx.minLatency, ctx.maxLatency);
    AtomicMonotone(p1, p2, ctx.minPrice, ctx.maxPrice);
    assert LatencyTerm(l1, ctx) >= LatencyTerm(l2, ctx);
    assert PriceTerm(Some(p1), ctx) >= PriceTerm(Some(p2), ctx);
    hide LatencyTerm, PriceTerm, Weighted;
    WeightedMonotone(w, LatencyTerm(l2, ctx), PriceTerm(Some(p2), ctx), Clamp01(q2),
                     LatencyTerm(l1, ctx), PriceTerm(Some(p1), ctx), Clamp01(q1));
  }

  lemma {:induction false} WeightedMonotone(w: Weights, l: real, p: real, q: real, l': real, p': real, q': real)
    requires Normalized(w) && l <= l' && p <= p' && q <= q'
    ensures Weighted(w, l, p, q) <= Weighted(w, l', p', q')
  {
    hide Times;
    TermMonotone(w.latency, l, l');
    TermMonotone(w.price, p, p');
    TermMonotone(w.quality, q, q');
  }

  // ----- the unit of account does not matter -----

  lemma {:induction false} NumberScales(value: real, min: real, max: real, c: real)
    requires c > 0.0
    ensures NormalizeNumber(c * value, c * min, c * max) == NormalizeNumber(value, min, max)
  {
    var span, offset := max - min, value - min;
    var span', offset' := c * max - c * min, c * value - c * min;
    assert span' == c * span && offset' == c * offset;
    if span > 0.0 {
      PositiveProduct(c, span);
      CancelFactor(c, offset, span);
      assert offset' / span' == offset / span;
    } else {
      NonPositiveProduct(c, span);
    }
  }

  lemma {:induction false} PositiveProduct(c: real, x: real)
    requires c > 0.0 && x > 0.0
    ensures c * x > 0.0
  {}

  lemma {:induction false} NonPositiveProduct(c: real, x: real)
    requires c > 0.0 && x <= 0.0
    ensures c * x <= 0.0
  {}

  lemma {:induction false} CancelFactor(c: real, x: real, y: real)
    requires c > 0.0 && y > 0.0
    ensures c * y > 0.0 && c * x / (c * y) == x / y
  {
    PositiveProduct(c, y);
    var q := x / y;
    assert q * y == x;
    assert q * (c * y) == c * x;
  }

  /** `x'` is `x` at the exchange rate n/d. */
  predicate Exchanged(x: int, x': int, n: nat, d: nat) {
    x' * d == x * n
  }

  lemma {:induction false} MulSign(x: int, z: int)
    requires z > 0
    ensures x * z <= 0 <==> x <= 0
  {}

  lemma {:induction false} ExchangedSign(x: int, x': int, n: nat, d: nat)
    requires n > 0 && d > 0 && Exchanged(x, x', n, d)
    ensures (x <= 0 <==> x' <= 0) && (x < 0 <==> x' < 0)
  {
    MulSign(x, n);
    MulSign(x', d);
    MulSign(-x, n);
    MulSign(-x', d);
  }

  lemma {:induction false} ExchangedDifference(x: int, x': int, y: int, y': int, n: nat, d: nat)
    requires Exchanged(x, x', n, d) && Exchanged(y, y', n, d)
    ensures Exchanged(x - y, x' - y', n, d)
  {}

  lemma {:induction false} QuotientExchanged(o: nat, o': nat, s: nat, s': nat, n: nat, d: nat)
    requires n > 0 && d > 0 && s > 0 && s' > 0
    requires Exchanged(o, o', n, d) && Exchanged(s, s', n, d)
    ensures o' * RATIO_SCALE / s' == o * RATIO_SCALE / s
  {
    var q, q' := o * RATIO_SCALE / s, o' * RATIO_SCALE / s';
    // cross-multiplied: q' <= q and q <= q'
    assert o' * s == o * s' by { CrossMultiplied(o, o', s, s', n, d); }
    QuotientAtMost(o, s, o', s');
    QuotientAtMost(o', s', o, s);
  }

  lemma {:induction false} CrossMultiplied(o: nat, o': nat, s: nat, s': nat, n: nat, d: nat)
    requires n > 0 && d > 0 && Exchanged(o, o', n, d) && Exchanged(s, s', n, d)
    ensures o' * s == o * s'
  {
    assert (o' * s) * d == (o' * d) * s == (o * n) * s == o * (s * n) == o * (s' * d) == (o * s') * d;
    CancelInt(o' * s, o * s', d);
  }

  lemma {:induction false} CancelInt(x: int, y: int, d: int)
    requires d > 0 && x * d == y * d
    ensures x == y
  {
    assert (x - y) * d == 0;
  }

  lemma {:induction false} QuotientAtMost(o: nat, s: nat, o': nat, s': nat)
    requires s > 0 && s' > 0 && o' * s == o * s'
    ensures o' * RATIO_SCALE / s' <= o * RATIO_SCALE / s
  {
    var q, q' := o * RATIO_SCALE / s, o' * RATIO_SCALE / s';
    assert q' * s' <= o' * RATIO_SCALE && o * RATIO_SCALE < (q + 1) * s;
    if q' > q {
      assert q' >= q + 1;
      Chain(q, q', o, s, o', s');
    }
  }

  lemma {:induction false} Chain(q: nat, q': nat, o: nat, s: nat, o': nat, s': nat)
    requires s > 0 && s' > 0 && o' * s == o * s'
    requires q' * s' <= o' * RATIO_SCALE && o * RATIO_SCALE < (q + 1) * s
    ensures q' <= q
  {
    calc {
      (q' * s) * s';
    ==
      (q' * s') * s;
    <=  { MulMono(q' * s', o' * RATIO_SCALE, s); }
      (o' * RATIO_SCALE) * s;
    ==
      (o' * s) * RATIO_SCALE;
    ==
      (o * RATIO_SCALE) * s';
    }
    MulStrict(o * RATIO_SCALE, (q + 1) * s, s');
    assert (q' * s) * s' < ((q + 1) * s) * s';
    CancelLess(q' * s, (q + 1) * s, s');
    CancelLess(q', q + 1, s);
  }

  lemma {:induction false} MulMono(x: int, y: int, z: int)
    requires x <= y && z >= 0
    ensures x * z <= y * z
  {}

  lemma {:induction false} MulStrict(x: int, y: int, z: int)
    requires x < y && z > 0
    ensures x * z < y * z
  {}

  lemma {:induction false} CancelLess(x: int, y: int, z: int)
    requires x * z < y * z && z > 0
    ensures x < y
  {}

  lemma {:induction false} AtomicExchanged(v: nat, v': nat, min: nat, min': nat, max: nat, max': nat, n: nat, d: nat)
    requires n > 0 && d > 0
    requires Exchanged(v, v', n, d) && Exchanged(min, min', n, d) && Exchanged(max, max', n, d)
    ensures NormalizeAtomic(v', min', max') == NormalizeAtomic(v, min, max)
  {
    ExchangedDifference(max, max', min, min', n, d);
    ExchangedDifference(v, v', min, min', n, d);
    hide Exchanged, Ratio;
    RatioExchanged(v - min, v' - min', max - min, max' - min', n, d);
  }

  lemma {:induction false} RatioExchanged(o: int, o': int, s: int, s': int, n: nat, d: nat)
    requires n > 0 && d > 0 && Exchanged(o, o', n, d) && Exchanged(s, s', n, d)
    ensures Ratio(o', s') == Ratio(o, s)
  {
    ExchangedSign(o, o', n, d);
    ExchangedSign(s, s', n, d);
    ExchangedDifference(o, o', s, s', n, d);
    ExchangedSign(o - s, o' - s', n, d);
    hide Exchanged;
    if s > 0 && 0 < o < s { QuotientExchanged(o, o', s, s', n, d); }
  }
}
