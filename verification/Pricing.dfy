/** Splitting a charge into the operator's payout and the gateway's margin. */
module Pricing {
  import opened Prelude

  const BPS_DENOMINATOR: int := 10000

  datatype PriceSplit = PriceSplit(inbound: int, payout: int, margin: int)

  datatype PricingError = NegativeInbound | MarginOutOfRange | NegativeLeg | BrokenInvariant

  /** Integer arithmetic on unbounded integers; the margin floors. */
  function ComputeSplit(inbound: int, marginBps: int): (r: Result<PriceSplit, PricingError>)
    ensures r.Ok? <==> inbound >= 0 && 0 <= marginBps <= 10000
    ensures inbound < 0 ==> r == Err(NegativeInbound)
    ensures inbound >= 0 && !(0 <= marginBps <= 10000) ==> r == Err(MarginOutOfRange)
    ensures r.Ok? ==>
      && SplitHolds(r.value)
      && r.value.inbound == inbound
      && r.value.margin * 10000 <= inbound * marginBps < (r.value.margin + 1) * 10000
  {
    if inbound < 0 then Err(NegativeInbound)
    else if marginBps < 0 || marginBps > BPS_DENOMINATOR then Err(MarginOutOfRange)
    else
      MarginWithinInbound(inbound, marginBps);
      var margin := inbound * marginBps / BPS_DENOMINATOR;
      var payout := inbound - margin;
      if margin < 0 || payout < 0 then Err(NegativeLeg)
      else if payout + margin != inbound then Err(BrokenInvariant)
      else Ok(PriceSplit(inbound, payout, margin))
  }

  lemma {:induction false} MarginWithinInbound(inbound: int, marginBps: int)
    requires 0 <= inbound && 0 <= marginBps <= BPS_DENOMINATOR
    ensures 0 <= inbound * marginBps / BPS_DENOMINATOR <= inbound
  {
    assert 0 <= inbound * marginBps <= inbound * BPS_DENOMINATOR;
  }

  /** The check made again on the values about to be paid. */
  predicate SplitHolds(s: PriceSplit) {
    s.inbound >= 0 && s.payout >= 0 && s.margin >= 0 && s.inbound - s.payout == s.margin
  }

  function Total(charges: seq<nat>): nat {
    if charges == [] then 0 else charges[0] + Total(charges[1..])
  }

  function MarginOf(charge: nat, marginBps: nat): nat
    requires marginBps <= BPS_DENOMINATOR
  {
    charge * marginBps / BPS_DENOMINATOR
  }

  function MarginTotal(charges: seq<nat>, marginBps: nat): nat
    requires marginBps <= BPS_DENOMINATOR
  {
    if charges == [] then 0 else MarginOf(charges[0], marginBps) + MarginTotal(charges[1..], marginBps)
  }

  /**
   * Flooring each request on its own costs the gateway at most one unit less than the number
   * of requests, and never earns it anything, against flooring the total once.
   */
  lemma {:induction false} FlooringLoss(charges: seq<nat>, marginBps: nat)
    requires marginBps <= BPS_DENOMINATOR
    ensures MarginTotal(charges, marginBps) <= MarginOf(Total(charges), marginBps)
    ensures charges != [] ==>
      MarginOf(Total(charges), marginBps) <= MarginTotal(charges, marginBps) + |charges| - 1
  {
    if |charges| > 1 {
      FlooringLoss(charges[1..], marginBps);
      FloorOfSum(charges[0] * marginBps, Total(charges[1..]) * marginBps);
      assert Total(charges) * marginBps == charges[0] * marginBps + Total(charges[1..]) * marginBps;
    } else if |charges| == 1 {
      assert charges[1..] == [];
    }
  }

  lemma {:induction false} FloorOfSum(a: nat, b: nat)
    ensures a / BPS_DENOMINATOR + b / BPS_DENOMINATOR <= (a + b) / BPS_DENOMINATOR
      <= a / BPS_DENOMINATOR + b / BPS_DENOMINATOR + 1
  {}
}
