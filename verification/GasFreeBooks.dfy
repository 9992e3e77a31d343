/**
 Where the USDT of the rail is, and how much CLT there is, as sums over what has happened.
 */
module GasFreeBooks {
  import opened Basics
  import opened GasFreeRail

  /** What is added up along a run. */
  datatype Measure = SweptToFloat | SweptToCustody | PaidOut | Minted | Burned

  predicate Runs(s: Rail, e: Event) {
    e.RunPermit? && e.account < |s.accounts| && e.permit < |s.accounts[e.account].permits|
  }

  predicate OfDeposit(s: Rail, i: nat, d: nat) {
    i < |s.accounts| && d < |s.accounts[i].deposits|
  }

  /** What the verifier mints for a deposit: what arrived less the hold, at most what was proposed, and nothing below the
      minimum. */
  function MintOf(fees: Fees, seen: bool, d: Deposit): int {
    var cap := d.observed - fees.transferMax - (if seen then 0 else fees.activateMax);
    if cap < 1 || cap < fees.minDeposit then 0 else if d.clt < cap then d.clt else cap
  }

  /** What one event adds. */
  function By(fees: Fees, m: Measure, s: Rail, e: Event): int {
    match m
    case SweptToFloat =>
      if Runs(s, e) && s.accounts[e.account].permits[e.permit].toFloat then s.accounts[e.account].permits[e.permit].value else 0
    case SweptToCustody =>
      if Runs(s, e) && !s.accounts[e.account].permits[e.permit].toFloat then s.accounts[e.account].permits[e.permit].value else 0
    case PaidOut => if e.PayOut? && e.redemption < |s.redemptions| then s.redemptions[e.redemption].net + e.live else 0
    case Minted =>
      if e.Verify? && OfDeposit(s, e.account, e.deposit) then
        MintOf(fees, s.accounts[e.account].seen, s.accounts[e.account].deposits[e.deposit])
      else if e.ApproveByHand? && OfDeposit(s, e.account, e.deposit) then s.accounts[e.account].deposits[e.deposit].clt
      else 0
    case Burned => if e.Burn? then e.burned else 0
  }

  function Along(fees: Fees, m: Measure, events: seq<Event>): int {
    if events == [] then 0
    else
      var n := |events| - 1;
      var before := Run(fees, EMPTY, events[..n]);
      Along(fees, m, events[..n]) + (if before.Some? then By(fees, m, before.value, events[n]) else 0)
  }

  lemma StepAdds(fees: Fees, s: Rail, e: Event)
    requires Step(fees, s, e).Some?
    ensures var t := Step(fees, s, e).value;
            && t.float == s.float + By(fees, SweptToFloat, s, e) - By(fees, PaidOut, s, e)
            && t.custody == s.custody + By(fees, SweptToCustody, s, e)
            && t.supply == s.supply + By(fees, Minted, s, e) - By(fees, Burned, s, e)
  {
  }

  /** Over every run: the float is what the permits to it moved less what payouts cost, custody is what the others moved,
      and the supply is what was minted less what was burned. */
  lemma {:induction false} TheBooksAddUp(fees: Fees, events: seq<Event>, s: Rail)
    requires Run(fees, EMPTY, events) == Some(s)
    ensures s.float == Along(fees, SweptToFloat, events) - Along(fees, PaidOut, events)
    ensures s.custody == Along(fees, SweptToCustody, events)
    ensures s.supply == Along(fees, Minted, events) - Along(fees, Burned, events)
  {
    hide Step, By;
    if events != [] {
      var n := |events| - 1;
      var before := Run(fees, EMPTY, events[..n]).value;
      TheBooksAddUp(fees, events[..n], before);
      StepAdds(fees, before, events[n]);
    }
  }

  /** A burn owes what was burned less its fee, and a payout takes that and the relay's fee. */
  lemma RedemptionsAreOwed(fees: Fees, s: Rail, e: Event)
    requires Step(fees, s, e).Some?
    ensures var t := Step(fees, s, e).value;
            && (e.Burn? ==> t.redemptions == s.redemptions + [Redemption(e.burned, e.burned - e.redemptionFee, None)])
            && (e.PayOut? ==> t.redemptions == s.redemptions[e.redemption := s.redemptions[e.redemption].(
                                                  spent := Some(s.redemptions[e.redemption].net + e.live))])
            && (!e.Burn? && !e.PayOut? ==> t.redemptions == s.redemptions)
  {
  }
}
