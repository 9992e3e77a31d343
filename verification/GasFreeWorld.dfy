/**
 The GasFree rail in place, and how tight its rule is.

 The reserve rule of `GasFreeRail` holds back exactly enough: there are runs that use all of it, and either of the
 two supports it stands on, taken away, leaves the supply short. The `World` below is the rail as the treasury,
 the signer and the relay change it; its operations are runs of the rail.
 */
module GasFreeWorld {
  import opened Basics
  import opened GasFreeRail

  // ----- the rule is exact, and both of its supports are needed ----------------------------------

  /** A first deposit that is swept before it is verified, with both maxima charged. */
  function EarlySweep(fees: Fees, amount: int): seq<Event> {
    [Open, Arrive(0, amount, amount), SignSweep(0, false), RunPermit(0, 0, fees.activateMax + fees.transferMax)]
  }

  lemma RunSnoc(fees: Fees, s: Rail, events: seq<Event>, e: Event)
    requires Run(fees, s, events).Some?
    ensures Run(fees, s, events + [e]) == Step(fees, Run(fees, s, events).value, e)
  {
    assert (events + [e])[..|events|] == events;
  }

  lemma RunTwo(fees: Fees, s: Rail, e: Event, f: Event, t: Rail)
    requires Step(fees, s, e) == Some(t)
    ensures Run(fees, s, [e, f]) == Step(fees, t, f)
  {
    RunSnoc(fees, s, [], e);
    assert [] + [e] == [e];
    RunSnoc(fees, s, [e], f);
    assert [e] + [f] == [e, f];
  }

  lemma ReserveOfOne(s: Rail)
    requires |s.accounts| == 1
    ensures Reserve(s) == s.accounts[0].balance + s.custody + s.float
  {
    assert s.accounts[..0] == [];
    assert Total(s.accounts[..0], Balance()) == 0;
    assert Total(s.accounts, Balance()) == Total(s.accounts[..0], Balance()) + Balance()(s.accounts[0]);
  }

  /** The account of that deposit, before and after the sweep's permit. */
  function Arrived(amount: int): Account {
    NEW_ACCOUNT.(balance := amount, deposits := [Deposit(amount, amount, Created)])
  }

  function ArrivedWith(amount: int, fee: int): Account {
    Arrived(amount).(permits := [Permit(0, amount - fee, fee, false)])
  }

  lemma EarlySteps(fees: Fees, amount: int)
    requires amount > fees.activateMax + fees.transferMax
    ensures var fee := fees.activateMax + fees.transferMax; var s := EMPTY.(accounts := [NEW_ACCOUNT]);
            var t, u := s.(accounts := [Arrived(amount)]), s.(accounts := [ArrivedWith(amount, fee)]);
            && Step(fees, EMPTY, Open) == Some(s)
            && Step(fees, s, Arrive(0, amount, amount)) == Some(t)
            && Step(fees, t, SignSweep(0, false)) == Some(u)
            && Step(fees, u, RunPermit(0, 0, fee))
               == Some(Rail([AfterPermit(ArrivedWith(amount, fee), 0, fee)], amount - fee, 0, 0, []))
  {
    var fee := fees.activateMax + fees.transferMax;
    var a, b := Arrived(amount), ArrivedWith(amount, fee);
    assert [] + [NEW_ACCOUNT] == [NEW_ACCOUNT] && [NEW_ACCOUNT][0 := a] == [a] && [a][0 := b] == [b];
    assert NEW_ACCOUNT.deposits + a.deposits == a.deposits && a.permits + b.permits == b.permits;
    assert SweepPermit(fees, a, false) == Some(b.permits[0]);
    assert [b][0 := AfterPermit(b, 0, fee)] == [AfterPermit(b, 0, fee)];
  }

  lemma AfterEarlySweep(fees: Fees, amount: int)
    requires amount > fees.activateMax + fees.transferMax
    ensures var fee := fees.activateMax + fees.transferMax;
            Run(fees, EMPTY, EarlySweep(fees, amount))
            == Some(Rail([AfterPermit(ArrivedWith(amount, fee), 0, fee)], amount - fee, 0, 0, []))
  {
    hide Step;
    var es := EarlySweep(fees, amount);
    EarlySteps(fees, amount);
    RunTwo(fees, EMPTY, es[0], es[1], EMPTY.(accounts := [NEW_ACCOUNT]));
    RunSnoc(fees, EMPTY, [es[0], es[1]], es[2]);
    assert [es[0], es[1]] + [es[2]] == [es[0], es[1], es[2]];
    RunSnoc(fees, EMPTY, [es[0], es[1], es[2]], es[3]);
    assert [es[0], es[1], es[2]] + [es[3]] == es;
  }

  /** Sized from the chain's record instead of the treasury's own, a deposit swept before its credit would
      mint exactly the activation fee more than the reserve then holds. */
  lemma SizedFromTheChainFallsShort(fees: Fees, amount: int)
    requires amount > fees.activateMax + fees.transferMax
    requires amount - fees.transferMax >= fees.minDeposit
    ensures Run(fees, EMPTY, EarlySweep(fees, amount)).Some?
    ensures var s := Run(fees, EMPTY, EarlySweep(fees, amount)).value;
            && |s.accounts| == 1 && |s.accounts[0].deposits| == 1
            && var d := Judge(fees, Activated(s.accounts[0]), s.accounts[0].deposits[0]);
               d.status == Approved && s.supply + d.clt == Reserve(s) + fees.activateMax
  {
    AfterEarlySweep(fees, amount);
    ReserveOfOne(Run(fees, EMPTY, EarlySweep(fees, amount)).value);
  }

  /** Without the sweeper's eligibility rule the treasury's record could run ahead of every credit: had that
      early sweep been its own, verifying the deposit afterwards would leave the supply unbacked by the
      activation fee. */
  lemma SweepingBeforeAnyCreditFallsShort(fees: Fees, amount: int)
    requires amount > fees.activateMax + fees.transferMax
    requires amount - fees.transferMax >= fees.minDeposit
    ensures Run(fees, EMPTY, EarlySweep(fees, amount)).Some?
    ensures var s := Run(fees, EMPTY, EarlySweep(fees, amount)).value;
            && |s.accounts| == 1
            && var recorded := SetAccount(s, 0, s.accounts[0].(seen := true));
               var t := Step(fees, recorded, Verify(0, 0));
               t.Some? && t.value.supply == Reserve(t.value) + fees.activateMax
  {
    AfterEarlySweep(fees, amount);
    var s := Run(fees, EMPTY, EarlySweep(fees, amount)).value;
    var recorded := SetAccount(s, 0, s.accounts[0].(seen := true));
    ReserveOfOne(Step(fees, recorded, Verify(0, 0)).value);
  }

  /** The hold is not larger than it has to be: verified after that early sweep on the treasury's own
      record, the deposit mints all of the reserve and not one unit more. */
  lemma TheHoldIsExact(fees: Fees, amount: int)
    requires amount > fees.activateMax + fees.transferMax
    requires amount - fees.activateMax - fees.transferMax >= fees.minDeposit
    ensures var s := Run(fees, EMPTY, EarlySweep(fees, amount) + [Verify(0, 0)]);
            s.Some? && 0 < s.value.supply == Reserve(s.value)
  {
    AfterEarlySweep(fees, amount);
    RunSnoc(fees, EMPTY, EarlySweep(fees, amount), Verify(0, 0));
    ReserveOfOne(Run(fees, EMPTY, EarlySweep(fees, amount) + [Verify(0, 0)]).value);
  }

  /** A person approves the deposit before it is verified, and anyone asks for the sweep. */
  function Unverified(fees: Fees, amount: int): seq<Event> {
    [Open, Arrive(0, amount, amount), ApproveByHand(0, 0), SignSweep(0, false), RunPermit(0, 0, fees.activateMax + fees.transferMax)]
  }

  lemma ApprovedUnverified(fees: Fees, amount: int, proposed: int)
    requires amount > 0 && proposed > 0
    ensures Run(fees, EMPTY, [Open, Arrive(0, amount, proposed), ApproveByHand(0, 0)])
            == Some(Rail([NEW_ACCOUNT.(balance := amount, deposits := [Deposit(amount, proposed, Approved)])], 0, 0, proposed, []))
  {
    var c, d := Deposit(amount, proposed, Created), Deposit(amount, proposed, Approved);
    var a, b := NEW_ACCOUNT.(balance := amount, deposits := [c]), NEW_ACCOUNT.(balance := amount, deposits := [d]);
    var es := [Open, Arrive(0, amount, proposed), ApproveByHand(0, 0)];
    assert [] + [NEW_ACCOUNT] == [NEW_ACCOUNT] && [NEW_ACCOUNT][0 := a] == [a] && [a][0 := b] == [b];
    assert NEW_ACCOUNT.deposits + [c] == [c] && [c][0 := d] == [d];
    RunTwo(fees, EMPTY, es[0], es[1], Rail([NEW_ACCOUNT], 0, 0, 0, []));
    RunSnoc(fees, EMPTY, [es[0], es[1]], es[2]);
    assert [es[0], es[1]] + [es[2]] == es;
  }

  /** The account of that deposit, before and after the sweep's permit. */
  function Released(amount: int): Account {
    NEW_ACCOUNT.(balance := amount, deposits := [Deposit(amount, amount, Approved)])
  }

  function ReleasedWith(amount: int, fee: int): Account {
    Released(amount).(permits := [Permit(0, amount - fee, fee, false)])
  }

  lemma SweptUnverified(fees: Fees, amount: int)
    requires amount > fees.activateMax + fees.transferMax
    ensures var fee := fees.activateMax + fees.transferMax; var s := Rail([Released(amount)], 0, 0, amount, []);
            var t := s.(accounts := [ReleasedWith(amount, fee)]);
            && Step(fees, s, SignSweep(0, false)) == Some(t)
            && Step(fees, t, RunPermit(0, 0, fee))
               == Some(Rail([AfterPermit(ReleasedWith(amount, fee), 0, fee)], amount - fee, 0, amount, []))
  {
    var fee := fees.activateMax + fees.transferMax;
    var a, b := Released(amount), ReleasedWith(amount, fee);
    assert SweepPermit(fees, a, false) == Some(b.permits[0]) && a.permits + b.permits == b.permits;
    assert [a][0 := b] == [b] && [b][0 := AfterPermit(b, 0, fee)] == [AfterPermit(b, 0, fee)];
  }

  /** Approved by hand before it is verified, a deposit mints all of itself: once it is swept, the supply is short by
      exactly what the relay took, up to the whole hold. */
  lemma UnverifiedApprovalFallsShort(fees: Fees, amount: int)
    requires amount > fees.activateMax + fees.transferMax
    ensures Run(fees, EMPTY, Unverified(fees, amount)).Some?
    ensures var s := Run(fees, EMPTY, Unverified(fees, amount)).value;
            s.supply == Reserve(s) + fees.activateMax + fees.transferMax
  {
    hide Step;
    var es := [Open, Arrive(0, amount, amount), ApproveByHand(0, 0)];
    var run := RunPermit(0, 0, fees.activateMax + fees.transferMax);
    ApprovedUnverified(fees, amount, amount);
    SweptUnverified(fees, amount);
    RunSnoc(fees, EMPTY, es, SignSweep(0, false));
    RunSnoc(fees, EMPTY, es + [SignSweep(0, false)], run);
    assert es + [SignSweep(0, false)] + [run] == Unverified(fees, amount);
    ReserveOfOne(Run(fees, EMPTY, Unverified(fees, amount)).value);
  }

  /** And at once, when less arrived than the intent was proposed for: the reserve covers the supply in every run if
      and only if unverified deposits are not approved by hand. */
  lemma ReserveCoversSupplyIffVerified(fees: Fees, unverified: bool)
    ensures (forall events: seq<Event> :: Run(fees, EMPTY, events).Some? && (unverified || VerifiedRun(fees, EMPTY, events))
                                          ==> Run(fees, EMPTY, events).value.supply <= Reserve(Run(fees, EMPTY, events).value))
            <==> !unverified
  {
    if unverified {
      var events := [Open, Arrive(0, 1, 2), ApproveByHand(0, 0)];
      ApprovedUnverified(fees, 1, 2);
      ReserveOfOne(Run(fees, EMPTY, events).value);
    } else {
      forall events: seq<Event> | Run(fees, EMPTY, events).Some? && VerifiedRun(fees, EMPTY, events)
        ensures Run(fees, EMPTY, events).value.supply <= Reserve(Run(fees, EMPTY, events).value)
      {
        ReserveCoversSupply(fees, events);
      }
    }
  }

  // ----- the world, updated in place -------------------------------------------------------------

  /** The treasury, the signer and the relay around the accounts, one operation at a time. */
  class World {
    const fees: Fees
    var accounts: seq<Account>
    var custody: int
    var float: int
    var supply: int
    var redemptions: seq<Redemption>
    /** The relay's live fees. They change at will. */
    var activateLive: nat
    var transferLive: nat

    ghost function State(): Rail
      reads this
    {
      Rail(accounts, custody, float, supply, redemptions)
    }

    ghost predicate Valid()
      reads this
    {
      Good(fees, State())
    }

    constructor (fees: Fees)
      ensures Valid() && State() == EMPTY && this.fees == fees
    {
      hide Good;
      EmptyIsGood(fees);
      this.fees := fees;
      accounts, custody, float, supply, redemptions := [], 0, 0, 0, [];
      activateLive, transferLive := 0, 0;
    }

    method SetLiveFees(activate: nat, transfer: nat)
      modifies this`activateLive, this`transferLive
      ensures activateLive == activate && transferLive == transfer
    {
      activateLive, transferLive := activate, transfer;
    }

    /** The treasury verifies deposit `d` of account `i`. */
    method Verify(i: nat, d: nat) returns (decision: DepositMint)
      requires Valid() && i < |accounts| && d < |accounts[i].deposits| && accounts[i].deposits[d].status == Created
      modifies this`accounts, this`supply
      ensures Step(fees, old(State()), Event.Verify(i, d)) == Some(State())
      ensures decision == DepositMintOf(old(accounts)[i].deposits[d].observed,
                                        FeeToHold(old(accounts)[i].seen, fees.activateMax, fees.transferMax),
                                        fees.minDeposit)
      ensures var a, was := old(accounts)[i], old(accounts)[i].deposits[d];
              var cap := was.observed - fees.transferMax - (if a.seen then 0 else fees.activateMax);
              var now := if cap < 1 then was.(status := Rejected)
                         else was.(clt := if was.clt < cap then was.clt else cap, status := if cap < fees.minDeposit then NeedsManual else Approved);
              && accounts == old(accounts)[i := a.(deposits := a.deposits[d := now])]
              && supply == old(supply) + if now.status == Approved then now.clt else 0
      ensures Valid() && supply <= Reserve(State())
    {
      StepKeepsGood(fees, State(), Event.Verify(i, d));
      var a := accounts[i];
      var deposit := a.deposits[d];
      var fee := FeeToHold(a.seen, fees.activateMax, fees.transferMax);
      decision := DepositMintOf(deposit.observed, fee, fees.minDeposit);
      match decision {
        case Mint(cap) =>
          deposit := deposit.(clt := Min(deposit.clt, cap), status := Approved);
          supply := supply + deposit.clt;
        case BelowMinimum(cap) =>
          deposit := deposit.(clt := Min(deposit.clt, cap), status := NeedsManual);
        case NothingToMint =>
          deposit := deposit.(status := Rejected);
      }
      accounts := accounts[i := a.(deposits := a.deposits[d := deposit])];
      GoodIsBacked(fees, State());
    }

    /** What the relay would charge this account now. */
    function LiveFee(a: Account): nat
      reads this`activateLive, this`transferLive
    {
      if Activated(a) then transferLive else activateLive + transferLive
    }

    /** Whether a sweep asked for now moves anything: the signer's `below_fee`, the relay refusing a permit
        below its fee, and the sweeper's own rule when it is the one asking. */
    predicate CanSweep(a: Account, byTreasury: bool)
      reads this`activateLive, this`transferLive
    {
      && FeeToHold(Activated(a), fees.activateMax, fees.transferMax) < a.balance
      && LiveFee(a) <= FeeToHold(Activated(a), fees.activateMax, fees.transferMax)
      && (byTreasury ==> SweepEligible(fees, a))
    }

    /** A sweep asked of the signer, run by the relay at once: the signer's `maxFee` from the chain, the
        relay's live fee on top of the value. `false` moves nothing. */
    method Sweep(i: nat, byTreasury: bool, toFloat: bool) returns (swept: bool)
      requires Valid() && i < |accounts|
      modifies this`accounts, this`custody, this`float
      // when
      ensures var a := old(accounts)[i];
              var maxFee := fees.transferMax + (if a.nonce > 0 then 0 else fees.activateMax);
              swept <==>
                && maxFee < a.balance && transferLive + (if a.nonce > 0 then 0 else activateLive) <= maxFee
                && (byTreasury ==>
                      && a.pending == None && (exists d :: 0 <= d < |a.deposits| && a.deposits[d].status == Submitted)
                      && a.balance > fees.transferMax + (if a.seen then 0 else fees.activateMax))
      // and what moves where
      ensures |accounts| == |old(accounts)|
      ensures !swept ==> State() == old(State())
      ensures swept ==>
                var a, b := old(accounts)[i], accounts[i];
                var value := a.balance - fees.transferMax - (if a.nonce > 0 then 0 else fees.activateMax);
                && float == old(float) + (if toFloat then value else 0)
                && custody == old(custody) + (if toFloat then 0 else value)
                && b.balance == a.balance - value - transferLive - (if a.nonce > 0 then 0 else activateLive)
                && b.nonce == a.nonce + 1 && b.seen == (a.seen || byTreasury) && b.deposits == a.deposits
                && accounts == old(accounts)[i := b]
      ensures swept ==> Run(fees, old(State()),
                            SweepEvents(i, |old(accounts)[i].permits|, LiveFee(old(accounts)[i]), byTreasury, toFloat))
                        == Some(State())
      ensures Valid() && supply <= Reserve(State())
    {
      hide Good, Run;
      GoodIsBacked(fees, State());
      var a := accounts[i];
      swept := CanSweep(a, byTreasury);
      if !swept {
        return;
      }
      var live := LiveFee(a);
      ghost var before := State();
      SweepIsBacked(fees, before, i, live, byTreasury, toFloat);
      ghost var after := AfterSweep(fees, before, i, live, byTreasury, toFloat);
      var p := Permit(a.nonce, a.balance - FeeToHold(Activated(a), fees.activateMax, fees.transferMax),
                      FeeToHold(Activated(a), fees.activateMax, fees.transferMax), toFloat);
      assert Some(p) == SweepPermit(fees, a, toFloat);
      if toFloat {
        float := float + p.value;
      } else {
        custody := custody + p.value;
      }
      a := Account(a.balance - p.value - live, a.nonce + 1, a.seen || byTreasury, if byTreasury then None else a.pending,
                   a.permits + [p], a.deposits, a.feesPaid + live, a.moved + p.value);
      assert a == after.accounts[i];
      accounts := accounts[i := a];
      assert accounts == after.accounts && custody == after.custody && float == after.float;
      assert State() == after;
    }
  }

  /** A sweep as the three things that happen: the signer signs, the relay runs, the treasury settles. */
  function SweepEvents(i: nat, k: nat, live: int, byTreasury: bool, toFloat: bool): seq<Event> {
    if byTreasury then [TreasurySweep(i, toFloat), RunPermit(i, k, live), Settle(i)]
    else [SignSweep(i, toFloat), RunPermit(i, k, live)]
  }

  function SweptAccount(a: Account, p: Permit, live: int, byTreasury: bool): Account {
    Account(a.balance - p.value - live, a.nonce + 1, a.seen || byTreasury, if byTreasury then None else a.pending,
            a.permits + [p], a.deposits, a.feesPaid + live, a.moved + p.value)
  }

  /** The account between the relay's run and the treasury's settlement. */
  function UnsettledAccount(a: Account, p: Permit, live: int, byTreasury: bool): Account {
    Account(a.balance - p.value - live, a.nonce + 1, a.seen, if byTreasury then Some(a.nonce) else a.pending,
            a.permits + [p], a.deposits, a.feesPaid + live, a.moved + p.value)
  }

  function WithSwept(s: Rail, i: nat, a: Account, p: Permit): Rail
    requires i < |s.accounts|
  {
    Rail(s.accounts[i := a], s.custody + (if p.toFloat then 0 else p.value), s.float + (if p.toFloat then p.value else 0),
         s.supply, s.redemptions)
  }

  function AfterSweep(fees: Fees, s: Rail, i: nat, live: int, byTreasury: bool, toFloat: bool): Rail
    requires i < |s.accounts| && SweepPermit(fees, s.accounts[i], toFloat).Some?
  {
    var p := SweepPermit(fees, s.accounts[i], toFloat).value;
    WithSwept(s, i, SweptAccount(s.accounts[i], p, live, byTreasury), p)
  }

  lemma SignedAndRun(fees: Fees, s: Rail, i: nat, live: int, byTreasury: bool, toFloat: bool, p: Permit)
    requires i < |s.accounts| && SweepPermit(fees, s.accounts[i], toFloat) == Some(p)
    requires byTreasury ==> SweepEligible(fees, s.accounts[i])
    requires 0 <= live <= p.maxFee
    ensures Run(fees, s, SweepEvents(i, |s.accounts[i].permits|, live, byTreasury, toFloat)[..2])
            == Some(WithSwept(s, i, UnsettledAccount(s.accounts[i], p, live, byTreasury), p))
  {
    var a := s.accounts[i];
    var k := |a.permits|;
    var es := SweepEvents(i, k, live, byTreasury, toFloat);
    var a1 := a.(permits := a.permits + [p], pending := if byTreasury then Some(a.nonce) else a.pending);
    assert Step(fees, s, es[0]) == Some(SetAccount(s, i, a1));
    RunTwo(fees, s, es[0], es[1], SetAccount(s, i, a1));
    assert es[..2] == [es[0], es[1]];
    assert a1.permits[k] == p;
    assert AfterPermit(a1, k, live) == UnsettledAccount(a, p, live, byTreasury);
    RanSweep(fees, s, i, a1, k, live);
  }

  lemma SweepRuns(fees: Fees, s: Rail, i: nat, live: int, byTreasury: bool, toFloat: bool)
    requires i < |s.accounts| && SweepPermit(fees, s.accounts[i], toFloat).Some?
    requires byTreasury ==> SweepEligible(fees, s.accounts[i])
    requires 0 <= live <= FeeToHold(Activated(s.accounts[i]), fees.activateMax, fees.transferMax)
    ensures Run(fees, s, SweepEvents(i, |s.accounts[i].permits|, live, byTreasury, toFloat))
            == Some(AfterSweep(fees, s, i, live, byTreasury, toFloat))
  {
    hide Run, Step;
    var a := s.accounts[i];
    var p := SweepPermit(fees, a, toFloat).value;
    var es := SweepEvents(i, |a.permits|, live, byTreasury, toFloat);
    var b := UnsettledAccount(a, p, live, byTreasury);
    SignedAndRun(fees, s, i, live, byTreasury, toFloat, p);
    if byTreasury {
      RunSnoc(fees, s, es[..2], es[2]);
      assert es[..2] + [es[2]] == es;
      SettledSweep(fees, WithSwept(s, i, b, p), s.accounts, i, b);
      assert b.(seen := true, pending := None) == SweptAccount(a, p, live, byTreasury);
    } else {
      assert es[..2] == es;
      assert b == SweptAccount(a, p, live, byTreasury);
    }
  }

  lemma SettledSweep(fees: Fees, s: Rail, accounts: seq<Account>, i: nat, a: Account)
    requires i < |accounts| && s.accounts == accounts[i := a]
    requires a.pending.Some? && a.nonce > a.pending.value
    ensures Step(fees, s, Settle(i)) == Some(s.(accounts := accounts[i := a.(seen := true, pending := None)]))
  {
    assert accounts[i := a][i := a.(seen := true, pending := None)] == accounts[i := a.(seen := true, pending := None)];
  }

  /** Running a permit of an account that has just been replaced. */
  lemma RanSweep(fees: Fees, s: Rail, i: nat, a: Account, k: nat, live: int)
    requires i < |s.accounts| && Runnable(a, k, live)
    ensures var p := a.permits[k];
            var b := AfterPermit(a, k, live);
            Step(fees, SetAccount(s, i, a), RunPermit(i, k, live))
            == Some(WithSwept(s, i, b, p))
  {
    assert s.accounts[i := a][i := AfterPermit(a, k, live)] == s.accounts[i := AfterPermit(a, k, live)];
  }

  lemma SweepIsBacked(fees: Fees, s: Rail, i: nat, live: int, byTreasury: bool, toFloat: bool)
    requires Good(fees, s)
    requires i < |s.accounts| && SweepPermit(fees, s.accounts[i], toFloat).Some?
    requires byTreasury ==> SweepEligible(fees, s.accounts[i])
    requires 0 <= live <= FeeToHold(Activated(s.accounts[i]), fees.activateMax, fees.transferMax)
    ensures var t := AfterSweep(fees, s, i, live, byTreasury, toFloat);
            && Run(fees, s, SweepEvents(i, |s.accounts[i].permits|, live, byTreasury, toFloat)) == Some(t)
            && Good(fees, t) && t.supply <= Reserve(t)
  {
    SweepRuns(fees, s, i, live, byTreasury, toFloat);
    RunKeepsGood(fees, s, SweepEvents(i, |s.accounts[i].permits|, live, byTreasury, toFloat));
    GoodIsBacked(fees, AfterSweep(fees, s, i, live, byTreasury, toFloat));
  }
}
