/**
 The GasFree reserve rule, over every run.

 A sweep pays the relay out of the USDT it moves, so a deposit may mint only what is left after that. What is held back
 and what a permit allows are sized from two records that can disagree; the reserve covers the supply anyway.
 */
module GasFreeRail {
  import opened Basics

  // ----- the two pure rules ----------------------------------------------------------------------

  function FeeToHold(activated: bool, activateMax: int, transferMax: int): int {
    if activated then transferMax else activateMax + transferMax
  }

  datatype DepositMint = Mint(cap: int) | BelowMinimum(cap: int) | NothingToMint

  function DepositMintOf(observed: int, fee: int, minDeposit: int): (m: DepositMint)
    ensures m.NothingToMint? <==> observed <= fee
    ensures !m.NothingToMint? ==> m.cap + fee == observed
    ensures m.Mint? <==> observed - fee >= 1 && observed - fee >= minDeposit
  {
    var cap := observed - fee;
    if cap < 1 then NothingToMint
    else if cap < minDeposit then BelowMinimum(cap)
    else Mint(cap)
  }

  // ----- state -----------------------------------------------------------------------------------

  /** The configured maxima and the minimum deposit, the same in the treasury and the signer. */
  datatype Fees = Fees(activateMax: nat, transferMax: nat, minDeposit: int)

  datatype DepositStatus = Created | Approved | NeedsManual | Rejected | Submitted

  /** A deposit that reached a GasFree account, and the mint intent proposed for it. `clt` is what the
      intent mints: the orchestrator's proposal until it is verified, at most the cap afterwards. */
  datatype Deposit = Deposit(observed: int, clt: int, status: DepositStatus)

  /** A signed sweep permit. It runs at exactly its nonce. */
  datatype Permit = Permit(nonce: nat, value: int, maxFee: int, toFloat: bool)

  /** One GasFree account. `nonce` is the controller's, so the account is activated iff it is positive.
      `seen` is the treasury's own record of a first transfer, and `pending` the nonce of the permit it
      asked for. `feesPaid` and `moved` are history: what the relay took and what left for home. */
  datatype Account = Account(
    balance: int,
    nonce: nat,
    seen: bool,
    pending: Option<nat>,
    permits: seq<Permit>,
    deposits: seq<Deposit>,
    feesPaid: int,
    moved: int)

  /** A confirmed burn of `burned` CLT owed `net` micro-USDT; `spent` is what the payout cost the float. */
  datatype Redemption = Redemption(burned: int, net: int, spent: Option<int>)

  datatype Rail = Rail(
    accounts: seq<Account>,
    custody: int,
    float: int,
    supply: int,
    redemptions: seq<Redemption>)

  const NEW_ACCOUNT := Account(0, 0, false, None, [], [], 0, 0)
  const EMPTY := Rail([], 0, 0, 0, [])

  datatype Event =
    | Open
    | Arrive(account: nat, amount: int, proposed: int)
    | Verify(account: nat, deposit: nat)
    | ApproveByHand(account: nat, deposit: nat)
    | Submit(account: nat, deposit: nat)
    | SignSweep(account: nat, toFloat: bool)
    | TreasurySweep(account: nat, toFloat: bool)
    | RunPermit(account: nat, permit: nat, live: int)
    | Settle(account: nat)
    | Expire(account: nat)
    | Burn(burned: int, redemptionFee: int)
    | PayOut(redemption: nat, live: int)

  // ----- one account's steps ---------------------------------------------------------------------

  predicate Activated(a: Account) {
    a.nonce > 0
  }

  /** What the treasury decides about a deposit it has observed. */
  function Judge(fees: Fees, seen: bool, d: Deposit): Deposit {
    match DepositMintOf(d.observed, FeeToHold(seen, fees.activateMax, fees.transferMax), fees.minDeposit)
    case Mint(cap) => d.(status := Approved, clt := Min(d.clt, cap))
    case BelowMinimum(cap) => d.(status := NeedsManual, clt := Min(d.clt, cap))
    case NothingToMint => d.(status := Rejected)
  }

  /** The signer's permit for the account as the chain shows it; `None` is its `BelowFee`. */
  function SweepPermit(fees: Fees, a: Account, toFloat: bool): Option<Permit> {
    var maxFee := FeeToHold(Activated(a), fees.activateMax, fees.transferMax);
    if a.balance <= maxFee then None
    else Some(Permit(a.nonce, a.balance - maxFee, maxFee, toFloat))
  }

  /** Whether the treasury's sweeper would ask for this account: a credited or submitted deposit, no
      permit in flight, and more than a sweep may cost on its own record. */
  predicate SweepEligible(fees: Fees, a: Account) {
    && a.pending == None
    && (exists i :: 0 <= i < |a.deposits| && a.deposits[i].status == Submitted)
    && a.balance > FeeToHold(a.seen, fees.activateMax, fees.transferMax)
  }

  /** A permit the controller accepts now, at a live fee within what it allows. */
  predicate Runnable(a: Account, k: nat, live: int) {
    && k < |a.permits|
    && a.permits[k].nonce == a.nonce
    && 0 <= live <= a.permits[k].maxFee
    && a.permits[k].value + live <= a.balance
  }

  function AfterPermit(a: Account, k: nat, live: int): Account
    requires Runnable(a, k, live)
  {
    var p := a.permits[k];
    a.(balance := a.balance - p.value - live, nonce := a.nonce + 1,
       feesPaid := a.feesPaid + live, moved := a.moved + p.value)
  }

  // ----- the whole rail --------------------------------------------------------------------------

  function SetAccount(s: Rail, i: nat, a: Account): Rail
    requires i < |s.accounts|
  {
    s.(accounts := s.accounts[i := a])
  }

  /** One step, or `None` when the event cannot happen in `s`. */
  function Step(fees: Fees, s: Rail, e: Event): Option<Rail> {
    match e
    case Open => Some(s.(accounts := s.accounts + [NEW_ACCOUNT]))
    case Arrive(i, amount, proposed) =>
      if i < |s.accounts| && amount > 0 && proposed > 0 then
        var a := s.accounts[i];
        Some(SetAccount(s, i, a.(balance := a.balance + amount,
                                 deposits := a.deposits + [Deposit(amount, proposed, Created)])))
      else None
    case Verify(i, d) =>
      if i < |s.accounts| && d < |s.accounts[i].deposits| && s.accounts[i].deposits[d].status == Created then
        var a := s.accounts[i];
        var judged := Judge(fees, a.seen, a.deposits[d]);
        var minted := if judged.status == Approved then judged.clt else 0;
        Some(SetAccount(s, i, a.(deposits := a.deposits[d := judged])).(supply := s.supply + minted))
      else None
    case ApproveByHand(i, d) =>
      if i < |s.accounts| && d < |s.accounts[i].deposits|
         && (s.accounts[i].deposits[d].status == Created || s.accounts[i].deposits[d].status == NeedsManual) then
        var a := s.accounts[i];
        Some(SetAccount(s, i, a.(deposits := a.deposits[d := a.deposits[d].(status := Approved)]))
               .(supply := s.supply + a.deposits[d].clt))
      else None
    case Submit(i, d) =>
      if i < |s.accounts| && d < |s.accounts[i].deposits| && s.accounts[i].deposits[d].status == Approved then
        var a := s.accounts[i];
        Some(SetAccount(s, i, a.(deposits := a.deposits[d := a.deposits[d].(status := Submitted)])))
      else None
    case SignSweep(i, toFloat) =>
      if i < |s.accounts| && SweepPermit(fees, s.accounts[i], toFloat).Some? then
        var a := s.accounts[i];
        Some(SetAccount(s, i, a.(permits := a.permits + [SweepPermit(fees, a, toFloat).value])))
      else None
    case TreasurySweep(i, toFloat) =>
      if i < |s.accounts| && SweepEligible(fees, s.accounts[i]) && SweepPermit(fees, s.accounts[i], toFloat).Some? then
        var a := s.accounts[i];
        Some(SetAccount(s, i, a.(permits := a.permits + [SweepPermit(fees, a, toFloat).value],
                                 pending := Some(a.nonce))))
      else None
    case RunPermit(i, k, live) =>
      if i < |s.accounts| && Runnable(s.accounts[i], k, live) then
        var p := s.accounts[i].permits[k];
        var t := SetAccount(s, i, AfterPermit(s.accounts[i], k, live));
        Some(if p.toFloat then t.(float := s.float + p.value) else t.(custody := s.custody + p.value))
      else None
    case Settle(i) =>
      if i < |s.accounts| && s.accounts[i].pending.Some? && s.accounts[i].nonce > s.accounts[i].pending.value then
        Some(SetAccount(s, i, s.accounts[i].(seen := true, pending := None)))
      else None
    case Expire(i) =>
      if i < |s.accounts| && s.accounts[i].pending.Some? then
        Some(SetAccount(s, i, s.accounts[i].(pending := None)))
      else None
    case Burn(burned, redemptionFee) =>
      if 0 < burned <= s.supply && redemptionFee >= fees.transferMax && burned - redemptionFee > 0 then
        Some(s.(supply := s.supply - burned,
                redemptions := s.redemptions + [Redemption(burned, burned - redemptionFee, None)]))
      else None
    case PayOut(r, live) =>
      if r < |s.redemptions| && s.redemptions[r].spent == None && 0 <= live <= fees.transferMax
         && s.redemptions[r].net + fees.transferMax <= s.float then
        var cost := s.redemptions[r].net + live;
        Some(s.(float := s.float - cost,
                redemptions := s.redemptions[r := s.redemptions[r].(spent := Some(cost))]))
      else None
  }

  /** The state after a whole run, or `None` when some event could not happen. */
  function Run(fees: Fees, s: Rail, events: seq<Event>): Option<Rail> {
    if events == [] then Some(s)
    else
      var before := Run(fees, s, events[..|events| - 1]);
      if before == None then None else Step(fees, before.value, events[|events| - 1])
  }

  /** A person approves what the verifier has looked at: the status says so. The code lets them approve `created`
      too, and then nothing is held back. */
  predicate Verified(s: Rail, e: Event) {
    e.ApproveByHand? && e.account < |s.accounts| && e.deposit < |s.accounts[e.account].deposits| ==>
      s.accounts[e.account].deposits[e.deposit].status != Created
  }

  /** No unverified deposit is approved by hand. */
  ghost predicate VerifiedRun(fees: Fees, s: Rail, events: seq<Event>) {
    forall n :: 0 <= n < |events| && Run(fees, s, events[..n]).Some? ==> Verified(Run(fees, s, events[..n]).value, events[n])
  }

  // ----- what the reserve is ---------------------------------------------------------------------

  ghost function Balance(): Account -> int {
    (a: Account) => a.balance
  }

  ghost function Reserve(s: Rail): int {
    Total(s.accounts, Balance()) + s.custody + s.float
  }

  // ----- measures on deposits --------------------------------------------------------------------

  /** What a verified deposit keeps out of the supply for good. */
  function Held(d: Deposit): int {
    if d.status == Rejected then d.observed else d.observed - d.clt
  }

  /** A deposit that mints, or that a human may still release. */
  predicate Mints(d: Deposit) {
    d.status == Approved || d.status == Submitted || d.status == NeedsManual
  }

  ghost function Observed(): Deposit -> int {
    (d: Deposit) => d.observed
  }

  /** The most a deposit can add to what later sweeps cost. */
  ghost function Small(t: int): Deposit -> int {
    (d: Deposit) => Min(d.observed, t)
  }

  /** How far what was held leads what the deposit can add to the fees. */
  ghost function Lead(t: int): Deposit -> int {
    (d: Deposit) => if d.status == Created then 0 else Held(d) - Min(d.observed, t)
  }

  /** What a deposit brought, less the CLT it put into circulation. */
  ghost function Worth(): Deposit -> int {
    (d: Deposit) => d.observed - (if d.status == Approved || d.status == Submitted then d.clt else 0)
  }

  ghost predicate AnyMints(ds: seq<Deposit>) {
    exists i :: 0 <= i < |ds| && Mints(ds[i])
  }

  ghost predicate DepositOk(t: int, d: Deposit) {
    && d.observed > 0
    && d.clt > 0
    && (Mints(d) ==> d.clt + t <= d.observed)
  }

  // ----- the invariant ---------------------------------------------------------------------------

  /** A permit that could still run was sized for the account as it is, and leaves what the fees need. */
  ghost predicate PermitOk(fees: Fees, a: Account, p: Permit) {
    && p.value > 0
    && p.nonce <= a.nonce
    && (p.nonce == a.nonce ==>
          && p.maxFee == FeeToHold(Activated(a), fees.activateMax, fees.transferMax)
          && p.value + p.maxFee <= a.balance
          && a.feesPaid + p.maxFee + Min(a.balance - p.value - p.maxFee, fees.transferMax)
             <= fees.activateMax + Total(a.deposits, Small(fees.transferMax)))
  }

  ghost predicate AccountOk(fees: Fees, a: Account) {
    && a.balance >= 0
    && a.moved >= 0
    && a.feesPaid >= 0
    && a.balance + a.moved + a.feesPaid == Total(a.deposits, Observed())
    && (forall i :: 0 <= i < |a.deposits| ==> DepositOk(fees.transferMax, a.deposits[i]))
    // The chain's side: what the relay took, and could take next, is covered by what arrived.
    && a.feesPaid + Min(a.balance, fees.transferMax)
       <= (if Activated(a) then fees.activateMax else 0) + Total(a.deposits, Small(fees.transferMax))
    && (forall k :: 0 <= k < |a.permits| ==> PermitOk(fees, a, a.permits[k]))
    // The treasury's side: once anything may be minted, activation is held on top of every transfer.
    && (AnyMints(a.deposits) ==> fees.activateMax <= Total(a.deposits, Lead(fees.transferMax)))
    // The link between the two records.
    && (a.seen || a.pending.Some? ==> AnyMints(a.deposits))
  }

  ghost predicate RedemptionOk(fees: Fees, r: Redemption) {
    && 0 < r.net
    && r.net + fees.transferMax <= r.burned
    && (r.spent.Some? ==> r.spent.value <= r.burned)
  }

  /** What the account's deposits brought beyond what they minted and what its sweeps cost. */
  ghost function Surplus(): Account -> int {
    (a: Account) => Total(a.deposits, Worth()) - a.feesPaid
  }

  ghost function Slack(): Redemption -> int {
    (r: Redemption) => r.burned - (if r.spent.Some? then r.spent.value else 0)
  }

  ghost predicate Good(fees: Fees, s: Rail) {
    && (forall i :: 0 <= i < |s.accounts| ==> AccountOk(fees, s.accounts[i]))
    && (forall r :: 0 <= r < |s.redemptions| ==> RedemptionOk(fees, s.redemptions[r]))
    && Reserve(s) - s.supply == Total(s.accounts, Surplus()) + Total(s.redemptions, Slack())
  }

  // ----- lemmas on deposits ----------------------------------------------------------------------

  lemma {:induction false} WorthCoversLead(t: int, ds: seq<Deposit>)
    requires forall i :: 0 <= i < |ds| ==> DepositOk(t, ds[i])
    ensures Total(ds, Lead(t)) + Total(ds, Small(t)) <= Total(ds, Worth())
  {
    if ds != [] {
      WorthCoversLead(t, ds[..|ds| - 1]);
    }
  }

  lemma {:induction false} NothingMintedIsWorthAll(ds: seq<Deposit>)
    requires !AnyMints(ds)
    ensures Total(ds, Worth()) == Total(ds, Observed())
  {
    if ds != [] {
      var n := |ds| - 1;
      assert !Mints(ds[n]);
      assert forall i :: 0 <= i < n ==> !Mints(ds[..n][i]) by {
        forall i | 0 <= i < n ensures !Mints(ds[..n][i]) { assert !Mints(ds[i]); }
      }
      NothingMintedIsWorthAll(ds[..n]);
    }
  }

  lemma {:induction false} LeadIsNonNegative(t: int, ds: seq<Deposit>)
    requires forall i :: 0 <= i < |ds| ==> DepositOk(t, ds[i])
    ensures 0 <= Total(ds, Lead(t))
  {
    if ds != [] {
      LeadIsNonNegative(t, ds[..|ds| - 1]);
    }
  }

  /** An account never owes more than it brought. */
  lemma AccountIsCovered(fees: Fees, a: Account)
    requires AccountOk(fees, a)
    ensures 0 <= Surplus()(a)
  {
    if AnyMints(a.deposits) {
      WorthCoversLead(fees.transferMax, a.deposits);
    } else {
      NothingMintedIsWorthAll(a.deposits);
    }
  }

  // ----- every step keeps the invariant ----------------------------------------------------------

  /** An account replaced by one that keeps its own invariant, with the books moved to match. */
  lemma ReplaceKeeps(fees: Fees, s: Rail, i: nat, a: Account, t: Rail)
    requires Good(fees, s) && i < |s.accounts| && AccountOk(fees, a)
    requires t.accounts == s.accounts[i := a] && t.redemptions == s.redemptions
    requires (a.balance + t.custody + t.float - t.supply) - (s.accounts[i].balance + s.custody + s.float - s.supply)
             == Surplus()(a) - Surplus()(s.accounts[i])
    ensures Good(fees, t)
  {
    TotalUpdate(s.accounts, i, a, Balance());
    TotalUpdate(s.accounts, i, a, Surplus());
  }

  lemma ArriveKeeps(fees: Fees, a: Account, amount: int, proposed: int)
    requires AccountOk(fees, a) && amount > 0 && proposed > 0
    ensures var d := Deposit(amount, proposed, Created);
            var b := a.(balance := a.balance + amount, deposits := a.deposits + [d]);
            AccountOk(fees, b) && Surplus()(b) == Surplus()(a) + amount
  {
    var d := Deposit(amount, proposed, Created);
    var b := a.(balance := a.balance + amount, deposits := a.deposits + [d]);
    var t := fees.transferMax;
    TotalAppend(a.deposits, d, Observed());
    TotalAppend(a.deposits, d, Small(t));
    TotalAppend(a.deposits, d, Lead(t));
    TotalAppend(a.deposits, d, Worth());
    if AnyMints(b.deposits) {
      var j :| 0 <= j < |b.deposits| && Mints(b.deposits[j]);
      assert Mints(a.deposits[j]);
    }
    if AnyMints(a.deposits) {
      var j :| 0 <= j < |a.deposits| && Mints(a.deposits[j]);
      assert Mints(b.deposits[j]);
    }
    forall k | 0 <= k < |b.permits| ensures PermitOk(fees, b, b.permits[k]) {
      assert PermitOk(fees, a, a.permits[k]);
    }
  }

  /** Replacing a deposit by one of the same amount, where what is held for it does not shrink. */
  lemma DepositMovesOn(fees: Fees, a: Account, i: nat, d: Deposit)
    requires AccountOk(fees, a) && i < |a.deposits|
    requires DepositOk(fees.transferMax, d) && d.observed == a.deposits[i].observed
    requires Mints(a.deposits[i]) ==> Mints(d)
    requires Mints(d) && !AnyMints(a.deposits) ==> fees.activateMax <= Lead(fees.transferMax)(d)
    requires Lead(fees.transferMax)(a.deposits[i]) <= Lead(fees.transferMax)(d)
    ensures var b := a.(deposits := a.deposits[i := d]);
            && AccountOk(fees, b)
            && Surplus()(b) == Surplus()(a) - Worth()(a.deposits[i]) + Worth()(d)
  {
    var b := a.(deposits := a.deposits[i := d]);
    var t := fees.transferMax;
    TotalUpdate(a.deposits, i, d, Observed());
    TotalUpdate(a.deposits, i, d, Small(t));
    TotalUpdate(a.deposits, i, d, Lead(t));
    TotalUpdate(a.deposits, i, d, Worth());
    LeadIsNonNegative(t, a.deposits);
    if AnyMints(a.deposits) {
      var j :| 0 <= j < |a.deposits| && Mints(a.deposits[j]);
      assert Mints(b.deposits[j]);
    }
    if AnyMints(b.deposits) && !AnyMints(a.deposits) {
      var j :| 0 <= j < |b.deposits| && Mints(b.deposits[j]);
      assert j == i;
      LeadWithout(t, a.deposits, i);
    }
    forall k | 0 <= k < |b.permits| ensures PermitOk(fees, b, b.permits[k]) {
      assert PermitOk(fees, a, a.permits[k]);
    }
  }

  /** Leaving one deposit out, the lead of the others is not negative. */
  lemma LeadWithout(t: int, ds: seq<Deposit>, i: nat)
    requires i < |ds| && forall j :: 0 <= j < |ds| ==> DepositOk(t, ds[j])
    ensures Lead(t)(ds[i]) <= Total(ds, Lead(t))
  {
    var blank := ds[i].(status := Created);
    TotalUpdate(ds, i, blank, Lead(t));
    LeadIsNonNegative(t, ds[i := blank]);
  }

  lemma VerifyKeeps(fees: Fees, a: Account, i: nat)
    requires AccountOk(fees, a) && i < |a.deposits| && a.deposits[i].status == Created
    ensures var d := Judge(fees, a.seen, a.deposits[i]);
            var b := a.(deposits := a.deposits[i := d]);
            && AccountOk(fees, b)
            && Surplus()(b) == Surplus()(a) - (if d.status == Approved then d.clt else 0)
  {
    var d := Judge(fees, a.seen, a.deposits[i]);
    assert DepositOk(fees.transferMax, a.deposits[i]);
    DepositMovesOn(fees, a, i, d);
  }

  lemma ReleaseKeeps(fees: Fees, a: Account, i: nat)
    requires AccountOk(fees, a) && i < |a.deposits| && a.deposits[i].status == NeedsManual
    ensures var b := a.(deposits := a.deposits[i := a.deposits[i].(status := Approved)]);
            AccountOk(fees, b) && Surplus()(b) == Surplus()(a) - a.deposits[i].clt
  {
    assert DepositOk(fees.transferMax, a.deposits[i]);
    assert AnyMints(a.deposits);
    DepositMovesOn(fees, a, i, a.deposits[i].(status := Approved));
  }

  lemma SubmitKeeps(fees: Fees, a: Account, i: nat)
    requires AccountOk(fees, a) && i < |a.deposits| && a.deposits[i].status == Approved
    ensures var b := a.(deposits := a.deposits[i := a.deposits[i].(status := Submitted)]);
            AccountOk(fees, b) && Surplus()(b) == Surplus()(a)
  {
    assert DepositOk(fees.transferMax, a.deposits[i]);
    assert AnyMints(a.deposits);
    DepositMovesOn(fees, a, i, a.deposits[i].(status := Submitted));
  }

  lemma SignKeeps(fees: Fees, a: Account, toFloat: bool)
    requires AccountOk(fees, a) && SweepPermit(fees, a, toFloat).Some?
    ensures var b := a.(permits := a.permits + [SweepPermit(fees, a, toFloat).value]);
            AccountOk(fees, b) && Surplus()(b) == Surplus()(a)
  {
    var b := a.(permits := a.permits + [SweepPermit(fees, a, toFloat).value]);
    forall k | 0 <= k < |b.permits| ensures PermitOk(fees, b, b.permits[k]) {
      if k < |a.permits| {
        assert PermitOk(fees, a, a.permits[k]);
      }
    }
  }

  lemma RunKeeps(fees: Fees, a: Account, k: nat, live: int)
    requires AccountOk(fees, a) && Runnable(a, k, live)
    ensures var b := AfterPermit(a, k, live);
            AccountOk(fees, b) && Surplus()(b) == Surplus()(a) - live
  {
    var b := AfterPermit(a, k, live);
    assert PermitOk(fees, a, a.permits[k]);
    forall j | 0 <= j < |b.permits| ensures PermitOk(fees, b, b.permits[j]) {
      assert PermitOk(fees, a, a.permits[j]);
    }
  }

  lemma DepositStepKeepsGood(fees: Fees, s: Rail, e: Event)
    requires Good(fees, s) && Step(fees, s, e).Some?
    requires e.Arrive? || e.Verify? || e.ApproveByHand? || e.Submit?
    requires Verified(s, e)
    ensures Good(fees, Step(fees, s, e).value)
  {
    var t := Step(fees, s, e).value;
    var i := e.account;
    var a := s.accounts[i];
    match e {
    case Arrive(_, amount, proposed) =>
      ArriveKeeps(fees, a, amount, proposed);
    case Verify(_, d) =>
      VerifyKeeps(fees, a, d);
    case ApproveByHand(_, d) =>
      ReleaseKeeps(fees, a, d);
    case Submit(_, d) =>
      SubmitKeeps(fees, a, d);
    }
    ReplaceKeeps(fees, s, i, t.accounts[i], t);
  }

  lemma SweepStepKeepsGood(fees: Fees, s: Rail, e: Event)
    requires Good(fees, s) && Step(fees, s, e).Some?
    requires e.SignSweep? || e.TreasurySweep? || e.RunPermit? || e.Settle? || e.Expire?
    ensures Good(fees, Step(fees, s, e).value)
  {
    var t := Step(fees, s, e).value;
    var i := e.account;
    var a := s.accounts[i];
    match e {
    case SignSweep(_, toFloat) =>
      SignKeeps(fees, a, toFloat);
    case TreasurySweep(_, toFloat) =>
      SignKeeps(fees, a, toFloat);
      AskKeeps(fees, a.(permits := t.accounts[i].permits), t.accounts[i].pending);
    case RunPermit(_, k, live) =>
      RunKeeps(fees, a, k, live);
    case Settle(_) =>
      RecordKeeps(fees, a, true, None);
    case Expire(_) =>
      RecordKeeps(fees, a, a.seen, None);
    }
    ReplaceKeeps(fees, s, i, t.accounts[i], t);
  }

  lemma OpenKeepsGood(fees: Fees, s: Rail)
    requires Good(fees, s)
    ensures Good(fees, Step(fees, s, Open).value)
  {
    TotalAppend(s.accounts, NEW_ACCOUNT, Balance());
    TotalAppend(s.accounts, NEW_ACCOUNT, Surplus());
  }

  lemma RedemptionStepKeepsGood(fees: Fees, s: Rail, e: Event)
    requires Good(fees, s) && Step(fees, s, e).Some? && (e.Burn? || e.PayOut?)
    ensures Good(fees, Step(fees, s, e).value)
  {
    match e
    case Burn(burned, redemptionFee) =>
      TotalAppend(s.redemptions, Redemption(burned, burned - redemptionFee, None), Slack());
    case PayOut(r, live) =>
      TotalUpdate(s.redemptions, r, Step(fees, s, e).value.redemptions[r], Slack());
  }

  lemma StepKeepsGood(fees: Fees, s: Rail, e: Event)
    requires Good(fees, s) && Step(fees, s, e).Some? && Verified(s, e)
    ensures Good(fees, Step(fees, s, e).value)
  {
    match e
    case Open => OpenKeepsGood(fees, s);
    case Burn(_, _) => RedemptionStepKeepsGood(fees, s, e);
    case PayOut(_, _) => RedemptionStepKeepsGood(fees, s, e);
    case Arrive(_, _, _) => DepositStepKeepsGood(fees, s, e);
    case Verify(_, _) => DepositStepKeepsGood(fees, s, e);
    case ApproveByHand(_, _) => DepositStepKeepsGood(fees, s, e);
    case Submit(_, _) => DepositStepKeepsGood(fees, s, e);
    case SignSweep(_, _) => SweepStepKeepsGood(fees, s, e);
    case TreasurySweep(_, _) => SweepStepKeepsGood(fees, s, e);
    case RunPermit(_, _, _) => SweepStepKeepsGood(fees, s, e);
    case Settle(_) => SweepStepKeepsGood(fees, s, e);
    case Expire(_) => SweepStepKeepsGood(fees, s, e);
  }

  lemma RecordKeeps(fees: Fees, a: Account, seen: bool, pending: Option<nat>)
    requires AccountOk(fees, a) && (seen || pending.Some? ==> AnyMints(a.deposits))
    ensures var b := a.(seen := seen, pending := pending);
            AccountOk(fees, b) && Surplus()(b) == Surplus()(a)
  {
    var b := a.(seen := seen, pending := pending);
    forall k | 0 <= k < |b.permits| ensures PermitOk(fees, b, b.permits[k]) {
      assert PermitOk(fees, a, a.permits[k]);
    }
  }

  lemma AskKeeps(fees: Fees, a: Account, pending: Option<nat>)
    requires AccountOk(fees, a)
    requires exists i :: 0 <= i < |a.deposits| && a.deposits[i].status == Submitted
    ensures var b := a.(pending := pending);
            AccountOk(fees, b) && Surplus()(b) == Surplus()(a)
  {
    var i :| 0 <= i < |a.deposits| && a.deposits[i].status == Submitted;
    assert Mints(a.deposits[i]);
    RecordKeeps(fees, a, a.seen, pending);
  }

  lemma VerifiedPrefix(fees: Fees, s: Rail, events: seq<Event>)
    requires events != [] && Run(fees, s, events).Some? && VerifiedRun(fees, s, events)
    ensures VerifiedRun(fees, s, events[..|events| - 1])
    ensures Verified(Run(fees, s, events[..|events| - 1]).value, events[|events| - 1])
  {
    var m := |events| - 1;
    forall n | 0 <= n < m && Run(fees, s, events[..m][..n]).Some?
      ensures Verified(Run(fees, s, events[..m][..n]).value, events[..m][n])
    {
      assert events[..m][..n] == events[..n];
    }
  }

  lemma {:induction false} RunKeepsGood(fees: Fees, s: Rail, events: seq<Event>)
    requires Good(fees, s) && Run(fees, s, events).Some? && VerifiedRun(fees, s, events)
    ensures Good(fees, Run(fees, s, events).value)
  {
    hide Step, Verified;
    if events != [] {
      var n := |events| - 1;
      VerifiedPrefix(fees, s, events);
      RunKeepsGood(fees, s, events[..n]);
      StepKeepsGood(fees, Run(fees, s, events[..n]).value, events[n]);
    }
  }

  // ----- the theorem -----------------------------------------------------------------------------

  lemma GoodIsBacked(fees: Fees, s: Rail)
    requires Good(fees, s)
    ensures s.supply <= Reserve(s)
  {
    forall i | 0 <= i < |s.accounts| ensures 0 <= Surplus()(s.accounts[i]) {
      AccountIsCovered(fees, s.accounts[i]);
    }
    NonNegativeTotal(s.accounts, Surplus());
    forall r | 0 <= r < |s.redemptions| ensures 0 <= Slack()(s.redemptions[r]) {
      assert RedemptionOk(fees, s.redemptions[r]);
    }
    NonNegativeTotal(s.redemptions, Slack());
  }

  lemma {:induction false} NonNegativeTotal<T(!new)>(xs: seq<T>, f: T -> int)
    requires forall i :: 0 <= i < |xs| ==> 0 <= f(xs[i])
    ensures 0 <= Total(xs, f)
  {
    if xs != [] {
      NonNegativeTotal(xs[..|xs| - 1], f);
    }
  }

  lemma EmptyIsGood(fees: Fees)
    ensures Good(fees, EMPTY)
  {
  }

  /** Over every run in which no unverified deposit is approved by hand, accounts + custody + float never fall below
      the CLT supply. */
  lemma ReserveCoversSupply(fees: Fees, events: seq<Event>)
    requires Run(fees, EMPTY, events).Some? && VerifiedRun(fees, EMPTY, events)
    ensures var s := Run(fees, EMPTY, events).value; s.supply <= Reserve(s)
  {
    EmptyIsGood(fees);
    RunKeepsGood(fees, EMPTY, events);
    GoodIsBacked(fees, Run(fees, EMPTY, events).value);
  }
}
