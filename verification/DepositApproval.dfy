/**
 Approving a verified deposit: the mint is capped, what was held back is written beside it, the operator's fee
 is split off, and the observed amount enters the ledger, together.

 Nothing is made or lost: the user's mint, the operator's and what was held back come to what arrived. A rerun
 changes nothing, and one deposit transaction backs one intent.
 */
module DepositApproval {
  import opened Basics
  import opened DepositVerdicts

  datatype Status = Created | Approved | Submitted | Credited | NeedsManual | Rejected | Failed

  /** A mint intent. `feeFor` is the deposit whose mint an operator's fee was taken out of. */
  datatype Intent = Intent(
    beneficiary: string,
    amount: int,
    status: Status,
    depositBacked: bool,
    txId: Option<string>,
    feeHeld: Option<int>,
    serviceFee: int,
    feeFor: Option<nat>)

  /** `deposits` are the `custody_deposit` events: what was observed, by intent. */
  datatype Books = Books(intents: seq<Intent>, outbox: set<nat>, deposits: map<nat, int>)

  /** The operator's fee as it may be configured: at most a tenth, and a minimum that is not negative. */
  datatype Fee = Fee(bps: nat, min: nat, address: string)

  /** A share of the mint or the minimum, whichever is more; nothing when that would be the whole mint. */
  function ServiceFee(minted: int, bps: nat, min: nat): (fee: int)
    ensures 0 <= fee && (minted > 0 ==> fee < minted)
    ensures fee > 0 ==> fee >= min && fee * 10_000 > minted * bps - 10_000 && (fee == min || fee * 10_000 <= minted * bps)
    ensures fee > 0 <==> bps > 0 && minted > 0 && (min > 0 || minted * bps >= 10_000) && min < minted && minted * bps / 10_000 < minted
  {
    if bps == 0 || minted <= 0 then 0
    else
      assert minted * bps >= 0;
      var fee := Max(minted * bps / 10_000, min);
      if fee >= minted then 0 else fee
  }

  predicate Mints(s: Status) {
    s == Approved || s == Submitted || s == Credited
  }

  /** Whether the user has had a top-up before this one. */
  predicate HadOne(xs: seq<Intent>, i: nat)
    requires i < |xs|
  {
    exists j :: 0 <= j < |xs| && j != i && Lower(xs[j].beneficiary) == Lower(xs[i].beneficiary) && xs[j].depositBacked && Mints(xs[j].status)
  }

  /** A fee is due on it: the fee is on, the user is not the operator, and an earlier top-up of theirs mints or minted. */
  predicate Charged(xs: seq<Intent>, i: nat, fee: Option<Fee>)
    requires i < |xs|
  {
    && fee.Some? && Lower(xs[i].beneficiary) != fee.value.address
    && exists j :: 0 <= j < |xs| && j != i && Lower(xs[j].beneficiary) == Lower(xs[i].beneficiary)
                   && xs[j].depositBacked && xs[j].status in {Approved, Submitted, Credited}
  }

  /** What the operator takes of intent `i`'s mint. */
  function FeeOf(xs: seq<Intent>, i: nat, fee: Option<Fee>): (f: int)
    requires i < |xs|
    ensures 0 <= f && (xs[i].amount > 0 ==> f < xs[i].amount)
    ensures f > 0 <==> Charged(xs, i, fee) && ServiceFee(xs[i].amount, fee.value.bps, fee.value.min) > 0
    ensures f > 0 ==> f == ServiceFee(xs[i].amount, fee.value.bps, fee.value.min)
  {
    if fee.None? || Lower(xs[i].beneficiary) == fee.value.address || !HadOne(xs, i) then 0
    else ServiceFee(xs[i].amount, fee.value.bps, fee.value.min)
  }

  function Capped(amount: int, cap: Option<int>): (r: int)
    ensures cap.None? ==> r == amount
    ensures cap.Some? ==> r <= amount && r <= cap.value && (r == amount || r == cap.value)
  {
    if cap.Some? then Min(amount, cap.value) else amount
  }

  /** One transaction. `approved` is false for a deposit held for a person. */
  function Approve(b: Books, i: nat, observed: int, approved: bool, cap: Option<int>, fee: Option<Fee>): Books {
    if i >= |b.intents| || b.intents[i].status != Created then b
    else
      var x := b.intents[i];
      var minted := Capped(x.amount, cap);
      var held := if cap.Some? then Some(observed - minted) else None;
      var marked := x.(status := if approved then Approved else NeedsManual, amount := minted, feeHeld := held);
      var xs := b.intents[i := marked];
      var taken := if approved then FeeOf(xs, i, fee) else 0;
      var deposits := if i in b.deposits then b.deposits else b.deposits[i := observed];
      if taken == 0 then Books(xs, if approved then b.outbox + {i} else b.outbox, deposits)
      else
        Books(xs[i := marked.(amount := minted - taken, serviceFee := taken)]
              + [Intent(fee.value.address, taken, Approved, false, None, None, 0, Some(i))],
              b.outbox + {i, |xs|}, deposits)
  }

  /** What the approval leaves, field by field. The fee is judged on what is minted after the cap. */
  ghost predicate Landed(b: Books, t: Books, i: nat, observed: int, approved: bool, cap: Option<int>, fee: Option<Fee>)
    requires i < |b.intents|
  {
    var x, n := b.intents[i], |b.intents|;
    var minted := if cap.Some? && cap.value < x.amount then cap.value else x.amount;
    var split := approved && Charged(b.intents, i, fee) && ServiceFee(minted, fee.value.bps, fee.value.min) > 0;
    && |t.intents| == (if split then n + 1 else n) && (forall j :: 0 <= j < n && j != i ==> t.intents[j] == b.intents[j])
    && t.intents[i].status == (if approved then Approved else NeedsManual)
    && t.intents[i].feeHeld == (if cap.Some? then Some(observed - minted) else None)
    && (t.intents[i].beneficiary, t.intents[i].depositBacked, t.intents[i].txId, t.intents[i].feeFor)
       == (x.beneficiary, x.depositBacked, x.txId, x.feeFor)
    && (if split then
          var taken := ServiceFee(minted, fee.value.bps, fee.value.min);
          && t.intents[i].amount == minted - taken && t.intents[i].serviceFee == taken
          && t.intents[n] == Intent(fee.value.address, taken, Approved, false, None, None, 0, Some(i))
        else t.intents[i].amount == minted && t.intents[i].serviceFee == x.serviceFee)
    && t.outbox == b.outbox + (if approved then {i} else {}) + (if split then {n} else {})
    && t.deposits == (if i in b.deposits then b.deposits else b.deposits[i := observed])
  }

  lemma ApproveLands(b: Books, i: nat, observed: int, approved: bool, cap: Option<int>, fee: Option<Fee>)
    requires i < |b.intents| && b.intents[i].status == Created
    ensures Landed(b, Approve(b, i, observed, approved, cap, if approved then fee else None), i, observed, approved, cap, fee)
  {
    hide ServiceFee, Lower, Capped;
    var x := b.intents[i];
    var minted := Capped(x.amount, cap);
    var held := if cap.Some? then Some(observed - minted) else None;
    var xs := b.intents[i := x.(status := if approved then Approved else NeedsManual, amount := minted, feeHeld := held)];
    assert Charged(xs, i, fee) == Charged(b.intents, i, fee) by {
      assert forall j :: 0 <= j < |xs| && j != i ==> xs[j] == b.intents[j];
    }
  }

  // ----- conservation ----------------------------------------------------------------------------

  /** The operator's mints taken out of intent `i`. */
  function FeeMints(xs: seq<Intent>, i: nat): int {
    if xs == [] then 0
    else FeeMints(xs[..|xs| - 1], i) + (if xs[|xs| - 1].feeFor == Some(i) then xs[|xs| - 1].amount else 0)
  }

  lemma {:induction false} NoFeeMints(xs: seq<Intent>, i: nat)
    requires forall j :: 0 <= j < |xs| ==> xs[j].feeFor != Some(i)
    ensures FeeMints(xs, i) == 0
  {
    if xs != [] {
      NoFeeMints(xs[..|xs| - 1], i);
    }
  }

  lemma {:induction false} SameFeeMints(xs: seq<Intent>, ys: seq<Intent>, i: nat)
    requires |xs| == |ys| && forall j :: 0 <= j < |xs| ==> xs[j].feeFor == ys[j].feeFor && (xs[j].feeFor.Some? ==> xs[j].amount == ys[j].amount)
    ensures FeeMints(xs, i) == FeeMints(ys, i)
  {
    if xs != [] {
      SameFeeMints(xs[..|xs| - 1], ys[..|ys| - 1], i);
    }
  }

  /** A deposit no fee was taken out of before. */
  ghost predicate Fresh(b: Books, i: nat) {
    && i < |b.intents| && b.intents[i].status == Created && b.intents[i].feeFor.None? && b.intents[i].serviceFee == 0
    && i !in b.deposits && forall j :: 0 <= j < |b.intents| ==> b.intents[j].feeFor != Some(i)
  }

  /** Whatever was proposed: the user's mint, the operator's, and what was held back are what arrived, and the
      user's share is not nothing. */
  lemma MintConservation(b: Books, i: nat, observed: int, cap: int, fee: Option<Fee>)
    requires Fresh(b, i) && b.intents[i].amount > 0 && 0 < cap <= observed
    ensures var t := Approve(b, i, observed, true, Some(cap), fee);
            && i < |t.intents| && t.intents[i].feeHeld.Some?
            && t.intents[i].amount + FeeMints(t.intents, i) + t.intents[i].feeHeld.value == observed == t.deposits[i]
            && t.intents[i].amount > 0 && t.intents[i].feeHeld.value >= 0
            && t.intents[i].feeHeld.value == observed - (if cap < b.intents[i].amount then cap else b.intents[i].amount)
            && FeeMints(t.intents, i) == t.intents[i].serviceFee
  {
    SplitAddsUp(b, i, observed, true, Some(cap), fee);
  }

  /** Split or not, the mints together are what the deposit alone would have minted. */
  lemma SplitAddsUp(b: Books, i: nat, observed: int, approved: bool, cap: Option<int>, fee: Option<Fee>)
    requires Fresh(b, i)
    ensures var t := Approve(b, i, observed, approved, cap, fee);
            && t.intents[i].amount + FeeMints(t.intents, i)
               == (if cap.Some? && cap.value < b.intents[i].amount then cap.value else b.intents[i].amount)
            && FeeMints(t.intents, i) == t.intents[i].serviceFee
            && (b.intents[i].amount > 0 && (cap.Some? ==> cap.value > 0) ==> t.intents[i].amount > 0)
  {
    var t, n := Approve(b, i, observed, approved, cap, fee), |b.intents|;
    assert t.intents[..n][..n] == t.intents[..n];
    NoFeeMints(t.intents[..n], i);
    if |t.intents| == n { assert t.intents[..n] == t.intents; }
  }

  /** A rerun finds the intent moved on, and does nothing. */
  lemma RerunChangesNothing(b: Books, i: nat, observed: int, approved: bool, cap: Option<int>, fee: Option<Fee>,
                            again: int, approvedAgain: bool, capAgain: Option<int>, feeAgain: Option<Fee>)
    ensures var t := Approve(b, i, observed, approved, cap, fee);
            i < |b.intents| ==> Approve(t, i, again, approvedAgain, capAgain, feeAgain) == t
  {
  }

  // ----- the books over any run ------------------------------------------------------------------

  /** The unique key on deposit transactions. */
  ghost predicate TxUnique(xs: seq<Intent>) {
    forall i, j :: 0 <= i < j < |xs| && xs[i].txId.Some? ==> xs[i].txId != xs[j].txId
  }

  /** A capped deposit that was verified is accounted for to the last unit. */
  predicate Accounted(b: Books, i: nat)
    requires i < |b.intents|
  {
    var x := b.intents[i];
    && (x.feeHeld.Some? ==>
          && i in b.deposits && x.amount > 0 && x.feeHeld.value >= 0
          && x.amount + FeeMints(b.intents, i) + x.feeHeld.value == b.deposits[i])
    && (i in b.deposits ==> x.txId.Some?)
    && (x.status == Created ==> x.feeHeld.None? && x.feeFor.None? && x.serviceFee == 0 && i !in b.deposits)
    && (x.feeFor.Some? ==> x.feeFor.value < |b.intents| && b.intents[x.feeFor.value].status != Created && x.status != Created)
    && x.amount > 0
  }

  ghost predicate Good(b: Books) {
    && TxUnique(b.intents) && (forall i: nat :: i < |b.intents| ==> Accounted(b, i))
    && (forall i :: i in b.deposits ==> i < |b.intents|)
  }

  lemma GoodIsFresh(b: Books, i: nat)
    requires Good(b) && i < |b.intents| && b.intents[i].status == Created
    ensures Fresh(b, i)
  {
    assert Accounted(b, i);
    forall j | 0 <= j < |b.intents| ensures b.intents[j].feeFor != Some(i) {
      assert Accounted(b, j);
    }
  }

  lemma ApproveKeepsOthers(b: Books, i: nat, observed: int, approved: bool, cap: Option<int>, fee: Option<Fee>, j: nat)
    requires Good(b) && i < |b.intents| && b.intents[i].status == Created && j < |b.intents| && j != i
    ensures var t := Approve(b, i, observed, approved, cap, fee);
            j < |t.intents| && t.intents[j] == b.intents[j] && FeeMints(t.intents, j) == FeeMints(b.intents, j)
  {
    var t, n := Approve(b, i, observed, approved, cap, fee), |b.intents|;
    assert Accounted(b, i);
    SameFeeMints(t.intents[..n], b.intents, j);
    if |t.intents| == n { assert t.intents[..n] == t.intents; } else { assert t.intents[..n + 1] == t.intents; }
  }

  lemma ApproveKeepsGood(b: Books, i: nat, observed: int, approved: bool, cap: Option<int>, fee: Option<Fee>)
    requires Good(b) && i < |b.intents| && b.intents[i].status == Created && b.intents[i].txId.Some?
    requires cap.Some? ==> 0 < cap.value <= observed
    ensures Good(Approve(b, i, observed, approved, cap, fee))
  {
    var t, n := Approve(b, i, observed, approved, cap, fee), |b.intents|;
    GoodIsFresh(b, i);
    SplitAddsUp(b, i, observed, approved, cap, fee);
    assert Accounted(b, i);
    forall j: nat | j < |t.intents| ensures Accounted(t, j) {
      if j == i {
      } else if j < n {
        assert Accounted(b, j);
        ApproveKeepsOthers(b, i, observed, approved, cap, fee, j);
      }
    }
  }

  /** A row's status and transaction change, and nothing it is accounted by. */
  lemma MarkKeepsGood(b: Books, i: nat, x: Intent)
    requires Good(b) && i < |b.intents| && TxUnique(b.intents[i := x])
    requires x == b.intents[i].(status := x.status, txId := x.txId) && (x.txId == b.intents[i].txId || b.intents[i].txId.None?)
    requires x.status == Created ==> b.intents[i].status == Created
    ensures Good(b.(intents := b.intents[i := x]))
  {
    var t := b.(intents := b.intents[i := x]);
    forall j: nat | j < |t.intents| ensures Accounted(t, j) {
      assert Accounted(b, j);
      SameFeeMints(t.intents, b.intents, j);
      if t.intents[j].feeFor.Some? { assert Accounted(b, i); }
    }
  }

  /** A new proposal. */
  lemma ProposeKeepsGood(b: Books, x: Intent)
    requires Good(b) && TxUnique(b.intents + [x]) && x.status == Created && x.amount > 0
    requires x.feeHeld.None? && x.feeFor.None? && x.serviceFee == 0
    ensures Good(b.(intents := b.intents + [x]))
  {
    var t, n := b.(intents := b.intents + [x]), |b.intents|;
    assert t.intents[..n] == b.intents;
    forall j: nat | j < |t.intents| ensures Accounted(t, j) {
      if j < n { assert Accounted(b, j); }
    }
  }

  class Verifier {
    const fee: Option<Fee>
    const settings: Settings
    var intents: seq<Intent>
    var outbox: set<nat>
    var deposits: map<nat, int>

    ghost function Rows(): Books
      reads this
    {
      Books(intents, outbox, deposits)
    }

    constructor (fee: Option<Fee>, settings: Settings)
      ensures Good(Rows()) && intents == [] && this.fee == fee && this.settings == settings
    {
      this.fee, this.settings, intents, outbox, deposits := fee, settings, [], {}, map[];
    }

    method Claimed(tx: string, except: nat) returns (taken: bool)
      ensures taken <==> exists j :: 0 <= j < |intents| && j != except && intents[j].txId == Some(tx)
    {
      var j := 0;
      while j < |intents|
        invariant j <= |intents| && forall k :: 0 <= k < j && k != except ==> intents[k].txId != Some(tx)
      {
        if j != except && intents[j].txId == Some(tx) { return true; }
        j := j + 1;
      }
      return false;
    }

    /** A mint is proposed, for a deposit or by hand. The unique key refuses a transaction named before. */
    method Propose(beneficiary: string, amount: int, depositBacked: bool, txId: Option<string>) returns (ok: bool)
      requires Good(Rows()) && amount > 0
      modifies this`intents
      ensures Good(Rows())
      ensures ok <==> txId.None? || forall j :: 0 <= j < |old(intents)| ==> old(intents)[j].txId != txId
      ensures intents == if ok then old(intents) + [Intent(beneficiary, amount, Created, depositBacked, txId, None, 0, None)] else old(intents)
    {
      if txId.Some? {
        var taken := Claimed(txId.value, |intents|);
        if taken { return false; }
      }
      var x := Intent(beneficiary, amount, Created, depositBacked, txId, None, 0, None);
      ProposeKeepsGood(Rows(), x);
      intents := intents + [x];
      return true;
    }

    /** Whether the user has had a verified deposit before. */
    method CountEarlier(i: nat) returns (had: bool)
      requires i < |intents|
      ensures had <==> HadOne(intents, i)
    {
      var j := 0;
      while j < |intents|
        invariant j <= |intents|
        invariant forall k :: 0 <= k < j ==> !(k != i && Lower(intents[k].beneficiary) == Lower(intents[i].beneficiary)
                                               && intents[k].depositBacked && Mints(intents[k].status))
      {
        if j != i && Lower(intents[j].beneficiary) == Lower(intents[i].beneficiary) && intents[j].depositBacked && Mints(intents[j].status) {
          return true;
        }
        j := j + 1;
      }
      return false;
    }

    /** The operator's fee, split off the approved mint. */
    method SplitOff(i: nat) returns (taken: int)
      requires i < |intents|
      modifies this`intents, this`outbox
      ensures taken == FeeOf(old(intents), i, fee)
      ensures if taken == 0 then intents == old(intents) && outbox == old(outbox)
              else fee.Some?
                   && intents == old(intents)[i := old(intents[i]).(amount := old(intents[i].amount) - taken, serviceFee := taken)]
                                 + [Intent(fee.value.address, taken, Approved, false, None, None, 0, Some(i))]
                   && outbox == old(outbox) + {|old(intents)|}
    {
      if fee.None? || Lower(intents[i].beneficiary) == fee.value.address { return 0; }
      var had := CountEarlier(i);
      if !had { return 0; }
      taken := ServiceFee(intents[i].amount, fee.value.bps, fee.value.min);
      if taken == 0 { return; }
      var id := |intents|;
      intents := intents[i := intents[i].(amount := intents[i].amount - taken, serviceFee := taken)];
      intents := intents + [Intent(fee.value.address, taken, Approved, false, None, None, 0, Some(i))];
      outbox := outbox + {id};
    }

    /** The approval, the fee, the outbox row and the ledger event: together, and once. */
    method ApproveAndLedger(i: nat, observed: int, approved: bool, cap: Option<int>) returns (done: bool)
      requires i < |intents|
      modifies this`intents, this`outbox, this`deposits
      ensures done <==> old(intents[i].status) == Created
      ensures Rows() == Approve(old(Rows()), i, observed, approved, cap, if approved then fee else None)
      ensures !done ==> Rows() == old(Rows())
      ensures done ==> Landed(old(Rows()), Rows(), i, observed, approved, cap, fee)
    {
      hide Landed, Charged, FeeOf;
      if intents[i].status != Created { return false; }
      ApproveLands(Rows(), i, observed, approved, cap, fee);
      var x := intents[i];
      var minted := Capped(x.amount, cap);
      intents := intents[i := x.(status := if approved then Approved else NeedsManual, amount := minted,
                                 feeHeld := if cap.Some? then Some(observed - minted) else None)];
      if approved {
        var taken := SplitOff(i);
        outbox := outbox + {i};
      }
      if i !in deposits {
        deposits := deposits[i := observed];
      }
      return true;
    }

    /** The transaction an intent is verified by. Losing it to another intent rejects this one. */
    method BackfillDepositTx(i: nat, tx: string) returns (ok: bool)
      requires Good(Rows()) && i < |intents| && intents[i].status == Created && intents[i].txId.None?
      modifies this`intents
      ensures Good(Rows()) && |intents| == |old(intents)|
      ensures ok <==> forall j :: 0 <= j < |old(intents)| && j != i ==> old(intents)[j].txId != Some(tx)
      ensures intents == old(intents)[i := if ok then old(intents[i]).(txId := Some(tx)) else old(intents[i]).(status := Rejected)]
    {
      var taken := Claimed(tx, i);
      var x := if taken then intents[i].(status := Rejected) else intents[i].(txId := Some(tx));
      MarkKeepsGood(Rows(), i, x);
      intents := intents[i := x];
      return !taken;
    }

    /** One intent with its evidence: what arrived, in which transaction, and how it came. */
    method VerifyOne(i: nat, tx: string, observed: int, source: Source)
      requires Good(Rows()) && i < |intents| && observed > 0
      requires intents[i].txId.Some? ==> intents[i].txId == Some(tx)
      modifies this`intents, this`outbox, this`deposits
      ensures Good(Rows()) && |intents| >= |old(intents)|
      ensures old(intents[i].status) != Created ==> Rows() == old(Rows())
      ensures intents[i].status == Approved && old(intents[i].status) == Created ==>
                && intents[i].txId == Some(tx) && i in deposits && deposits[i] == observed
                && VerdictOf(settings, source, observed).Approves?
      ensures old(intents[i].status) == Created && old(intents[i].txId).None?
              && (exists j :: 0 <= j < |old(intents)| && j != i && old(intents)[j].txId == Some(tx)) ==>
                intents == old(intents)[i := old(intents[i]).(status := Rejected)] && outbox == old(outbox) && deposits == old(deposits)
      ensures old(intents[i].status) == Created && old(intents[i].txId).None?
              && (forall j :: 0 <= j < |old(intents)| && j != i ==> old(intents)[j].txId != Some(tx)) ==>
                var named := Books(old(intents)[i := old(intents[i]).(txId := Some(tx))], old(outbox), old(deposits));
                match VerdictOf(settings, source, observed)
                case Approves(cap) => Landed(named, Rows(), i, observed, true, cap, fee)
                case Holds(most) => Landed(named, Rows(), i, observed, false, Some(most), fee)
                case Rejects => Rows() == named.(intents := named.intents[i := named.intents[i].(status := Rejected)])
                case Waits => Rows() == named
      ensures old(intents[i].status) == Created && old(intents[i].txId).Some? ==>
                match VerdictOf(settings, source, observed)
                case Approves(cap) => Landed(old(Rows()), Rows(), i, observed, true, cap, fee)
                case Holds(most) => Landed(old(Rows()), Rows(), i, observed, false, Some(most), fee)
                case Rejects => intents == old(intents)[i := old(intents[i]).(status := Rejected)] && outbox == old(outbox) && deposits == old(deposits)
                case Waits => Rows() == old(Rows())
    {
      hide Landed, VerdictOf, Accounted;
      var verdict := VerdictOf(settings, source, observed);
      if intents[i].status != Created { return; }
      if intents[i].txId.None? {
        var ok := BackfillDepositTx(i, tx);
        if !ok { return; }
      }
      GoodIsFresh(Rows(), i);
      if verdict.Approves? {
        ApproveKeepsGood(Rows(), i, observed, true, verdict.cap, fee);
        var done := ApproveAndLedger(i, observed, true, verdict.cap);
      } else if verdict.Holds? {
        ApproveKeepsGood(Rows(), i, observed, false, Some(verdict.most), None);
        var done := ApproveAndLedger(i, observed, false, Some(verdict.most));
      } else if verdict.Rejects? {
        MarkKeepsGood(Rows(), i, intents[i].(status := Rejected));
        intents := intents[i := intents[i].(status := Rejected)];
      }
    }
  }

  /** Two intents verified on a deposit were verified on two. */
  lemma OneTransactionOneIntent(b: Books, i: nat, j: nat)
    requires Good(b) && i != j && i in b.deposits && j in b.deposits
    ensures i < |b.intents| && j < |b.intents|
    ensures b.intents[i].txId.Some? && b.intents[j].txId.Some? && b.intents[i].txId != b.intents[j].txId
  {
    assert Accounted(b, i) && Accounted(b, j);
  }
}
