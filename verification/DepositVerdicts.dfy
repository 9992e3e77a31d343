/**
 What a verified deposit may do: be approved up to a cap, be held for a person, be rejected, or wait.

 The answer depends on where the USDT arrived and on what the treasury, the signer and its own settings say of that
 place. Nothing is approved on an address that the two services do not agree on, and no cap is above what arrived.
 */
module DepositVerdicts {
  import opened Basics
  import opened EvmTx
  import GasFreeRail

  datatype Verdict = Approves(cap: Option<int>) | Holds(most: int) | Rejects | Waits

  /** No cap is above what arrived, or nothing. */
  predicate CapOk(v: Verdict, observed: int) {
    match v
    case Approves(cap) => cap.Some? ==> 0 < cap.value <= observed
    case Holds(cap) => 0 < cap <= observed
    case _ => true
  }

  // ----- a GasFree account -----------------------------------------------------------------------

  /** What the signer answers for an index. */
  datatype Addresses = Addresses(plain: string, gasfree: Option<string>)

  /** A deposit address as the services see it: its index, the signer's addresses of that index, the account our own
      settings derive from the plain one, and whether the treasury has seen the account's first sweep. `None` is a
      question that was not answered. */
  datatype Place = Place(
    index: Option<nat>,
    address: string,
    signer: Option<Addresses>,
    ours: Option<string>,
    seen: Option<bool>)

  predicate IsPlain(p: Place) {
    p.index.Some? && p.signer.Some? && p.address == p.signer.value.plain
  }

  /** Both services put the GasFree account of the index at `ours`. */
  predicate Agreed(p: Place) {
    p.index.Some? && p.signer.Some? && !IsPlain(p) && p.ours.Some? && p.signer.value.gasfree == p.ours
  }

  /** The address is that account, and its record could be read. */
  predicate IsGasFree(p: Place) {
    Agreed(p) && Some(p.address) == p.ours && p.seen.Some?
  }

  function Hold(fees: GasFreeRail.Fees, seen: bool): nat {
    GasFreeRail.FeeToHold(seen, fees.activateMax, fees.transferMax)
  }

  /** A plain address mints as it is; a GasFree account holds the relay's fee back; an address its index does not lead
      to is rejected; and whatever is not known, or not agreed on, waits. */
  function GasFreeVerdict(fees: GasFreeRail.Fees, p: Place, observed: int): (v: Verdict)
    ensures CapOk(v, observed)
    ensures v == Approves(None) <==> IsPlain(p)
    ensures v.Approves? && v.cap.Some? <==>
            IsGasFree(p) && observed - Hold(fees, p.seen.value) >= Max(1, fees.minDeposit)
    ensures v.Holds? <==>
            IsGasFree(p) && 1 <= observed - Hold(fees, p.seen.value) < fees.minDeposit
    ensures v.Approves? && v.cap.Some? ==> v.cap.value + Hold(fees, p.seen.value) == observed
    ensures v.Holds? ==> v.most + Hold(fees, p.seen.value) == observed
    ensures v.Rejects? <==> Agreed(p) && (Some(p.address) != p.ours || (IsGasFree(p) && observed <= Hold(fees, p.seen.value)))
  {
    if p.index.None? || p.signer.None? then Waits
    else if p.address == p.signer.value.plain then Approves(None)
    else if p.ours.None? || p.signer.value.gasfree != p.ours then Waits
    else if p.address != p.ours.value then Rejects
    else if p.seen.None? then Waits
    else
      match GasFreeRail.DepositMintOf(observed, Hold(fees, p.seen.value), fees.minDeposit)
      case Mint(cap) => Approves(Some(cap))
      case BelowMinimum(cap) => Holds(cap)
      case NothingToMint => Rejects
  }

  // ----- a top-up from the user's own wallet -----------------------------------------------------

  /** On TRON: from none of the treasury's own addresses, and held below the minimum. `known` is whether the sender is
      one of the deposit addresses. */
  function DirectVerdict(own: set<string>, minDeposit: Option<int>, from: string, known: Option<bool>, observed: int): (v: Verdict)
    requires observed > 0
    ensures CapOk(v, observed)
    ensures v.Rejects? <==> from in own || known == Some(true)
    ensures v.Waits? <==> from !in own && known.None?
    ensures v.Holds? <==> from !in own && known == Some(false) && minDeposit.Some? && observed < minDeposit.value
    ensures (v.Approves? ==> v.cap == Some(observed)) && (v.Holds? ==> v.most == observed)
  {
    if from in own then Rejects
    else if known.None? then Waits
    else if known.value then Rejects
    else if minDeposit.Some? && observed < minDeposit.value then Holds(observed)
    else Approves(Some(observed))
  }

  /** `0x` and 40 hex digits in any case, in lower case. */
  function NormalizeAddress(a: string): (r: Option<string>)
    ensures r.Some? <==> |a| == 42 && (a[..2] == "0x" || a[..2] == "0X") && forall i :: 2 <= i < 42 ==> IsHex(a[i])
    ensures r.Some? ==> |r.value| == 42 && r.value[..2] == "0x" && forall i :: 2 <= i < 42 ==> r.value[i] == LowerChar(a[i])
  {
    if |a| == 42 && (a[..2] == "0x" || a[..2] == "0X") && forall i :: 2 <= i < 42 ==> IsHex(a[i])
    then Some("0x" + Lower(a[2..])) else None
  }

  /** One address has one normal form, however it is spelt. */
  lemma NormalizedAlike(a: string, b: string)
    requires NormalizeAddress(a).Some? && Lower(a) == Lower(b)
    ensures NormalizeAddress(b) == NormalizeAddress(a)
  {
    assert |a| == |b|;
    forall i | 0 <= i < |a| ensures LowerChar(a[i]) == LowerChar(b[i]) {
      assert Lower(a)[i] == Lower(b)[i];
    }
    assert a[0] == '0' && (a[1] == 'x' || a[1] == 'X');
    assert b[..2] == [b[0], b[1]] && "0x" == ['0', 'x'] && "0X" == ['0', 'X'];
    assert NormalizeAddress(b).Some?;
    assert NormalizeAddress(b).value == NormalizeAddress(a).value by {
      var x, y := NormalizeAddress(a).value, NormalizeAddress(b).value;
      assert x == x[..2] + x[2..] && y == y[..2] + y[2..];
      assert forall i :: 2 <= i < 42 ==> x[i] == y[i];
      assert x[2..] == y[2..];
    }
  }

  /** Who sent a BSC top-up; nobody, when what was recorded is no address. */
  function Sender(directFrom: Option<string>): Option<string> {
    if directFrom.None? then None else NormalizeAddress(directFrom.value)
  }

  /** On BSC: a deposit at the user's own address says whose it is; any other needs a sender that is not the pay-in
      address itself. What arrived is the cap, held below the minimum. */
  function BscVerdict(payIn: Option<string>, minDeposit: Option<int>, directFrom: Option<string>, address: Option<string>, observed: int): (v: Verdict)
    requires observed > 0
    ensures CapOk(v, observed) && !v.Waits?
    ensures v.Rejects? <==> (directFrom.Some? || address.None?) && (Sender(directFrom).None? || Sender(directFrom) == payIn)
    ensures v.Holds? <==> !v.Rejects? && minDeposit.Some? && observed < minDeposit.value
    ensures (v.Approves? ==> v.cap == Some(observed)) && (v.Holds? ==> v.most == observed)
  {
    var atAddress := directFrom.None? && address.Some?;
    if !atAddress && (Sender(directFrom).None? || Sender(directFrom) == payIn) then Rejects
    else if minDeposit.Some? && observed < minDeposit.value then Holds(observed)
    else Approves(Some(observed))
  }

  // ----- any deposit -----------------------------------------------------------------------------

  /** How a verified deposit came. */
  datatype Source =
    | Bsc(directFrom: Option<string>, address: Option<string>)
    | Direct(from: string, known: Option<bool>)
    | Derived(place: Place)

  /** The treasury's settings; the GasFree rail may be off. */
  datatype Settings = Settings(payIn: Option<string>, own: set<string>, gasfree: Option<GasFreeRail.Fees>)

  function MinDeposit(settings: Settings): Option<int> {
    if settings.gasfree.Some? then Some(settings.gasfree.value.minDeposit) else None
  }

  /** The verdict of its kind. Only with the GasFree rail off, or at a plain address, may a deposit mint what its
      intent says without a cap. */
  function VerdictOf(settings: Settings, source: Source, observed: int): (v: Verdict)
    requires observed > 0
    ensures CapOk(v, observed)
    ensures v == Approves(None) <==> source.Derived? && (settings.gasfree.None? || IsPlain(source.place))
    ensures !source.Derived? ==>
              && (v.Approves? ==> v.cap == Some(observed)) && (v.Holds? ==> v.most == observed)
              && (v.Holds? <==> !v.Rejects? && !v.Waits? && settings.gasfree.Some? && observed < settings.gasfree.value.minDeposit)
    ensures source.Bsc? ==>
              && !v.Waits?
              && (v.Rejects? <==> (source.directFrom.Some? || source.address.None?)
                                  && (Sender(source.directFrom).None? || Sender(source.directFrom) == settings.payIn))
    ensures source.Direct? ==>
              && (v.Rejects? <==> source.from in settings.own || source.known == Some(true))
              && (v.Waits? <==> source.from !in settings.own && source.known == None)
    ensures source.Derived? && settings.gasfree.Some? ==>
              var p, fees := source.place, settings.gasfree.value;
              && (v.Approves? && v.cap.Some? <==> IsGasFree(p) && observed - Hold(fees, p.seen.value) >= Max(1, fees.minDeposit))
              && (v.Holds? <==> IsGasFree(p) && 1 <= observed - Hold(fees, p.seen.value) < fees.minDeposit)
              && (v.Approves? && v.cap.Some? ==> v.cap.value + Hold(fees, p.seen.value) == observed)
              && (v.Holds? ==> v.most + Hold(fees, p.seen.value) == observed)
              && (v.Rejects? <==> Agreed(p) && (Some(p.address) != p.ours || (IsGasFree(p) && observed <= Hold(fees, p.seen.value))))
  {
    match source
    case Bsc(directFrom, address) => BscVerdict(settings.payIn, MinDeposit(settings), directFrom, address, observed)
    case Direct(from, known) => DirectVerdict(settings.own, MinDeposit(settings), from, known, observed)
    case Derived(place) =>
      if settings.gasfree.None? then Approves(None) else GasFreeVerdict(settings.gasfree.value, place, observed)
  }
}
