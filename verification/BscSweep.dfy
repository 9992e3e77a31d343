/**
 Sweeping one BSC deposit address: the gas account sends it what its transfer may cost, then it sends its whole
 USDT balance. The node may answer anything, and either transaction may fail, be lost or not be mined in time.
 */
module BscSweep {
  import opened Basics
  import opened BscUnits

  const MAX_GAS_PRICE_WEI := 10_000_000_000
  const MAX_GAS_LIMIT := 150_000
  const FUND_GAS := 21_000
  const U64_MAX := 0xffff_ffff_ffff_ffff

  datatype Outcome =
    | Swept(amountMicro: nat)
    | NothingToSweep
    | Funded(wei: nat)
    | GasAccountDry(have: nat, need: nat)
    | Busy
    | NotMined
    | Refused
    | Reverted
    | Failed

  /** What the signer knows for sure sent nothing. */
  predicate SentNothing(o: Outcome) {
    o.NothingToSweep? || o.GasAccountDry? || o.Busy? || o.Refused?
  }

  /** What became of a transaction: refused or lost on the way, mined, mined and failed, or not mined yet. */
  datatype Fate = Lost | Succeeded | Undone | Unmined

  /** What the node says in one call, and what it does: whether it is on our chain, and whether the address and the gas
      account have something pending; the gas price and the estimate; what becomes of the two transactions, and the gas the
      transfer uses; and the USDT that arrives meanwhile. */
  datatype Node = Node(
    ours: bool, pending: bool, price: nat, estimate: nat, gasPending: bool,
    fund: Fate, transfer: Fate, used: nat, arrives: nat)

  /** A quarter over the estimate, in 64 bits. */
  function GasLimit(estimate: nat): (limit: nat)
    ensures estimate <= U64_MAX && limit <= MAX_GAS_LIMIT ==> estimate <= limit
    ensures estimate * 5 <= U64_MAX ==> limit * 4 <= estimate * 5 < limit * 4 + 4
  {
    Min(estimate * 5, U64_MAX) / 4
  }

  /** What the transfer may cost. */
  function Need(n: Node): nat {
    n.price * GasLimit(n.estimate)
  }

  /** There is something to send, nothing of the address is under way, and gas costs what it may. */
  predicate Goes(n: Node, decimals: nat, usdt: nat) {
    && n.ours && usdt > 0 && ToMicro(usdt, decimals).Some? && !n.pending
    && 1 <= n.price <= 10_000_000_000 && GasLimit(n.estimate) <= 150_000
  }

  /** The gas account has what is missing, and the gas of sending it. */
  predicate Affords(n: Node, wei: nat, gasWei: nat) {
    gasWei >= Need(n) - wei + n.price * 21_000
  }

  /** The top-up is sent. */
  predicate TopsUp(n: Node, decimals: nat, usdt: nat, wei: nat, gasWei: nat) {
    Goes(n, decimals, usdt) && wei < Need(n) && !n.gasPending && Affords(n, wei, gasWei)
  }

  /** The transfer is sent: the address had its gas, or was sent it. */
  predicate Sends(n: Node, decimals: nat, usdt: nat, wei: nat, gasWei: nat) {
    Goes(n, decimals, usdt) && (wei < Need(n) ==> TopsUp(n, decimals, usdt, wei, gasWei) && n.fund.Succeeded?)
  }

  lemma PriceTimes(price: nat, gas: nat, most: nat)
    requires price <= MAX_GAS_PRICE_WEI && gas <= most
    ensures price * gas <= MAX_GAS_PRICE_WEI * most
  {
    assert price * gas <= MAX_GAS_PRICE_WEI * gas by { assert (MAX_GAS_PRICE_WEI - price) * gas >= 0; }
    assert MAX_GAS_PRICE_WEI * gas <= MAX_GAS_PRICE_WEI * most by { assert MAX_GAS_PRICE_WEI * (most - gas) >= 0; }
  }

  /** What the gas account pays at most for one call. */
  lemma GasIsBounded(n: Node, decimals: nat, usdt: nat, wei: nat)
    requires Goes(n, decimals, usdt)
    ensures Need(n) - wei + n.price * FUND_GAS <= MAX_GAS_PRICE_WEI * (MAX_GAS_LIMIT + FUND_GAS)
  {
    PriceTimes(n.price, GasLimit(n.estimate), MAX_GAS_LIMIT);
    PriceTimes(n.price, FUND_GAS, FUND_GAS);
  }

  /** The two accounts and the pay-in address. USDT may arrive at the address at any time. */
  class Sweeper {
    const decimals: nat
    var gasWei: nat
    var wei: nat
    var usdt: nat
    var payIn: nat

    constructor (decimals: nat, gasWei: nat, wei: nat, usdt: nat, payIn: nat)
      ensures this.decimals == decimals && this.gasWei == gasWei && this.wei == wei && this.usdt == usdt && this.payIn == payIn
    {
      this.decimals, this.gasWei, this.wei, this.usdt, this.payIn := decimals, gasWei, wei, usdt, payIn;
    }

    /** The top-up: the gas account pays its value and `FUND_GAS` of gas if it succeeds, its gas alone if it does not, and
        nothing until it is mined. */
    method Fund(price: nat, topUp: nat, fate: Fate)
      requires gasWei >= topUp + price * FUND_GAS
      modifies this`gasWei, this`wei
      ensures wei == old(wei) + (if fate.Succeeded? then topUp else 0)
      ensures gasWei == old(gasWei) - (if fate.Succeeded? then topUp else 0)
                        - (if fate.Succeeded? || fate.Undone? then price * FUND_GAS else 0)
    {
      if fate.Succeeded? {
        gasWei, wei := gasWei - topUp - price * FUND_GAS, wei + topUp;
      } else if fate.Undone? {
        gasWei := gasWei - price * FUND_GAS;
      }
    }

    /** The transfer of `amount`, which the address pays the gas of. */
    method Transfer(price: nat, gas: nat, amount: nat, fate: Fate)
      requires wei >= price * gas && amount <= usdt
      modifies this`wei, this`usdt, this`payIn
      ensures payIn == old(payIn) + (if fate.Succeeded? then amount else 0)
      ensures usdt == old(usdt) - (if fate.Succeeded? then amount else 0)
      ensures wei == old(wei) - (if fate.Succeeded? || fate.Undone? then price * gas else 0)
    {
      if fate.Succeeded? {
        payIn, usdt := payIn + amount, usdt - amount;
      }
      if fate.Succeeded? || fate.Undone? {
        wei := wei - price * gas;
      }
    }

    /** One call, to its outcome. */
    method Sweep(n: Node) returns (o: Outcome)
      modifies this`gasWei, this`wei, this`usdt, this`payIn
      // which outcome it is
      ensures o.NothingToSweep? <==> n.ours && old(usdt) == 0
      ensures o.Busy? <==> (n.ours && old(usdt) > 0 && ToMicro(old(usdt), decimals).Some? && n.pending)
                           || (Goes(n, decimals, old(usdt)) && old(wei) < Need(n) && n.gasPending)
      ensures o.GasAccountDry? <==>
                Goes(n, decimals, old(usdt)) && old(wei) < Need(n) && !n.gasPending && !Affords(n, old(wei), old(gasWei))
      ensures o.Funded? <==> TopsUp(n, decimals, old(usdt), old(wei), old(gasWei)) && n.fund.Unmined?
      ensures o.Swept? <==> Sends(n, decimals, old(usdt), old(wei), old(gasWei)) && n.transfer.Succeeded?
      ensures o.NotMined? <==> Sends(n, decimals, old(usdt), old(wei), old(gasWei)) && n.transfer.Unmined?
      ensures o.Reverted? <==> (TopsUp(n, decimals, old(usdt), old(wei), old(gasWei)) && n.fund.Undone?)
                               || (Sends(n, decimals, old(usdt), old(wei), old(gasWei)) && n.transfer.Undone?)
      ensures o.Failed? <==> (TopsUp(n, decimals, old(usdt), old(wei), old(gasWei)) && n.fund.Lost?)
                             || (Sends(n, decimals, old(usdt), old(wei), old(gasWei)) && n.transfer.Lost?)
      // what it says
      ensures o.Swept? ==> ToMicro(old(usdt), decimals) == Some(o.amountMicro)
      ensures o.Funded? ==> o.wei == Need(n) - old(wei)
      ensures o.GasAccountDry? ==> o.have == old(gasWei) && o.need == Need(n) - old(wei) + n.price * 21_000
      // the USDT: all of what was read, or none of it
      ensures payIn == old(payIn) + (if o.Swept? then old(usdt) else 0)
      ensures usdt == (if o.Swept? then 0 else old(usdt)) + (if Goes(n, decimals, old(usdt)) then n.arrives else 0)
      // the gas account and the address's own gas
      ensures SentNothing(o) ==> gasWei == old(gasWei) && wei == old(wei)
      ensures TopsUp(n, decimals, old(usdt), old(wei), old(gasWei)) && n.fund.Succeeded? ==>
                gasWei + (Need(n) - old(wei)) + n.price * 21_000 == old(gasWei)
      ensures o.Swept? ==> wei == (if old(wei) < Need(n) then Need(n) else old(wei)) - n.price * Min(n.used, GasLimit(n.estimate))
      ensures gasWei <= old(gasWei) <= gasWei + MAX_GAS_PRICE_WEI * (MAX_GAS_LIMIT + FUND_GAS)
    {
      if !n.ours { return Refused; }
      var balance := usdt;
      if balance == 0 { return NothingToSweep; }
      var micro := ToMicro(balance, decimals);
      if micro.None? { return Refused; }
      if n.pending { return Busy; }
      if n.price == 0 || n.price > MAX_GAS_PRICE_WEI { return Refused; }
      var limit := GasLimit(n.estimate);
      if limit > MAX_GAS_LIMIT { return Refused; }
      var need := n.price * limit;
      GasIsBounded(n, decimals, usdt, wei);
      // More USDT may arrive from here on: it is not part of what was read.
      usdt := usdt + n.arrives;
      if wei < need {
        if n.gasPending { return Busy; }
        var topUp := need - wei;
        if gasWei < topUp + n.price * FUND_GAS { return GasAccountDry(gasWei, topUp + n.price * FUND_GAS); }
        Fund(n.price, topUp, n.fund);
        if n.fund.Lost? { return Failed; }
        if n.fund.Undone? { return Reverted; }
        if n.fund.Unmined? { return Funded(topUp); }
        // Exactly what the transfer may cost.
        assert wei == need;
      }
      var gas := Min(n.used, limit);
      UsedIsPaid(n.price, gas, limit);
      Transfer(n.price, gas, balance, n.transfer);
      return match n.transfer
             case Lost => Failed
             case Succeeded => Swept(micro.value)
             case Undone => Reverted
             case Unmined => NotMined;
    }
  }

  lemma UsedIsPaid(price: nat, gas: nat, limit: nat)
    requires gas <= limit
    ensures price * gas <= price * limit
  {
    assert price * (limit - gas) >= 0;
  }
}
