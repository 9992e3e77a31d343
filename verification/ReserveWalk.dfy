/**
 The reserve is read one balance at a time while money moves.

 A walk that saw custody or a float change is refused. While they pay nothing out, one that is not refused never
 reports more than the accounts held together at one moment inside it, and exactly that when nothing arrives.
 */
module ReserveWalk {
  import opened Basics

  const I64_MAX := 0x7fff_ffff_ffff_ffff

  datatype Balances = Balances(custody: nat, floats: seq<nat>, addresses: seq<nat>)

  datatype Account = Custody | Float(f: nat) | Address(a: nat)

  /** Money arrives from outside, or a sweep takes it from an address to custody or a float, and a fee with it. */
  datatype Move = Deposit(to: Account, value: nat) | Collect(from: nat, to: Account, value: nat, fee: nat)

  function Add(b: Balances, to: Account, value: nat): Option<Balances> {
    match to
    case Custody => Some(b.(custody := b.custody + value))
    case Float(f) => if f < |b.floats| then Some(b.(floats := b.floats[f := b.floats[f] + value])) else None
    case Address(a) => if a < |b.addresses| then Some(b.(addresses := b.addresses[a := b.addresses[a] + value])) else None
  }

  function Apply(b: Balances, m: Move): Option<Balances> {
    match m
    case Deposit(to, value) => if value > 0 then Add(b, to, value) else None
    case Collect(from, to, value, fee) =>
      if value > 0 && from < |b.addresses| && value + fee <= b.addresses[from] && !to.Address? then
        Add(b.(addresses := b.addresses[from := b.addresses[from] - value - fee]), to, value)
      else None
  }

  /** Each moment follows from the one before by one move. */
  ghost predicate History(h: seq<Balances>, ms: seq<Move>) {
    |h| == |ms| + 1 && forall i :: 0 <= i < |ms| ==> Apply(h[i], ms[i]) == Some(h[i + 1])
  }

  ghost predicate Below(x: seq<nat>, y: seq<nat>) {
    |x| == |y| && forall i :: 0 <= i < |x| ==> x[i] <= y[i]
  }

  function Sum(xs: seq<nat>): nat {
    if xs == [] then 0 else Sum(xs[..|xs| - 1]) + xs[|xs| - 1]
  }

  function Together(b: Balances): nat {
    b.custody + Sum(b.floats) + Sum(b.addresses)
  }

  lemma {:induction false} SumBelow(x: seq<nat>, y: seq<nat>)
    requires Below(x, y)
    ensures Sum(x) <= Sum(y) && (x == y ==> Sum(x) == Sum(y))
  {
    if x != [] {
      SumBelow(x[..|x| - 1], y[..|y| - 1]);
    }
  }

  /** Custody and the floats only grow. */
  lemma {:induction false} Grows(h: seq<Balances>, ms: seq<Move>, a: nat, b: nat)
    requires History(h, ms) && a <= b < |h|
    ensures h[a].custody <= h[b].custody && Below(h[a].floats, h[b].floats) && |h[a].addresses| == |h[b].addresses|
  {
    if a < b {
      Grows(h, ms, a, b - 1);
      assert Apply(h[b - 1], ms[b - 1]) == Some(h[b]);
    }
  }

  /** Where they end as they began, no address was emptied into them: the addresses only grew, and kept still
      when nothing arrived. */
  lemma {:induction false} NothingCollected(h: seq<Balances>, ms: seq<Move>, a: nat, b: nat)
    requires History(h, ms) && a <= b < |h| && h[a].custody == h[b].custody && h[a].floats == h[b].floats
    ensures Below(h[a].addresses, h[b].addresses)
    ensures (forall i :: a <= i < b ==> !ms[i].Deposit?) ==> h[a].addresses == h[b].addresses
  {
    if a < b {
      Grows(h, ms, a, b - 1);
      Grows(h, ms, b - 1, b);
      assert h[a].floats == h[b - 1].floats;
      NothingCollected(h, ms, a, b - 1);
      assert Apply(h[b - 1], ms[b - 1]) == Some(h[b]);
      LastMoveIsQuiet(h[b - 1], ms[b - 1], h[b]);
    }
  }

  lemma Differs(xs: seq<nat>, i: nat, value: nat)
    requires i < |xs| && value > 0
    ensures xs[i := xs[i] + value] != xs
  {
    assert xs[i := xs[i] + value][i] == xs[i] + value;
  }

  lemma LastMoveIsQuiet(x: Balances, m: Move, y: Balances)
    requires Apply(x, m) == Some(y) && x.custody == y.custody && x.floats == y.floats
    ensures m.Deposit? && Below(x.addresses, y.addresses)
  {
    if m.to.Float? {
      Differs(x.floats, m.to.f, m.value);
    }
  }

  function Saturating(x: int): int {
    Min(x, I64_MAX)
  }

  /** Custody and the floats have been as in `b` since the `from`-th moment. */
  ghost predicate StandsStill(h: seq<Balances>, from: int, b: Balances) {
    forall i :: 0 <= i < |h| && from <= i ==> h[i].custody == b.custody && h[i].floats == b.floats
  }

  lemma StillReads(h: seq<Balances>, from: int, b: Balances, floats: seq<nat>, at: seq<nat>)
    requires |floats| == |at| == |b.floats|
    requires forall i :: 0 <= i < |at| ==> from <= at[i] < |h| && |h[at[i]].floats| == |floats| && floats[i] == h[at[i]].floats[i]
    ensures StandsStill(h, from, b) ==> floats == b.floats
  {
  }

  class Reserve {
    var now: Balances
    ghost var history: seq<Balances>
    ghost var moves: seq<Move>

    ghost predicate Valid()
      reads this
    {
      History(history, moves) && history[|history| - 1] == now
    }

    constructor (custody: nat, floats: seq<nat>, addresses: seq<nat>)
      ensures Valid() && now == Balances(custody, floats, addresses)
    {
      now := Balances(custody, floats, addresses);
      history, moves := [Balances(custody, floats, addresses)], [];
    }

    /** Whatever happens between two reads. */
    method Meanwhile()
      requires Valid()
      modifies this
      ensures Valid() && old(history) <= history && old(moves) <= moves
      ensures |now.floats| == |old(now).floats| && |now.addresses| == |old(now).addresses|
    {
      var n: nat := *;
      while n > 0
        invariant Valid() && old(history) <= history && old(moves) <= moves
      {
        var m: Move := *;
        var after := Apply(now, m);
        if after.Some? {
          history, moves, now := history + [after.value], moves + [m], after.value;
        }
        n := n - 1;
      }
      Grows(history, moves, |old(history)| - 1, |history| - 1);
    }

    /** Each float's balance, in order. `at` is when each was read. */
    method FloatBalances() returns (floats: seq<nat>, ghost at: seq<nat>)
      requires Valid()
      modifies this
      ensures Valid() && old(history) <= history && old(moves) <= moves
      ensures |floats| == |at| == |now.floats| == |old(now.floats)| && |now.addresses| == |old(now.addresses)|
      ensures forall i :: 0 <= i < |at| ==> |old(history)| - 1 <= at[i] < |history|
      ensures forall i :: 0 <= i < |at| ==> |history[at[i]].floats| == |floats| && floats[i] == history[at[i]].floats[i]
    {
      floats, at := [], [];
      var n := |now.floats|;
      while |floats| < n
        invariant Valid() && old(history) <= history && old(moves) <= moves && |now.floats| == n && |now.addresses| == |old(now.addresses)|
        invariant |floats| == |at| <= n
        invariant forall i :: 0 <= i < |at| ==> |old(history)| - 1 <= at[i] < |history|
        invariant forall i :: 0 <= i < |at| ==> |history[at[i]].floats| == n && floats[i] == history[at[i]].floats[i]
      {
        Meanwhile();
        floats, at := floats + [now.floats[|floats|]], at + [|history| - 1];
      }
    }

    method AddressBalances(start: int) returns (total: int, ghost read: seq<nat>, ghost at: seq<nat>)
      requires Valid() && 0 <= start <= I64_MAX
      modifies this
      ensures Valid() && old(history) <= history && old(moves) <= moves
      ensures |read| == |at| == |now.addresses| == |old(now.addresses)| && |now.floats| == |old(now.floats)|
      ensures forall i :: 0 <= i < |at| ==> |old(history)| - 1 <= at[i] < |history|
      ensures forall i :: 0 <= i < |at| ==> |history[at[i]].addresses| == |read| && read[i] == history[at[i]].addresses[i]
      ensures total == Saturating(start + Sum(read))
    {
      total, read, at := start, [], [];
      var i, n := 0, |now.addresses|;
      while i < n
        invariant Valid() && old(history) <= history && old(moves) <= moves && |now.addresses| == n && |now.floats| == |old(now.floats)|
        invariant i == |read| == |at| <= n && total == Saturating(start + Sum(read))
        invariant forall j :: 0 <= j < i ==> |old(history)| - 1 <= at[j] < |history|
        invariant forall j :: 0 <= j < i ==> |history[at[j]].addresses| == n && read[j] == history[at[j]].addresses[j]
      {
        Meanwhile();
        var balance := now.addresses[i];
        assert (read + [balance])[..i] == read;
        total := Saturating(total + balance);
        read, at, i := read + [balance], at + [|history| - 1], i + 1;
      }
    }

    /** The walk. `moment` is where it stood when the last address had been read. */
    method GetReserveBalance() returns (r: Option<int>, ghost moment: nat)
      requires Valid()
      modifies this
      ensures Valid() && old(history) <= history && old(moves) <= moves
      ensures |old(history)| - 1 <= moment < |history|
      ensures r.Some? ==> r.value <= Together(history[moment])
      ensures (forall i :: |old(moves)| <= i < |moves| ==> !moves[i].Deposit?) ==>
                r.Some? ==> r.value == Saturating(Together(history[moment]))
      // and it is not refused while custody and the floats stand still
      ensures StandsStill(history, |old(history)| - 1, old(now)) ==> r.Some?
    {
      hide Apply, Sum, Below;
      Meanwhile();
      var main := now.custody;
      ghost var first := |history| - 1;
      var floats;
      ghost var floatsAt;
      floats, floatsAt := FloatBalances();
      ghost var begun := |history| - 1;
      var start := Saturating(main + Sum(floats));
      var total;
      ghost var read, readAt;
      total, read, readAt := AddressBalances(start);
      moment := |history| - 1;
      Meanwhile();
      var mainAfter := now.custody;
      ghost var last := |history| - 1;
      var floatsAfter;
      ghost var floatsAfterAt;
      floatsAfter, floatsAfterAt := FloatBalances();
      if mainAfter != main || floatsAfter != floats {
        assert history[first].custody == main && history[last].custody == mainAfter;
        StillReads(history, |old(history)| - 1, old(now), floats, floatsAt);
        StillReads(history, |old(history)| - 1, old(now), floatsAfter, floatsAfterAt);
        return None, moment;
      }
      CustodyStood(history, moves, first, begun, moment, last);
      FloatsStood(history, moves, floats, floatsAt, floatsAfterAt, begun, moment);
      AddressesGrew(history, moves, read, readAt, begun, moment);
      SumBelow(read, history[moment].addresses);
      return Some(total), moment;
    }
  }

  lemma CustodyStood(h: seq<Balances>, ms: seq<Move>, first: nat, begun: nat, moment: nat, last: nat)
    requires History(h, ms) && first <= begun <= moment <= last < |h| && h[first].custody == h[last].custody
    ensures h[begun].custody == h[moment].custody == h[first].custody
  {
    Grows(h, ms, first, begun);
    Grows(h, ms, begun, moment);
    Grows(h, ms, moment, last);
  }

  lemma FloatsStood(h: seq<Balances>, ms: seq<Move>, floats: seq<nat>, at: seq<nat>, after: seq<nat>, begun: nat, moment: nat)
    requires History(h, ms) && begun <= moment < |h| && |floats| == |at| == |after| == |h[begun].floats|
    requires forall i :: 0 <= i < |at| ==> at[i] <= begun && moment <= after[i] < |h|
    requires forall i :: 0 <= i < |at| ==> |h[at[i]].floats| == |floats| == |h[after[i]].floats|
                                           && h[at[i]].floats[i] == floats[i] == h[after[i]].floats[i]
    ensures h[begun].floats == floats == h[moment].floats
  {
    Grows(h, ms, begun, moment);
    forall i | 0 <= i < |floats| ensures h[begun].floats[i] == floats[i] == h[moment].floats[i] {
      Grows(h, ms, at[i], begun);
      Grows(h, ms, moment, after[i]);
    }
  }

  lemma AddressesGrew(h: seq<Balances>, ms: seq<Move>, read: seq<nat>, at: seq<nat>, begun: nat, moment: nat)
    requires History(h, ms) && begun <= moment < |h| && |read| == |at| == |h[moment].addresses|
    requires h[begun].custody == h[moment].custody && h[begun].floats == h[moment].floats
    requires forall i :: 0 <= i < |at| ==> begun <= at[i] <= moment && |h[at[i]].addresses| == |read| && h[at[i]].addresses[i] == read[i]
    ensures Below(read, h[moment].addresses)
    ensures (forall i :: begun <= i < moment ==> !ms[i].Deposit?) ==> read == h[moment].addresses
  {
    forall i | 0 <= i < |read|
      ensures read[i] <= h[moment].addresses[i]
      ensures (forall j :: begun <= j < moment ==> !ms[j].Deposit?) ==> read[i] == h[moment].addresses[i]
    {
      Grows(h, ms, begun, at[i]);
      Grows(h, ms, at[i], moment);
      assert h[at[i]].floats == h[moment].floats;
      NothingCollected(h, ms, at[i], moment);
    }
  }
}
