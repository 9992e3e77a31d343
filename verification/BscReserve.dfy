/**
 The BSC reserve: the pay-in address and every deposit address that still holds a verified deposit, each floored
 to micro-USDT.

 Deposits arrive, are recorded, and are swept whole at any time by anyone who asks the signer. The floored
 reserve covers the floored deposits at every moment, and a sweep never lowers it.
 */
module BscReserve {
  import opened Basics
  import opened BscUnits

  /** Where a row of the books stands: not there yet, waiting, with its mint submitted or credited (and
      swept from then on), or failed. */
  datatype RowState = Unrecorded | Waiting | Minting | Failed

  /** One deposit: the index it came to (none when it came to the pay-in address itself), where its USDT is now,
      and its row. */
  datatype Arrival = Arrival(home: Option<nat>, place: Option<nat>, value: nat, row: RowState, swept: bool)

  // ----- sums ------------------------------------------------------------------------------------

  /** The USDT of the deposits at one place. */
  function ValueAt(xs: seq<Arrival>, place: Option<nat>): nat {
    if xs == [] then 0
    else ValueAt(xs[..|xs| - 1], place) + (if xs[|xs| - 1].place == place then xs[|xs| - 1].value else 0)
  }

  predicate Backed(x: Arrival) {
    x.row == Waiting || x.row == Minting
  }

  /** What the books owe for the deposits at one place, each floored by itself. */
  function OwedAt(xs: seq<Arrival>, place: Option<nat>, unit: nat): nat
    requires unit > 0
  {
    if xs == [] then 0
    else
      var x := xs[|xs| - 1];
      OwedAt(xs[..|xs| - 1], place, unit) + (if Backed(x) && x.place == place then x.value / unit else 0)
  }

  /** What they owe for all of them. */
  function Owed(xs: seq<Arrival>, unit: nat): nat
    requires unit > 0
  {
    if xs == [] then 0
    else Owed(xs[..|xs| - 1], unit) + (if Backed(xs[|xs| - 1]) then xs[|xs| - 1].value / unit else 0)
  }

  function OwedBelow(xs: seq<Arrival>, n: nat, unit: nat): nat
    requires unit > 0
  {
    if n == 0 then 0 else OwedBelow(xs, n - 1, unit) + OwedAt(xs, Some(n - 1), unit)
  }

  /** An index with a verified deposit not marked swept. */
  predicate Listed(xs: seq<Arrival>, i: nat) {
    exists k :: 0 <= k < |xs| && Backed(xs[k]) && !xs[k].swept && xs[k].home == Some(i)
  }

  /** The floored balances of the listed indexes. */
  function ListedMicro(xs: seq<Arrival>, balances: seq<nat>, n: nat, unit: nat): nat
    requires unit > 0 && n <= |balances|
  {
    if n == 0 then 0
    else ListedMicro(xs, balances, n - 1, unit) + (if Listed(xs, n - 1) then balances[n - 1] / unit else 0)
  }

  /** What reconciliation reads. */
  function ReserveMicro(xs: seq<Arrival>, payIn: nat, balances: seq<nat>, unit: nat): nat
    requires unit > 0
  {
    payIn / unit + ListedMicro(xs, balances, |balances|, unit)
  }

  // ----- the books and the chain agree -----------------------------------------------------------

  ghost predicate Agrees(xs: seq<Arrival>, payIn: nat, balances: seq<nat>) {
    && payIn == ValueAt(xs, None)
    && (forall i :: 0 <= i < |balances| ==> balances[i] == ValueAt(xs, Some(i)))
    && (forall k :: 0 <= k < |xs| ==>
          && (xs[k].place.Some? ==> xs[k].home == xs[k].place)
          && (xs[k].home.Some? ==> xs[k].home.value < |balances|)
          && (xs[k].swept ==> xs[k].place == None))
  }

  lemma {:induction false} PartsFloorBelowTheWhole(xs: seq<Arrival>, place: Option<nat>, unit: nat)
    requires unit > 0
    ensures OwedAt(xs, place, unit) <= ValueAt(xs, place) / unit
  {
    if xs != [] {
      var n := |xs| - 1;
      PartsFloorBelowTheWhole(xs[..n], place, unit);
      FloorsAddUp(ValueAt(xs[..n], place), if xs[n].place == place then xs[n].value else 0, unit);
    }
  }

  lemma {:induction false} OwedBelowGrows(xs: seq<Arrival>, n: nat, unit: nat)
    requires unit > 0 && xs != []
    ensures var x := xs[|xs| - 1];
            OwedBelow(xs, n, unit) == OwedBelow(xs[..|xs| - 1], n, unit)
                                      + if Backed(x) && x.place.Some? && x.place.value < n then x.value / unit else 0
  {
    if n > 0 {
      OwedBelowGrows(xs, n - 1, unit);
    }
  }

  lemma {:induction false} NothingOwedOfNothing(n: nat, unit: nat)
    requires unit > 0
    ensures OwedBelow([], n, unit) == 0
  {
    if n > 0 {
      NothingOwedOfNothing(n - 1, unit);
    }
  }

  /** Every deposit is at one place. */
  lemma {:induction false} OwedByPlace(xs: seq<Arrival>, n: nat, unit: nat)
    requires unit > 0 && forall k :: 0 <= k < |xs| && xs[k].place.Some? ==> xs[k].place.value < n
    ensures Owed(xs, unit) == OwedAt(xs, None, unit) + OwedBelow(xs, n, unit)
  {
    if xs == [] {
      NothingOwedOfNothing(n, unit);
    } else {
      OwedByPlace(xs[..|xs| - 1], n, unit);
      OwedBelowGrows(xs, n, unit);
    }
  }

  lemma {:induction false} NothingOwedAt(xs: seq<Arrival>, place: Option<nat>, unit: nat)
    requires unit > 0 && forall k :: 0 <= k < |xs| ==> !(Backed(xs[k]) && xs[k].place == place)
    ensures OwedAt(xs, place, unit) == 0
  {
    if xs != [] {
      NothingOwedAt(xs[..|xs| - 1], place, unit);
    }
  }

  /** An index that is not listed holds nothing the books owe. */
  lemma {:induction false} ListedCovers(xs: seq<Arrival>, payIn: nat, balances: seq<nat>, n: nat, unit: nat)
    requires unit > 0 && Agrees(xs, payIn, balances) && n <= |balances|
    ensures OwedBelow(xs, n, unit) <= ListedMicro(xs, balances, n, unit)
  {
    if n > 0 {
      ListedCovers(xs, payIn, balances, n - 1, unit);
      if Listed(xs, n - 1) {
        PartsFloorBelowTheWhole(xs, Some(n - 1), unit);
      } else {
        NothingOwedAt(xs, Some(n - 1), unit);
      }
    }
  }

  /** The sum of the floored deposits is at most the floored reserve. */
  lemma FlooringNeverUnderReserves(xs: seq<Arrival>, payIn: nat, balances: seq<nat>, unit: nat)
    requires unit > 0 && Agrees(xs, payIn, balances)
    ensures Owed(xs, unit) <= ReserveMicro(xs, payIn, balances, unit)
  {
    assert forall k :: 0 <= k < |xs| && xs[k].place.Some? ==> xs[k].home.Some?;
    OwedByPlace(xs, |balances|, unit);
    PartsFloorBelowTheWhole(xs, None, unit);
    ListedCovers(xs, payIn, balances, |balances|, unit);
  }

  // ----- a sweep ---------------------------------------------------------------------------------

  /** The deposits after the whole balance of index `i` moved to the pay-in address. */
  function Moved(xs: seq<Arrival>, i: nat): (ys: seq<Arrival>)
    ensures |ys| == |xs|
    ensures forall k :: 0 <= k < |xs| ==> ys[k] == if xs[k].place == Some(i) then xs[k].(place := None) else xs[k]
  {
    if xs == [] then []
    else
      var x := xs[|xs| - 1];
      Moved(xs[..|xs| - 1], i) + [if x.place == Some(i) then x.(place := None) else x]
  }

  lemma {:induction false} MovedValues(xs: seq<Arrival>, i: nat, j: nat)
    ensures ValueAt(Moved(xs, i), None) == ValueAt(xs, None) + ValueAt(xs, Some(i))
    ensures ValueAt(Moved(xs, i), Some(j)) == if j == i then 0 else ValueAt(xs, Some(j))
  {
    if xs != [] {
      MovedValues(xs[..|xs| - 1], i, j);
      assert Moved(xs, i)[..|xs| - 1] == Moved(xs[..|xs| - 1], i);
    }
  }

  lemma MovedAgrees(xs: seq<Arrival>, payIn: nat, balances: seq<nat>, i: nat)
    requires Agrees(xs, payIn, balances) && i < |balances|
    ensures Agrees(Moved(xs, i), payIn + balances[i], balances[i := 0])
  {
    MovedValues(xs, i, i);
    forall j | 0 <= j < |balances| ensures balances[i := 0][j] == ValueAt(Moved(xs, i), Some(j)) {
      MovedValues(xs, i, j);
    }
  }

  lemma {:induction false} ListedMicroMoved(xs: seq<Arrival>, balances: seq<nat>, i: nat, n: nat, unit: nat)
    requires unit > 0 && n <= |balances| && i < |balances|
    ensures ListedMicro(Moved(xs, i), balances[i := 0], n, unit)
            == ListedMicro(xs, balances, n, unit) - if i < n && Listed(xs, i) then balances[i] / unit else 0
  {
    if n > 0 {
      ListedMicroMoved(xs, balances, i, n - 1, unit);
      SameListed(xs, i, n - 1);
    }
  }

  lemma SameListed(xs: seq<Arrival>, i: nat, j: nat)
    ensures Listed(Moved(xs, i), j) <==> Listed(xs, j)
  {
    if Listed(xs, j) {
      var k :| 0 <= k < |xs| && Backed(xs[k]) && !xs[k].swept && xs[k].home == Some(j);
      assert Backed(Moved(xs, i)[k]);
    }
    if Listed(Moved(xs, i), j) {
      var k :| 0 <= k < |xs| && Backed(Moved(xs, i)[k]) && !Moved(xs, i)[k].swept && Moved(xs, i)[k].home == Some(j);
      assert Backed(xs[k]);
    }
  }

  /** Whoever asked for it, and whatever else was at the address: a sweep never lowers the floored reserve. */
  lemma SweepNeverLowers(xs: seq<Arrival>, payIn: nat, balances: seq<nat>, i: nat, unit: nat)
    requires unit > 0 && i < |balances|
    ensures ReserveMicro(Moved(xs, i), payIn + balances[i], balances[i := 0], unit) >= ReserveMicro(xs, payIn, balances, unit)
  {
    ListedMicroMoved(xs, balances, i, |balances|, unit);
    FloorsAddUp(payIn, balances[i], unit);
  }

  lemma {:induction false} EmptyIndex(xs: seq<Arrival>, place: Option<nat>, k: nat)
    requires k < |xs| && (forall j :: 0 <= j < |xs| ==> xs[j].value > 0) && ValueAt(xs, place) == 0
    ensures xs[k].place != place
  {
    if k < |xs| - 1 {
      EmptyIndex(xs[..|xs| - 1], place, k);
    }
  }

  lemma NothingAt(xs: seq<Arrival>, payIn: nat, balances: seq<nat>, i: nat)
    requires Agrees(xs, payIn, balances) && (forall k :: 0 <= k < |xs| ==> xs[k].value > 0) && i < |balances| && balances[i] == 0
    ensures forall k :: 0 <= k < |xs| ==> xs[k].place != Some(i)
  {
    forall k | 0 <= k < |xs| ensures xs[k].place != Some(i) { EmptyIndex(xs, Some(i), k); }
  }

  lemma {:induction false} OneMoreAt(xs: seq<Arrival>, x: Arrival, place: Option<nat>)
    ensures ValueAt(xs + [x], place) == ValueAt(xs, place) + if x.place == place then x.value else 0
  {
    assert (xs + [x])[..|xs|] == xs;
  }

  /** Rows change, the USDT does not move. */
  lemma {:induction false} SamePlaces(xs: seq<Arrival>, ys: seq<Arrival>, place: Option<nat>)
    requires |xs| == |ys| && forall k :: 0 <= k < |xs| ==> xs[k].place == ys[k].place && xs[k].value == ys[k].value
    ensures ValueAt(xs, place) == ValueAt(ys, place)
  {
    if xs != [] {
      SamePlaces(xs[..|xs| - 1], ys[..|ys| - 1], place);
    }
  }

  lemma RowsAgree(xs: seq<Arrival>, ys: seq<Arrival>, payIn: nat, balances: seq<nat>)
    requires Agrees(xs, payIn, balances) && |xs| == |ys|
    requires forall k :: 0 <= k < |xs| ==> xs[k].place == ys[k].place && xs[k].value == ys[k].value && xs[k].home == ys[k].home
                                           && (ys[k].swept ==> ys[k].place == None)
    ensures Agrees(ys, payIn, balances)
  {
    SamePlaces(xs, ys, None);
    forall i | 0 <= i < |balances| ensures balances[i] == ValueAt(ys, Some(i)) {
      SamePlaces(xs, ys, Some(i));
    }
  }

  // ----- the pass --------------------------------------------------------------------------------

  /** What the signer does when it is asked: it sends the balance, and says so or is not heard; it has something under
      way; its gas account is empty; or it fails before it sends anything. */
  datatype Answer = Sends | Unheard | Waits | Dry | Fails

  datatype Reply = Swept | NothingToSweep | NotYet | GasAccountDry | Refused

  /** The balance leaves the index. */
  predicate Leaves(answer: Answer, balance: nat) {
    balance > 0 && (answer == Sends || answer == Unheard)
  }

  /** The signer says that nothing is left at the index. */
  predicate Clears(answer: Answer, balance: nat) {
    if balance == 0 then answer != Fails else answer == Sends
  }

  datatype Group = Group(index: nat, ids: seq<nat>)

  predicate Unswept(x: Arrival) {
    x.home.Some? && x.row == Minting && !x.swept
  }

  /** All the unswept rows of one index, the oldest first. */
  ghost predicate GroupIs(xs: seq<Arrival>, group: Group) {
    && group.ids != [] && (forall k :: k in group.ids ==> group.ids[0] <= k)
    && (forall k: nat :: k in group.ids <==> k < |xs| && Unswept(xs[k]) && xs[k].home == Some(group.index))
  }

  /** The groups are in the order of their oldest rows, one an index. */
  ghost predicate InOrder(groups: seq<Group>) {
    forall a, b :: 0 <= a < b < |groups| ==>
      && groups[a].index != groups[b].index
      && groups[a].ids != [] && groups[b].ids != [] && groups[a].ids[0] < groups[b].ids[0]
  }

  /** Every unswept row is in the group of its index. */
  ghost predicate Grouped(xs: seq<Arrival>, groups: seq<Group>) {
    && (forall g :: 0 <= g < |groups| ==> GroupIs(xs, groups[g])) && InOrder(groups)
    && (forall k :: 0 <= k < |xs| && Unswept(xs[k]) ==> Asked(groups, |groups|, xs[k].home.value))
  }

  /** How many groups a pass asks about: all of them, unless the gas account is found empty. */
  ghost predicate AsksThrough(groups: seq<Group>, n: nat, answers: seq<Answer>, balances: seq<nat>)
    requires |answers| == |balances|
  {
    && n <= |groups| && (forall g :: 0 <= g < |groups| ==> groups[g].index < |balances|)
    && (forall g :: 0 <= g < n - 1 ==> !DriesUp(answers[groups[g].index], balances[groups[g].index]))
    && (n < |groups| ==> n > 0 && DriesUp(answers[groups[n - 1].index], balances[groups[n - 1].index]))
  }

  predicate DriesUp(answer: Answer, balance: nat) {
    answer == Dry && balance > 0
  }

  /** `i` is the index of one of the first `n` groups. */
  predicate Asked(groups: seq<Group>, n: nat, i: nat) {
    exists g :: 0 <= g < n && g < |groups| && groups[g].index == i
  }

  /** The row after a pass: marked exactly when its index was asked about and found clear, and the mark was written; moved
      exactly when the balance of its index left. */
  ghost predicate RowAfter(x: Arrival, y: Arrival, groups: seq<Group>, n: nat, answers: seq<Answer>, balances: seq<nat>, unmarked: set<nat>)
    requires |answers| == |balances|
  {
    && y == x.(place := y.place, swept := y.swept)
    && (y.place == if x.place.Some? && x.place.value < |balances| && Asked(groups, n, x.place.value)
                      && Leaves(answers[x.place.value], balances[x.place.value]) then None else x.place)
    && (y.swept <==> x.swept || (Unswept(x) && x.home.value < |balances| && Asked(groups, n, x.home.value)
                                 && Clears(answers[x.home.value], balances[x.home.value]) && x.home.value !in unmarked))
  }

  lemma PassesBy(xs: seq<Arrival>, groups: seq<Group>, x: Arrival)
    requires Grouped(xs, groups) && !Unswept(x)
    ensures Grouped(xs + [x], groups)
  {
    forall g | 0 <= g < |groups| ensures GroupIs(xs + [x], groups[g]) {
      assert GroupIs(xs, groups[g]);
    }
  }

  lemma JoinsGroup(xs: seq<Arrival>, groups: seq<Group>, x: Arrival, g: nat)
    requires Grouped(xs, groups) && Unswept(x) && g < |groups| && groups[g].index == x.home.value
    ensures Grouped(xs + [x], groups[g := Group(x.home.value, groups[g].ids + [|xs|])])
  {
    var joined := Group(x.home.value, groups[g].ids + [|xs|]);
    var more := groups[g := joined];
    forall a | 0 <= a < |more| ensures GroupIs(xs + [x], more[a]) {
      assert GroupIs(xs, groups[a]) && groups[a].ids[0] in groups[a].ids;
      assert a != g ==> groups[a].index != x.home.value;
    }
    forall k | 0 <= k < |xs + [x]| && Unswept((xs + [x])[k]) ensures Asked(more, |more|, (xs + [x])[k].home.value) {
      if k < |xs| {
        var a :| 0 <= a < |groups| && groups[a].index == xs[k].home.value;
        assert more[a].index == xs[k].home.value;
      } else {
        assert more[g].index == x.home.value;
      }
    }
  }

  lemma OpensGroup(xs: seq<Arrival>, groups: seq<Group>, x: Arrival)
    requires Grouped(xs, groups) && Unswept(x) && forall g :: 0 <= g < |groups| ==> groups[g].index != x.home.value
    ensures Grouped(xs + [x], groups + [Group(x.home.value, [|xs|])])
  {
    var more := groups + [Group(x.home.value, [|xs|])];
    forall a | 0 <= a < |more| ensures GroupIs(xs + [x], more[a]) {
      if a < |groups| {
        assert GroupIs(xs, groups[a]);
      } else {
        OnlyInItsGroup(xs, groups, x);
      }
    }
    forall a, b | 0 <= a < b < |more| ensures more[a].index != more[b].index && more[a].ids != [] && more[a].ids[0] < more[b].ids[0] {
      assert GroupIs(xs, groups[a]) && groups[a].ids[0] in groups[a].ids;
    }
    forall k | 0 <= k < |xs + [x]| && Unswept((xs + [x])[k]) ensures Asked(more, |more|, (xs + [x])[k].home.value) {
      if k < |xs| {
        var a :| 0 <= a < |groups| && groups[a].index == xs[k].home.value;
        assert more[a].index == xs[k].home.value;
      } else {
        assert more[|groups|].index == x.home.value;
      }
    }
  }

  lemma OnlyInItsGroup(xs: seq<Arrival>, groups: seq<Group>, x: Arrival)
    requires Grouped(xs, groups) && Unswept(x) && forall g :: 0 <= g < |groups| ==> groups[g].index != x.home.value
    ensures forall k :: 0 <= k < |xs| ==> !(Unswept(xs[k]) && xs[k].home == x.home)
  {
    forall k | 0 <= k < |xs| && Unswept(xs[k]) ensures xs[k].home != x.home {
      assert Asked(groups, |groups|, xs[k].home.value);
    }
  }

  lemma GroupsHaveIndexes(xs: seq<Arrival>, payIn: nat, balances: seq<nat>, groups: seq<Group>)
    requires Agrees(xs, payIn, balances) && Grouped(xs, groups)
    ensures forall g :: 0 <= g < |groups| ==> groups[g].index < |balances| && GroupIs(xs, groups[g]) && !Asked(groups, g, groups[g].index)
  {
    forall g | 0 <= g < |groups| ensures groups[g].index < |balances| {
      assert GroupIs(xs, groups[g]) && groups[g].ids[0] in groups[g].ids;
    }
  }

  lemma NothingAsked(x: Arrival, groups: seq<Group>, answers: seq<Answer>, balances: seq<nat>, unmarked: set<nat>)
    requires |answers| == |balances|
    ensures RowAfter(x, x, groups, 0, answers, balances, unmarked)
  {
  }

  /** One more index asked about. */
  lemma AsksOneMore(x: Arrival, y: Arrival, z: Arrival, groups: seq<Group>, n: nat, answers: seq<Answer>, balances: seq<nat>, unmarked: set<nat>)
    requires |answers| == |balances| && n < |groups| && groups[n].index < |balances| && !Asked(groups, n, groups[n].index)
    requires RowAfter(x, y, groups, n, answers, balances, unmarked)
    requires var i := groups[n].index;
             && z == y.(place := z.place, swept := z.swept)
             && z.place == (if Leaves(answers[i], balances[i]) && y.place == Some(i) then None else y.place)
             && (z.swept <==> y.swept || (Unswept(x) && x.home == Some(i) && Clears(answers[i], balances[i]) && i !in unmarked))
    ensures RowAfter(x, z, groups, n + 1, answers, balances, unmarked)
  {
    assert forall i :: Asked(groups, n + 1, i) <==> Asked(groups, n, i) || i == groups[n].index by {
      assert Asked(groups, n + 1, groups[n].index) by { assert groups[n].index == groups[n].index; }
    }
  }

  class BscRail {
    const unit: nat
    var payIn: nat
    var balances: seq<nat>
    var arrivals: seq<Arrival>

    ghost predicate Valid()
      reads this
    {
      unit > 0 && Agrees(arrivals, payIn, balances) && forall k :: 0 <= k < |arrivals| ==> arrivals[k].value > 0
    }

    constructor (unit: nat, n: nat)
      requires unit > 0
      ensures Valid() && arrivals == [] && |balances| == n && this.unit == unit
    {
      this.unit, payIn, balances, arrivals := unit, 0, seq(n, _ => 0), [];
    }

    /** USDT arrives at an index, or at the pay-in address itself. */
    method Arrive(home: Option<nat>, value: nat)
      requires Valid() && value > 0 && (home.Some? ==> home.value < |balances|)
      modifies this`payIn, this`balances, this`arrivals
      ensures Valid() && |balances| == |old(balances)|
      ensures arrivals == old(arrivals) + [Arrival(home, home, value, Unrecorded, false)]
    {
      var x := Arrival(home, home, value, Unrecorded, false);
      forall place ensures ValueAt(arrivals + [x], place) == ValueAt(arrivals, place) + if place == home then value else 0 {
        OneMoreAt(arrivals, x, place);
      }
      if home.Some? {
        balances := balances[home.value := balances[home.value] + value];
      } else {
        payIn := payIn + value;
      }
      arrivals := arrivals + [x];
    }

    /** The verifier or the pipeline moves a deposit's row. */
    method SetRow(k: nat, row: RowState)
      requires Valid() && k < |arrivals|
      modifies this`arrivals
      ensures Valid() && arrivals == old(arrivals)[k := old(arrivals[k]).(row := row)]
    {
      var rows := arrivals[k := arrivals[k].(row := row)];
      RowsAgree(arrivals, rows, payIn, balances);
      arrivals := rows;
    }

    /** The signer, asked for one index by anyone: it sends the whole balance, or nothing. */
    method SignerSweep(i: nat, answer: Answer) returns (reply: Reply)
      requires Valid() && i < |balances|
      modifies this`payIn, this`balances, this`arrivals
      ensures Valid()
      ensures reply.Refused? <==> answer.Fails?
      ensures reply.NothingToSweep? <==> !answer.Fails? && old(balances)[i] == 0
      ensures reply.Swept? <==> answer.Sends? && old(balances)[i] > 0
      ensures reply.GasAccountDry? <==> answer.Dry? && old(balances)[i] > 0
      ensures balances == (if Leaves(answer, old(balances)[i]) then old(balances)[i := 0] else old(balances))
      ensures payIn == old(payIn) + (if Leaves(answer, old(balances)[i]) then old(balances)[i] else 0)
      ensures |arrivals| == |old(arrivals)| && forall k :: 0 <= k < |arrivals| ==>
                arrivals[k] == if Leaves(answer, old(balances)[i]) && old(arrivals)[k].place == Some(i)
                               then old(arrivals)[k].(place := None) else old(arrivals)[k]
      ensures reply.Swept? || reply.NothingToSweep? ==> forall k :: 0 <= k < |arrivals| ==> arrivals[k].place != Some(i)
      ensures ReserveMicro(arrivals, payIn, balances, unit) >= old(ReserveMicro(arrivals, payIn, balances, unit))
    {
      hide Agrees, ReserveMicro;
      if answer.Fails? { return Refused; }
      if balances[i] == 0 {
        NothingAt(arrivals, payIn, balances, i);
        return NothingToSweep;
      }
      if answer.Waits? { return NotYet; }
      if answer.Dry? { return GasAccountDry; }
      SweepNeverLowers(arrivals, payIn, balances, i, unit);
      MovedAgrees(arrivals, payIn, balances, i);
      payIn, balances, arrivals := payIn + balances[i], balances[i := 0], Moved(arrivals, i);
      return if answer.Sends? then Swept else NotYet;
    }

    method MarkSwept(ids: seq<nat>)
      requires Valid() && forall j :: 0 <= j < |ids| ==> ids[j] < |arrivals| && arrivals[ids[j]].place == None
      modifies this`arrivals
      ensures Valid() && |arrivals| == |old(arrivals)|
      ensures forall k :: 0 <= k < |arrivals| ==> arrivals[k] == old(arrivals[k]).(swept := old(arrivals[k].swept) || k in ids)
    {
      var j := 0;
      while j < |ids|
        invariant j <= |ids| && Valid() && |arrivals| == |old(arrivals)|
        invariant forall k :: 0 <= k < |arrivals| ==> arrivals[k] == old(arrivals[k]).(swept := old(arrivals[k].swept) || k in ids[..j])
      {
        var k := ids[j];
        var rows := arrivals[k := arrivals[k].(swept := true)];
        RowsAgree(arrivals, rows, payIn, balances);
        arrivals := rows;
        assert ids[..j + 1] == ids[..j] + [k];
        j := j + 1;
      }
      assert ids[..j] == ids;
    }

    /** The unswept rows grouped by index, in the order of their oldest. */
    method ByIndex() returns (groups: seq<Group>)
      ensures Grouped(arrivals, groups)
    {
      groups := [];
      var k := 0;
      while k < |arrivals|
        invariant k <= |arrivals| && Grouped(arrivals[..k], groups)
      {
        var x := arrivals[k];
        assert arrivals[..k + 1] == arrivals[..k] + [x];
        if Unswept(x) {
          var g := 0;
          while g < |groups| && groups[g].index != x.home.value
            invariant g <= |groups| && forall a :: 0 <= a < g ==> groups[a].index != x.home.value
          {
            g := g + 1;
          }
          if g < |groups| {
            JoinsGroup(arrivals[..k], groups, x, g);
            groups := groups[g := Group(x.home.value, groups[g].ids + [k])];
          } else {
            OpensGroup(arrivals[..k], groups, x);
            groups := groups + [Group(x.home.value, [k])];
          }
        } else {
          PassesBy(arrivals[..k], groups, x);
        }
        k := k + 1;
      }
      assert arrivals[..k] == arrivals;
    }

    /** One pass over the unswept deposits, until the gas account is empty. `unmarked` are the indexes whose marks are not
        written. What is marked swept is at the pay-in address: that is `Valid`. */
    method SweepPass(answers: seq<Answer>, unmarked: set<nat>) returns (groups: seq<Group>, n: nat)
      requires Valid() && |answers| == |balances|
      modifies this`payIn, this`balances, this`arrivals
      ensures Valid() && |balances| == |old(balances)| && |arrivals| == |old(arrivals)|
      ensures Grouped(old(arrivals), groups) && AsksThrough(groups, n, answers, old(balances))
      ensures forall k :: 0 <= k < |arrivals| ==> RowAfter(old(arrivals)[k], arrivals[k], groups, n, answers, old(balances), unmarked)
      ensures forall k :: 0 <= k < |arrivals| && arrivals[k].swept ==> arrivals[k].place == None
    {
      hide RowAfter, GroupIs, DriesUp, Grouped;
      groups := ByIndex();
      n := 0;
      forall x ensures RowAfter(x, x, groups, 0, answers, balances, unmarked) {
        NothingAsked(x, groups, answers, balances, unmarked);
      }
      GroupsHaveIndexes(arrivals, payIn, balances, groups);
      while n < |groups|
        invariant n <= |groups| && Valid() && |balances| == |old(balances)| && |arrivals| == |old(arrivals)|
        invariant forall g :: 0 <= g < n ==> !DriesUp(answers[groups[g].index], old(balances)[groups[g].index])
        invariant forall k :: 0 <= k < |arrivals| ==> RowAfter(old(arrivals)[k], arrivals[k], groups, n, answers, old(balances), unmarked)
        invariant forall i :: 0 <= i < |balances| && !Asked(groups, n, i) ==> balances[i] == old(balances)[i]
      {
        n := n + 1;
        var dry := AskAbout(groups, n - 1, answers, unmarked, old(arrivals), old(balances));
        if dry { break; }
      }
    }

    method AskAbout(groups: seq<Group>, n: nat, answers: seq<Answer>, unmarked: set<nat>, ghost xs: seq<Arrival>, ghost was: seq<nat>)
      returns (dry: bool)
      requires Valid() && n < |groups| && |answers| == |balances| == |was| && |xs| == |arrivals|
      requires groups[n].index < |was| && GroupIs(xs, groups[n]) && !Asked(groups, n, groups[n].index)
      requires forall k :: 0 <= k < |xs| ==> RowAfter(xs[k], arrivals[k], groups, n, answers, was, unmarked)
      requires balances[groups[n].index] == was[groups[n].index]
      modifies this`payIn, this`balances, this`arrivals
      ensures Valid() && |balances| == |was| && |arrivals| == |xs|
      ensures dry <==> DriesUp(answers[groups[n].index], was[groups[n].index])
      ensures forall k :: 0 <= k < |xs| ==> RowAfter(xs[k], arrivals[k], groups, n + 1, answers, was, unmarked)
      ensures forall i :: 0 <= i < |was| && i != groups[n].index ==> balances[i] == old(balances)[i]
    {
      var group := groups[n];
      var reply := SignerSweep(group.index, answers[group.index]);
      if (reply.Swept? || reply.NothingToSweep?) && group.index !in unmarked {
        assert forall j :: 0 <= j < |group.ids| ==> group.ids[j] in group.ids;
        MarkSwept(group.ids);
      }
      forall k | 0 <= k < |xs| ensures RowAfter(xs[k], arrivals[k], groups, n + 1, answers, was, unmarked) {
        AsksOneMore(xs[k], old(arrivals)[k], arrivals[k], groups, n, answers, was, unmarked);
      }
      return reply.GasAccountDry?;
    }

    /** The reserve as reconciliation reads it: the pay-in address, then each listed address once. */
    method ReadReserve() returns (total: Option<nat>)
      requires Valid()
      ensures total.Some? ==> total.value == ReserveMicro(arrivals, payIn, balances, unit) >= Owed(arrivals, unit)
      ensures total.Some? <==> ReserveMicro(arrivals, payIn, balances, unit) <= I64_MAX
    {
      hide Agrees, Listed, Owed;
      FlooringNeverUnderReserves(arrivals, payIn, balances, unit);
      if payIn / unit > I64_MAX { return None; }
      var sum, i := payIn / unit, 0;
      while i < |balances|
        invariant i <= |balances| && sum == payIn / unit + ListedMicro(arrivals, balances, i, unit) <= I64_MAX
      {
        ListedMicroGrows(arrivals, balances, i + 1, |balances|, unit);
        var listed := IsListed(i);
        if listed {
          var micro := balances[i] / unit;
          if micro > I64_MAX || sum + micro > I64_MAX { return None; }
          sum := sum + micro;
        }
        i := i + 1;
      }
      return Some(sum);
    }

    method IsListed(i: nat) returns (listed: bool)
      ensures listed <==> Listed(arrivals, i)
    {
      var k := 0;
      while k < |arrivals|
        invariant k <= |arrivals|
        invariant forall j :: 0 <= j < k ==> !(Backed(arrivals[j]) && !arrivals[j].swept && arrivals[j].home == Some(i))
      {
        if Backed(arrivals[k]) && !arrivals[k].swept && arrivals[k].home == Some(i) { return true; }
        k := k + 1;
      }
      return false;
    }
  }

  lemma {:induction false} ListedMicroGrows(xs: seq<Arrival>, balances: seq<nat>, m: nat, n: nat, unit: nat)
    requires unit > 0 && m <= n <= |balances|
    ensures ListedMicro(xs, balances, m, unit) <= ListedMicro(xs, balances, n, unit)
  {
    if m < n {
      ListedMicroGrows(xs, balances, m, n - 1, unit);
    }
  }
}
