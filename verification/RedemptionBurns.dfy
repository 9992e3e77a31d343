/**
 What a burn decides: the watcher's other half.

 A redemption is owed because the chain burned exactly its amount, from its redeemer, against its reference. However
 often blocks are read again, that is a function of the confirmed chain: the first burn that names it decides.
 */
module RedemptionBurns {
  import opened Basics
  import MintPipeline

  // ----- the chain -------------------------------------------------------------------------------

  /** A burn may carry no reference, and an amount that does not fit reads as none. */
  datatype Tx = Burn(ref: Option<string>, amount: Option<nat>, from: string, hash: string) | Other

  predicate Names(t: Tx, ref: string) {
    t.Burn? && t.ref == Some(ref) && t.amount.Some?
  }

  /** The first burn that names `ref`. */
  function First(txs: seq<Tx>, ref: string): (r: Option<Tx>)
    ensures r.Some? ==> r.value in txs && Names(r.value, ref)
    ensures r.None? ==> forall t :: t in txs ==> !Names(t, ref)
  {
    if txs == [] then None
    else
      var n := |txs| - 1;
      var earlier := First(txs[..n], ref);
      if earlier.Some? then earlier else if Names(txs[n], ref) then Some(txs[n]) else None
  }

  function Flat(blocks: seq<seq<Tx>>): seq<Tx> {
    if blocks == [] then [] else Flat(blocks[..|blocks| - 1]) + blocks[|blocks| - 1]
  }

  /** The transactions of the first `h` blocks, and the first `k` of the next. */
  function Upto(blocks: seq<seq<Tx>>, h: nat, k: nat): seq<Tx>
    requires h <= |blocks| && (k > 0 ==> h < |blocks| && k <= |blocks[h]|)
  {
    Flat(blocks[..h]) + (if k > 0 then blocks[h][..k] else [])
  }

  function BurnOf(t: Tx): nat {
    if t.Burn? && t.ref.Some? && t.amount.Some? then t.amount.value else 0
  }

  function Burned(txs: seq<Tx>): nat {
    if txs == [] then 0 else Burned(txs[..|txs| - 1]) + BurnOf(txs[|txs| - 1])
  }

  // ----- redemptions -----------------------------------------------------------------------------

  datatype Status = Created | PayoutPending | PayoutSubmitted | Paid | Failed

  datatype Row = Row(redeemer: string, ref: string, amount: int, quote: int, status: Status, burnTx: Option<string>)

  /** In the hands of the payout protocol. */
  predicate Owed(s: Status) {
    s == PayoutPending || s == PayoutSubmitted || s == Paid
  }

  /** The sender, whatever the case of its address, and the amount are those of the redemption. */
  predicate Honours(row: Row, t: Tx)
    requires t.Burn? && t.amount.Some?
  {
    Lower(row.redeemer) == Lower(t.from) && row.amount == t.amount.value
  }

  /** What one burn makes of one redemption. */
  function After(row: Row, t: Tx): Row {
    if !Names(t, row.ref) || row.status != Created then row
    else if Honours(row, t) then row.(status := PayoutPending, burnTx := Some(t.hash))
    else row.(status := Failed)
  }

  /** A redemption stands where the first burn that names it puts it. */
  predicate Decided(row: Row, txs: seq<Tx>) {
    match First(txs, row.ref)
    case None => row.status == Created && row.burnTx == None
    case Some(t) =>
      if Honours(row, t) then Owed(row.status) && row.burnTx == Some(t.hash)
      else row.status == Failed && row.burnTx == None
  }

  /** An owed redemption has its burn among those read. */
  predicate Backed(row: Row, read: set<Tx>) {
    Owed(row.status) ==> exists t :: t in read && Names(t, row.ref) && Honours(row, t) && row.burnTx == Some(t.hash)
  }

  predicate DistinctRefs(rows: seq<Row>) {
    forall i, j :: 0 <= i < j < |rows| ==> rows[i].ref != rows[j].ref
  }

  /** Every owed redemption is booked once, at its amount, against a burn of its own. */
  ghost predicate BooksOk(rows: seq<Row>, redeemed: map<nat, int>, read: set<Tx>) {
    && DistinctRefs(rows)
    && (forall i: nat :: (i in redeemed <==> i < |rows| && Owed(rows[i].status))
                         && (i in redeemed ==> redeemed[i] == rows[i].amount))
    && (forall i :: 0 <= i < |rows| ==> Backed(rows[i], read) && 0 < rows[i].quote <= rows[i].amount)
  }

  /** Failed stays failed, owed stays owed on the same burn, and nobody's terms change. */
  predicate Stays(a: Row, b: Row) {
    && b.redeemer == a.redeemer && b.ref == a.ref && b.amount == a.amount && b.quote == a.quote
    && (a.status == Failed ==> b == a)
    && (Owed(a.status) ==> Owed(b.status) && b.burnTx == a.burnTx)
  }

  predicate Later(before: seq<Row>, after: seq<Row>) {
    |before| <= |after| && forall i :: 0 <= i < |before| ==> Stays(before[i], after[i])
  }

  // ----- what holds of the rules -----------------------------------------------------------------

  lemma {:induction false} FirstStays(txs: seq<Tx>, more: seq<Tx>, ref: string)
    requires First(txs, ref).Some?
    ensures First(txs + more, ref) == First(txs, ref)
  {
    if more == [] {
      assert txs + more == txs;
    } else {
      var n := |more| - 1;
      FirstStays(txs, more[..n], ref);
      assert (txs + more)[..|txs| + n] == txs + more[..n];
    }
  }

  /** A redemption is owed if and only if a burn honours it that no other burn naming it precedes. */
  lemma {:induction false} OwedIffFirstHonours(row: Row, txs: seq<Tx>)
    requires Decided(row, txs)
    ensures row.status in {PayoutPending, PayoutSubmitted, Paid} <==>
            exists k :: 0 <= k < |txs| && Names(txs[k], row.ref) && Lower(txs[k].from) == Lower(row.redeemer)
                        && txs[k].amount == Some(row.amount) && forall j :: 0 <= j < k ==> !Names(txs[j], row.ref)
    ensures row.status == Failed <==>
            exists k :: 0 <= k < |txs| && Names(txs[k], row.ref) && (forall j :: 0 <= j < k ==> !Names(txs[j], row.ref))
                        && (Lower(txs[k].from) != Lower(row.redeemer) || txs[k].amount != Some(row.amount))
  {
    FirstIsEarliest(txs, row.ref);
  }

  lemma {:induction false} FirstIsEarliest(txs: seq<Tx>, ref: string)
    ensures forall k :: 0 <= k < |txs| && Names(txs[k], ref) && (forall j :: 0 <= j < k ==> !Names(txs[j], ref))
                        ==> First(txs, ref) == Some(txs[k])
    ensures First(txs, ref).Some? ==>
            exists k :: 0 <= k < |txs| && First(txs, ref) == Some(txs[k]) && forall j :: 0 <= j < k ==> !Names(txs[j], ref)
  {
    if txs != [] {
      var n := |txs| - 1;
      FirstIsEarliest(txs[..n], ref);
      if First(txs[..n], ref).Some? {
        var k :| 0 <= k < n && First(txs[..n], ref) == Some(txs[..n][k]) && forall j :: 0 <= j < k ==> !Names(txs[..n][j], ref);
        assert First(txs, ref) == Some(txs[k]);
        assert forall j :: 0 <= j < k ==> txs[..n][j] == txs[j];
      } else {
        assert forall j :: 0 <= j < n ==> txs[j] == txs[..n][j] && !Names(txs[j], ref);
      }
    }
  }

  /** The next burn keeps every redemption where the first burn that names it puts it. */
  lemma AfterDecides(row: Row, txs: seq<Tx>, t: Tx)
    requires Decided(row, txs)
    ensures Decided(After(row, t), txs + [t])
  {
  }

  /** One read before changes nothing. */
  lemma ReadAgain(row: Row, txs: seq<Tx>, t: Tx)
    requires Decided(row, txs) && t in txs
    ensures After(row, t) == row
  {
    if Names(t, row.ref) {
      assert First(txs, row.ref).Some?;
    }
  }

  lemma ReadingKeepsBooks(rows: seq<Row>, redeemed: map<nat, int>, read: set<Tx>, t: Tx)
    requires BooksOk(rows, redeemed, read)
    ensures BooksOk(rows, redeemed, read + {t})
  {
    forall i | 0 <= i < |rows| && Owed(rows[i].status) ensures Backed(rows[i], read + {t}) {
      assert Backed(rows[i], read);
      var u :| u in read && Names(u, rows[i].ref) && Honours(rows[i], u) && rows[i].burnTx == Some(u.hash);
      assert u in read + {t};
    }
  }

  /** The redemption a burn names goes where the burn puts it, and is booked when that is owed. */
  lemma DecidingKeepsBooks(rows: seq<Row>, redeemed: map<nat, int>, read: set<Tx>, i: nat, t: Tx)
    requires BooksOk(rows, redeemed, read) && t in read
    requires i < |rows| && rows[i].status == Created && Names(t, rows[i].ref)
    ensures i !in redeemed
    ensures BooksOk(rows[i := After(rows[i], t)], if Honours(rows[i], t) then redeemed[i := t.amount.value] else redeemed, read)
    ensures forall j :: 0 <= j < |rows| ==> rows[i := After(rows[i], t)][j] == After(rows[j], t)
  {
    var after := After(rows[i], t);
    if Honours(rows[i], t) {
      assert Names(t, after.ref) && Honours(after, t);
    }
    assert Backed(after, read);
    forall j | 0 <= j < |rows| && j != i ensures After(rows[j], t) == rows[j] && Backed(rows[j], read) {
      assert rows[j].ref != rows[i].ref;
    }
  }

  // ----- no payout without a burn ----------------------------------------------------------------

  /** What the payout protocol may pay out, and what was burned for it. */
  function QuotesOwed(rows: seq<Row>): int {
    if rows == [] then 0
    else QuotesOwed(rows[..|rows| - 1]) + (if Owed(rows[|rows| - 1].status) then rows[|rows| - 1].quote else 0)
  }

  predicate Honoured(row: Row, txs: seq<Tx>) {
    var f := First(txs, row.ref);
    f.Some? && Honours(row, f.value)
  }

  function AmountsHonoured(rows: seq<Row>, txs: seq<Tx>): int {
    if rows == [] then 0
    else
      AmountsHonoured(rows[..|rows| - 1], txs)
      + (if Honoured(rows[|rows| - 1], txs) then rows[|rows| - 1].amount else 0)
  }

  lemma {:induction false} OneMoreBurn(rows: seq<Row>, txs: seq<Tx>, t: Tx)
    requires DistinctRefs(rows)
    ensures AmountsHonoured(rows, txs + [t]) <= AmountsHonoured(rows, txs) + BurnOf(t)
    ensures (forall i :: 0 <= i < |rows| ==> !Names(t, rows[i].ref)) ==>
            AmountsHonoured(rows, txs + [t]) == AmountsHonoured(rows, txs)
  {
    if rows != [] {
      var n := |rows| - 1;
      OneMoreBurn(rows[..n], txs, t);
      if Names(t, rows[n].ref) {
        forall i | 0 <= i < n ensures !Names(t, rows[..n][i].ref) {
          assert rows[i].ref != rows[n].ref;
        }
      } else {
        assert (forall i :: 0 <= i < |rows| ==> !Names(t, rows[i].ref)) ==> forall i :: 0 <= i < n ==> !Names(t, rows[..n][i].ref);
      }
    }
  }

  lemma {:induction false} NothingBurned(rows: seq<Row>)
    ensures AmountsHonoured(rows, []) == 0
  {
    if rows != [] { NothingBurned(rows[..|rows| - 1]); }
  }

  lemma {:induction false} HonouredIsBurned(rows: seq<Row>, txs: seq<Tx>)
    requires DistinctRefs(rows)
    ensures AmountsHonoured(rows, txs) <= Burned(txs)
  {
    if txs == [] {
      NothingBurned(rows);
    } else {
      var n := |txs| - 1;
      HonouredIsBurned(rows, txs[..n]);
      OneMoreBurn(rows, txs[..n], txs[n]);
      assert txs[..n] + [txs[n]] == txs;
    }
  }

  lemma {:induction false} QuotesWithinAmounts(rows: seq<Row>, txs: seq<Tx>)
    requires forall i :: 0 <= i < |rows| ==> Decided(rows[i], txs) && rows[i].quote <= rows[i].amount
    ensures QuotesOwed(rows) <= AmountsHonoured(rows, txs)
  {
    if rows != [] {
      var n := |rows| - 1;
      assert forall i :: 0 <= i < n ==> rows[..n][i] == rows[i];
      QuotesWithinAmounts(rows[..n], txs);
      assert Decided(rows[n], txs);
    }
  }

  /** Every USDT owed was burned for: what the payout protocol may pay out for all redemptions together is at
      most the CLT burned against references. */
  lemma {:induction false} OwedIsBurned(rows: seq<Row>, txs: seq<Tx>)
    requires DistinctRefs(rows)
    requires forall i :: 0 <= i < |rows| ==> Decided(rows[i], txs) && rows[i].quote <= rows[i].amount
    ensures QuotesOwed(rows) <= Burned(txs)
  {
    QuotesWithinAmounts(rows, txs);
    HonouredIsBurned(rows, txs);
  }

  // ----- positions -------------------------------------------------------------------------------

  lemma UptoOne(blocks: seq<seq<Tx>>, h: nat, k: nat)
    requires h < |blocks| && k < |blocks[h]|
    ensures Upto(blocks, h, k + 1) == Upto(blocks, h, k) + [blocks[h][k]]
  {
  }

  lemma UptoAll(blocks: seq<seq<Tx>>, h: nat)
    requires h < |blocks|
    ensures Upto(blocks, h + 1, 0) == Upto(blocks, h, |blocks[h]|)
  {
    assert blocks[..h + 1][..h] == blocks[..h];
    assert blocks[h][..|blocks[h]|] == blocks[h];
  }

  lemma {:induction false} BlockIsIn(blocks: seq<seq<Tx>>, b: nat, k: nat)
    requires b < |blocks| && k < |blocks[b]|
    ensures blocks[b][k] in Flat(blocks)
  {
    var n := |blocks| - 1;
    if b < n {
      BlockIsIn(blocks[..n], b, k);
    }
  }

  /** What was read before is among what was read. */
  lemma PassedIsIn(blocks: seq<seq<Tx>>, h: nat, p: nat, b: nat, k: nat)
    requires h <= |blocks| && (p > 0 ==> h < |blocks| && p <= |blocks[h]|)
    requires b < |blocks| && k < |blocks[b]| && (b < h || (b == h && k < p))
    ensures blocks[b][k] in Upto(blocks, h, p)
  {
    if b < h {
      BlockIsIn(blocks[..h], b, k);
    } else {
      assert blocks[h][..p][k] == blocks[h][k];
    }
  }

  /** What becomes of the statements a burn needs: nothing, everything without a word, or everything. */
  datatype Write = Fails | Unheard | Written

  /** A burn the watcher looks up. */
  predicate Refers(t: Tx) {
    t.Burn? && t.ref.Some? && t.amount.Some?
  }

  /** How a block is read: whether the node shows it, what becomes of each transaction, and whether the cursor is moved. */
  datatype Reading = Reading(shown: bool, txs: seq<Write>, moved: bool)

  /** Every burn in it that names a redemption is dealt with, and the cursor moves over it. */
  predicate ReadsThrough(block: seq<Tx>, reading: Reading) {
    && reading.shown && reading.moved && |reading.txs| == |block|
    && forall k :: 0 <= k < |block| && Refers(block[k]) ==> reading.txs[k].Written?
  }

  /** The redemption a burn names, if it is still undecided, is owed when its sender and amount are those of the burn, and
      fails when they are not; no other row moves. */
  ghost predicate BurnDone(was: seq<Row>, now: seq<Row>, t: Tx)
    requires Refers(t)
  {
    && |now| == |was|
    && forall i :: 0 <= i < |was| ==>
         now[i] == if was[i].status != Created || Some(was[i].ref) != t.ref then was[i]
                   else if Lower(was[i].redeemer) == Lower(t.from) && Some(was[i].amount) == t.amount
                   then was[i].(status := PayoutPending, burnTx := Some(t.hash))
                   else was[i].(status := Failed)
  }

  // ----- the watcher, in place -------------------------------------------------------------------

  class Watcher {
    const confirmations: nat
    // the tables; `redeemed` is the `burn_redeemed` events, one a redemption by its unique key
    var rows: seq<Row>
    var redeemed: map<nat, int>
    var cursor: nat
    // the blocks deep enough to be read
    var chain: seq<seq<Tx>>
    // history: how far the watcher ever got, and every transaction it read
    ghost var high: nat
    ghost var partial: nat
    ghost var read: set<Tx>

    /** Whatever happens to the chain. */
    ghost predicate Valid()
      reads this
    {
      BooksOk(rows, redeemed, read)
    }

    ghost predicate InRange()
      reads this
    {
      cursor <= high <= |chain| && (partial > 0 ==> high < |chain| && partial <= |chain[high]|)
    }

    ghost function Seen(): seq<Tx>
      requires InRange()
      reads this
    {
      Upto(chain, high, partial)
    }

    /** While the chain is not reset: every redemption stands where the confirmed chain puts it. */
    ghost predicate Following()
      reads this
    {
      Valid() && InRange() && forall i :: 0 <= i < |rows| ==> Decided(rows[i], Seen())
    }

    constructor (confirmations: nat)
      ensures Following() && rows == [] && chain == [] && redeemed == map[] && this.confirmations == confirmations
    {
      this.confirmations := confirmations;
      rows, redeemed, cursor, chain, high, partial, read := [], map[], 0, [], 0, 0, {};
    }

    /** A redemption is quoted. Its reference is new: the unique key refuses one in use, and nobody burned against it. */
    method Create(redeemer: string, ref: string, amount: int, quote: int) returns (ok: bool)
      requires Valid()
      modifies this`rows
      ensures Valid()
      ensures ok <==> 0 < quote <= amount && forall i :: 0 <= i < |old(rows)| ==> old(rows)[i].ref != ref
      ensures rows == if ok then old(rows) + [Row(redeemer, ref, amount, quote, Created, None)] else old(rows)
      ensures old(Following()) && First(old(Seen()), ref).None? ==> Following()
    {
      if quote <= 0 || quote > amount { return false; }
      var i := 0;
      while i < |rows|
        invariant i <= |rows| && forall j :: 0 <= j < i ==> rows[j].ref != ref
      {
        if rows[i].ref == ref { return false; }
        i := i + 1;
      }
      rows := rows + [Row(redeemer, ref, amount, quote, Created, None)];
      return true;
    }

    /** The payout protocol has an owed redemption, and keeps it owed. */
    method MovePayout(i: nat, status: Status)
      requires Valid() && i < |rows| && Owed(rows[i].status) && Owed(status)
      modifies this`rows
      ensures Valid() && rows == old(rows)[i := old(rows)[i].(status := status)]
      ensures old(Following()) ==> Following()
    {
      assert Backed(rows[i], read);
      rows := rows[i := rows[i].(status := status)];
    }

    /** More blocks are deep enough. */
    method Confirm(more: seq<seq<Tx>>)
      requires Valid()
      modifies this`chain
      ensures Valid() && chain == old(chain) + more
      ensures old(Following()) ==> Following() && Seen() == old(Seen())
    {
      ghost var h := if high <= |chain| then high else 0;
      assert (chain + more)[..h] == chain[..h];
      chain := chain + more;
    }

    /** Another chain altogether. What was decided stays. */
    method Reset(other: seq<seq<Tx>>)
      requires Valid()
      modifies this`chain
      ensures Valid() && chain == other
    {
      chain := other;
    }

    method FindCreated(ref: string) returns (i: nat)
      ensures i < |rows| ==> rows[i].ref == ref && rows[i].status == Created
      ensures i >= |rows| ==> i == |rows| && forall j :: 0 <= j < |rows| ==> rows[j].ref != ref || rows[j].status != Created
    {
      i := 0;
      while i < |rows|
        invariant i <= |rows| && forall j :: 0 <= j < i ==> rows[j].ref != ref || rows[j].status != Created
      {
        if rows[i].ref == ref && rows[i].status == Created { return; }
        i := i + 1;
      }
    }

    /** The redemption a burn names, if it is still `created`, is owed or failed. */
    method ConfirmBurn(t: Tx, write: Write) returns (ok: bool)
      requires Valid() && Refers(t)
      modifies this`rows, this`redeemed, this`read
      ensures Valid() && read == old(read) + {t} && |rows| == |old(rows)|
      ensures ok <==> write.Written?
      ensures if write.Fails? then rows == old(rows) && redeemed == old(redeemed) else BurnDone(old(rows), rows, t)
      ensures forall i :: 0 <= i < |rows| ==> rows[i] == if write.Fails? then old(rows)[i] else After(old(rows)[i], t)
    {
      hide BooksOk;
      ReadingKeepsBooks(rows, redeemed, read, t);
      read := read + {t};
      if write.Fails? { return false; }
      var i := FindCreated(t.ref.value);
      if i == |rows| { return write.Written?; }
      DecidingKeepsBooks(rows, redeemed, read, i, t);
      if Lower(rows[i].redeemer) != Lower(t.from) || rows[i].amount != t.amount.value {
        rows := rows[i := rows[i].(status := Failed)];
      } else {
        if i !in redeemed {
          redeemed := redeemed[i := t.amount.value];
        }
        rows := rows[i := rows[i].(status := PayoutPending, burnTx := Some(t.hash))];
      }
      return write.Written?;
    }

    /** How far history is, for a transaction of the block the watcher is in. */
    ghost predicate At(k: nat)
      reads this
    {
      Following() && (cursor == high ==> k <= partial)
    }

    /** What the books become after a transaction is read is what the chain now says. */
    ghost method Advance(k: nat, was: seq<Row>)
      requires InRange() && cursor < |chain| && k < |chain[cursor]| && (cursor == high ==> k <= partial)
      requires forall i :: 0 <= i < |was| ==> Decided(was[i], Seen())
      requires Valid() && |rows| == |was|
      requires forall i :: 0 <= i < |rows| ==> rows[i] == After(was[i], chain[cursor][k])
      modifies this`partial
      ensures At(k + 1)
    {
      hide BooksOk, Decided;
      var before, t := Seen(), chain[cursor][k];
      if cursor < high || k < partial {
        PassedIsIn(chain, high, partial, cursor, k);
        forall i | 0 <= i < |rows| ensures rows[i] == was[i] {
          ReadAgain(was[i], before, t);
        }
      } else {
        UptoOne(chain, high, k);
        partial := k + 1;
        forall i | 0 <= i < |rows| ensures Decided(rows[i], Seen()) {
          AfterDecides(was[i], before, t);
        }
      }
    }

    /** One transaction of the block the watcher is in. */
    method ReadTx(k: nat, write: Write) returns (ok: bool)
      requires Valid() && cursor < |chain| && k < |chain[cursor]|
      modifies this`rows, this`redeemed, this`read, this`partial
      ensures Valid() && Later(old(rows), rows)
      ensures ok <==> !Refers(chain[cursor][k]) || write.Written?
      ensures if Refers(chain[cursor][k]) && !write.Fails? then BurnDone(old(rows), rows, chain[cursor][k]) else rows == old(rows)
      ensures old(At(k)) ==> Following() && (ok ==> At(k + 1))
    {
      hide BooksOk, Decided, BurnDone;
      var t := chain[cursor][k];
      ok := true;
      if Refers(t) {
        ok := ConfirmBurn(t, write);
      }
      if old(At(k)) && forall i :: 0 <= i < |rows| ==> rows[i] == After(old(rows)[i], t) {
        Advance(k, old(rows));
      }
    }

    /** The cursor moves over a block that was read to its end. */
    method Finish()
      requires Valid() && cursor < |chain|
      modifies this`partial, this`high, this`cursor
      ensures Valid() && cursor == old(cursor) + 1
      ensures old(At(|chain[cursor]|)) ==> Following()
    {
      hide BooksOk, Decided;
      if cursor == high {
        if At(|chain[cursor]|) {
          UptoAll(chain, high);
        }
        high, partial := cursor + 1, 0;
      }
      cursor := cursor + 1;
    }

    /** The whole block, then the cursor. */
    method WatchBlock(reading: Reading) returns (finished: bool)
      requires Valid() && cursor < |chain| && |reading.txs| == |chain[cursor]|
      modifies this`rows, this`redeemed, this`read, this`partial, this`high, this`cursor
      ensures Valid() && Later(old(rows), rows)
      ensures old(Following()) ==> Following()
      ensures finished <==> ReadsThrough(chain[old(cursor)], reading)
      ensures cursor == if finished then old(cursor) + 1 else old(cursor)
    {
      hide BooksOk, Decided, Stays, BurnDone;
      Unmoved(rows);
      if !reading.shown { return false; }
      var k := 0;
      while k < |chain[cursor]|
        invariant cursor == old(cursor) && high == old(high) && k <= |chain[cursor]|
        invariant Valid() && Later(old(rows), rows)
        invariant forall j :: 0 <= j < k && Refers(chain[cursor][j]) ==> reading.txs[j].Written?
        invariant old(Following()) ==> At(k)
      {
        ghost var was := rows;
        var ok := ReadTx(k, reading.txs[k]);
        LaterStill(old(rows), was, rows);
        if !ok { return false; }
        k := k + 1;
      }
      if !reading.moved { return false; }
      Finish();
      return true;
    }

    /** From the bottom again. */
    method Rewind()
      requires Valid()
      modifies this`cursor
      ensures Valid() && cursor == 0
      ensures old(Following()) ==> Following() && Seen() == old(Seen())
    {
      hide BooksOk, Decided;
      cursor := 0;
    }

    /** One poll; the node may answer with an older height. It ends at the first block that is not read through, or is
        done with all of them. `rewound` is whether the cursor can be set back when the chain has shrunk. */
    method PollOnce(head: nat, readings: seq<Reading>, rewound: bool) returns (done: bool)
      requires Valid() && head <= |chain| + confirmations
      requires |readings| == |chain| && forall h :: 0 <= h < |chain| ==> |readings[h].txs| == |chain[h]|
      modifies this`rows, this`redeemed, this`read, this`partial, this`high, this`cursor
      ensures Valid() && Later(old(rows), rows)
      ensures old(Following()) ==> Following() && QuotesOwed(rows) <= Burned(Seen())
      ensures match MintPipeline.ProcessRange(old(cursor), head, confirmations)
              case UpToDate => done && cursor == old(cursor)
              case ChainShrank => done == rewound && cursor == if rewound then 0 else old(cursor)
              case Range(_, to) =>
                && old(cursor) <= cursor <= to <= |chain| && (done <==> cursor == to)
                && (forall h :: old(cursor) <= h < cursor ==> ReadsThrough(chain[h], readings[h]))
                && (cursor < to ==> !ReadsThrough(chain[cursor], readings[cursor]))
    {
      hide Valid, InRange, Following, Later, ReadsThrough;
      done := true;
      Unmoved(rows);
      match MintPipeline.ProcessRange(cursor, head, confirmations) {
        case UpToDate =>
        case ChainShrank =>
          if rewound { Rewind(); } else { done := false; }
        case Range(_, to) =>
          while done && cursor < to
            invariant old(cursor) <= cursor <= to <= |chain| && (done || cursor < to)
            invariant Valid() && Later(old(rows), rows)
            invariant old(Following()) ==> Following()
            invariant forall h :: old(cursor) <= h < cursor ==> ReadsThrough(chain[h], readings[h])
            invariant !done ==> !ReadsThrough(chain[cursor], readings[cursor])
            decreases done, to - cursor
          {
            ghost var was := rows;
            done := WatchBlock(readings[cursor]);
            LaterStill(old(rows), was, rows);
          }
      }
      PayoutsAreBurned(this);
    }
  }

  lemma Unmoved(rows: seq<Row>)
    ensures Later(rows, rows)
  {
  }

  /** While the chain is not reset, what may be paid out was burned for. */
  lemma PayoutsAreBurned(w: Watcher)
    ensures w.Following() ==> QuotesOwed(w.rows) <= Burned(w.Seen())
  {
    if w.Following() {
      OwedIsBurned(w.rows, w.Seen());
    }
  }

  lemma LaterStill(a: seq<Row>, b: seq<Row>, c: seq<Row>)
    requires Later(a, b) && Later(b, c)
    ensures Later(a, c)
  {
    forall i | 0 <= i < |a| ensures Stays(a[i], c[i]) {
      assert Stays(a[i], b[i]) && Stays(b[i], c[i]);
    }
  }
}
