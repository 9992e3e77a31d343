/**
 The ledger refines the chain.

 Whatever is lost, timed out, queued again, approved again or interrupted, the watcher's bookings are at every
 moment exactly the mints of the confirmed blocks it has been through, in chain order and at the chain's
 amounts, as long as the chain is not reset. After a reset there is still at most one booking per intent.
 */
module MintLedger {
  import opened Basics
  import opened MintPipeline
  import MintRetries

  /** The mints of the first `h` blocks, and of the first `k` transactions of the next. */
  function Folded(blocks: seq<seq<Tx>>, h: nat, k: nat): seq<Booking> {
    if h < |blocks| && k <= |blocks[h]| then ChainMints(blocks[..h]) + MintsOf(blocks[h][..k])
    else if h <= |blocks| then ChainMints(blocks[..h]) else []
  }

  /** How high the chain can no longer change. */
  function Settled(c: Config, s: State): nat {
    if s.peak >= c.confirmations then s.peak - c.confirmations else 0
  }

  ghost predicate FoldOk(c: Config, s: State) {
    && Settled(c, s) <= |s.blocks| <= s.peak
    && s.cursor <= s.high <= Settled(c, s)
    && (s.partial > 0 ==> s.high < Settled(c, s) && s.partial <= |s.blocks[s.high]|)
    && (s.watcher.Scanning? ==>
          && s.cursor < s.watcher.bound <= Settled(c, s)
          && s.watcher.next <= |s.blocks[s.cursor]|
          && (s.cursor == s.high ==> s.watcher.next <= s.partial))
    && s.ledger == Folded(s.blocks, s.high, s.partial)
  }

  /** Blocks that stay, or grow above, keep what was folded over them. */
  lemma SamePrefixSameFold(a: seq<seq<Tx>>, b: seq<seq<Tx>>, h: nat, k: nat, n: nat)
    requires n <= |a| && n <= |b| && a[..n] == b[..n]
    requires h <= n && (k > 0 ==> h < n && k <= |a[h]|)
    ensures Folded(a, h, k) == Folded(b, h, k)
  {
    assert a[..h] == a[..n][..h] && b[..h] == b[..n][..h];
    if h < n {
      assert a[h] == a[..n][h] && b[h] == b[..n][h];
    }
    if k == 0 {
      assert forall x: seq<Tx> :: x[..0] == [] && MintsOf(x[..0]) == [];
    }
  }

  lemma ChainKeepsFold(c: Config, s: State, e: Event)
    requires FoldOk(c, s) && Chain(c, s, e).Some? && !e.Reset?
    ensures FoldOk(c, Chain(c, s, e).value)
  {
    var t := Chain(c, s, e).value;
    var n := Settled(c, s);
    assert t.blocks[..n] == s.blocks[..n];
    SamePrefixSameFold(s.blocks, t.blocks, s.high, s.partial, n);
    if s.watcher.Scanning? {
      assert t.blocks[s.cursor] == t.blocks[..n][s.cursor] == s.blocks[..n][s.cursor];
    }
    if s.partial > 0 {
      assert t.blocks[s.high] == t.blocks[..n][s.high] == s.blocks[..n][s.high];
    }
  }

  /** The next transaction of the block. */
  lemma FoldedOne(blocks: seq<seq<Tx>>, h: nat, k: nat)
    requires h < |blocks| && k < |blocks[h]|
    ensures Folded(blocks, h, k + 1) == Folded(blocks, h, k) + (if blocks[h][k].Mint? then [Booking(blocks[h][k].ref, blocks[h][k].amount)] else [])
  {
    assert blocks[h][..k + 1][..k] == blocks[h][..k];
  }

  /** The whole block. */
  lemma FoldedAll(blocks: seq<seq<Tx>>, h: nat)
    requires h < |blocks|
    ensures Folded(blocks, h, |blocks[h]|) == Folded(blocks, h + 1, 0) == ChainMints(blocks[..h + 1])
  {
    assert blocks[h][..|blocks[h]|] == blocks[h];
    assert blocks[..h + 1][..h] == blocks[..h];
    if h + 1 < |blocks| {
      assert blocks[h + 1][..0] == [];
    }
  }

  lemma {:induction false} MintsPrefix(txs: seq<Tx>, k: nat)
    requires k <= |txs|
    ensures MintsOf(txs[..k]) <= MintsOf(txs)
  {
    if k < |txs| {
      MintsPrefix(txs[..|txs| - 1], k);
      assert txs[..|txs| - 1][..k] == txs[..k];
    } else {
      assert txs[..k] == txs;
    }
  }

  /** What was folded is the beginning of what the chain mints. */
  lemma FoldedPrefix(blocks: seq<seq<Tx>>, h: nat, k: nat)
    requires h < |blocks| && k <= |blocks[h]|
    ensures Folded(blocks, h, k) <= ChainMints(blocks)
  {
    MintsPrefix(blocks[h], k);
    ChainPrefix(blocks, h + 1);
    assert blocks[..h + 1][..h] == blocks[..h];
  }

  /** A mint met for the first time has not been booked. */
  lemma NewMintIsNotBooked(s: State, h: nat, k: nat)
    requires Good(s) && h < |s.blocks| && k < |s.blocks[h]| && s.blocks[h][k].Mint?
    requires s.ledger == Folded(s.blocks, h, k)
    ensures !Booked(s.ledger, s.blocks[h][k].ref)
  {
    var m, all, n := Booking(s.blocks[h][k].ref, s.blocks[h][k].amount), ChainMints(s.blocks), |s.ledger|;
    FoldedOne(s.blocks, h, k);
    FoldedPrefix(s.blocks, h, k + 1);
    assert s.ledger + [m] <= all;
    assert all[n] == (s.ledger + [m])[n] == m;
    forall a | 0 <= a < n ensures s.ledger[a].intent != m.intent {
      assert all[a] == (s.ledger + [m])[a] == s.ledger[a];
    }
  }

  /** One met before has. */
  lemma OldMintIsBooked(c: Config, s: State, k: nat)
    requires FoldOk(c, s) && s.cursor < |s.blocks| && k < |s.blocks[s.cursor]| && s.blocks[s.cursor][k].Mint?
    requires !Beyond(s, s.cursor, k)
    ensures Booked(s.ledger, s.blocks[s.cursor][k].ref)
  {
    var m := Booking(s.blocks[s.cursor][k].ref, s.blocks[s.cursor][k].amount);
    if s.cursor < s.high {
      assert s.blocks[..s.high][s.cursor] == s.blocks[s.cursor];
      MintIsInChain(s.blocks[..s.high], s.cursor, k);
    } else {
      assert s.blocks[s.high][..s.partial][k] == s.blocks[s.high][k];
      MintIsInBlock(s.blocks[s.high][..s.partial], k);
    }
    assert m in s.ledger;
  }

  lemma WatchTxKeepsFold(c: Config, s: State)
    requires Good(s) && FoldOk(c, s) && Watch(c, s, WatchTx).Some?
    ensures FoldOk(c, Watch(c, s, WatchTx).value)
  {
    var t, k := Watch(c, s, WatchTx).value, s.watcher.next;
    var tx := s.blocks[s.cursor][k];
    if Beyond(s, s.cursor, k) {
      assert s.cursor == s.high && k == s.partial;
      FoldedOne(s.blocks, s.high, k);
      if tx.Mint? {
        NewMintIsNotBooked(s, s.high, k) by { assert s.ledger == Folded(s.blocks, s.high, k); }
        ConfirmedWasPassed(s, s.high, k);
        assert IntentOk(s, tx.ref);
        assert t.ledger == s.ledger + [Booking(tx.ref, tx.amount)];
      }
    } else if tx.Mint? {
      OldMintIsBooked(c, s, k);
      assert t.ledger == s.ledger;
    }
  }

  lemma WatchKeepsFold(c: Config, s: State, e: Event)
    requires Good(s) && FoldOk(c, s) && Watch(c, s, e).Some?
    ensures FoldOk(c, Watch(c, s, e).value)
  {
    if e.WatchTx? {
      WatchTxKeepsFold(c, s);
    } else if e.FinishBlock? {
      FinishKeepsFold(c, s);
    }
  }

  lemma FinishKeepsFold(c: Config, s: State)
    requires FoldOk(c, s) && Watch(c, s, FinishBlock).Some?
    ensures FoldOk(c, Watch(c, s, FinishBlock).value)
  {
    FoldedAll(s.blocks, s.cursor);
  }

  lemma OutboxLeavesTheChain(c: Config, s: State, e: Event)
    requires People(c, s, e).Some? || Rescue(c, s, e).Some? || Submit(c, s, e).Some?
    requires !Chain(c, s, e).Some? && !Watch(c, s, e).Some? && Step(c, s, e).Some?
    ensures var t := Step(c, s, e).value;
            && t.ledger == s.ledger && t.blocks == s.blocks && t.peak == s.peak && t.cursor == s.cursor
            && t.watcher == s.watcher && t.high == s.high && t.partial == s.partial
  {
  }

  lemma StepKeepsFold(c: Config, s: State, e: Event)
    requires Good(s) && FoldOk(c, s) && Step(c, s, e).Some? && !e.Reset?
    ensures FoldOk(c, Step(c, s, e).value)
  {
    if Chain(c, s, e).Some? {
      ChainKeepsFold(c, s, e);
    } else if Watch(c, s, e).Some? {
      WatchKeepsFold(c, s, e);
    } else {
      OutboxLeavesTheChain(c, s, e);
    }
  }

  ghost predicate NeverReset(events: seq<Event>) {
    forall n :: 0 <= n < |events| ==> !events[n].Reset?
  }

  lemma {:induction false} RunKeepsFold(c: Config, s: State, events: seq<Event>)
    requires Good(s) && FoldOk(c, s) && Run(c, s, events).Some? && NeverReset(events)
    ensures FoldOk(c, Run(c, s, events).value)
  {
    if events != [] {
      var n := |events| - 1;
      assert forall m :: 0 <= m < n ==> events[..n][m] == events[m];
      RunKeepsFold(c, s, events[..n]);
      RunKeepsGood(c, s, events[..n]);
      StepKeepsFold(c, Run(c, s, events[..n]).value, events[n]);
    }
  }

  /** Over every run without a reset, at every moment: the ledger is the fold of the chain's mints over the
      confirmed part the watcher has been through. */
  lemma LedgerIsTheFold(c: Config, events: seq<Event>)
    requires Run(c, START, events).Some? && NeverReset(events)
    ensures var s := Run(c, START, events).value; s.ledger == Folded(s.blocks, s.high, s.partial)
    ensures FoldOk(c, Run(c, START, events).value)
  {
    RunKeepsFold(c, START, events);
  }

  /** At a block boundary: exactly one booking for each intent minted up to the cursor, and no other. */
  lemma OneBookingPerMint(c: Config, events: seq<Event>, s: State, i: nat)
    requires Run(c, START, events) == Some(s) && NeverReset(events)
    requires s.partial == 0 && s.cursor == s.high
    ensures s.cursor <= |s.blocks| && s.ledger == ChainMints(s.blocks[..s.cursor]) && OnceEach(s.ledger)
    ensures Booked(s.ledger, i) <==> exists m :: m in ChainMints(s.blocks[..s.cursor]) && m.intent == i
  {
    LedgerIsTheFold(c, events);
    EverBookedOnce(c, events);
    if s.high < |s.blocks| {
      assert s.blocks[s.high][..0] == [];
    }
    if m :| m in ChainMints(s.blocks[..s.cursor]) && m.intent == i {
      assert m in s.ledger;
      var a :| 0 <= a < |s.ledger| && s.ledger[a] == m;
    }
  }

  /** Resets and all: no intent is ever booked twice. */
  lemma {:induction false} EverBookedOnce(c: Config, events: seq<Event>)
    requires Run(c, START, events).Some?
    ensures OnceEach(Run(c, START, events).value.ledger)
  {
    if events != [] {
      var n := |events| - 1;
      EverBookedOnce(c, events[..n]);
      BookingStaysSingle(c, Run(c, START, events[..n]).value, events[n]);
    }
  }

  lemma WatchStaysSingle(c: Config, s: State, e: Event)
    requires OnceEach(s.ledger) && Watch(c, s, e).Some?
    ensures OnceEach(Watch(c, s, e).value.ledger)
  {
    if e.WatchTx? && s.blocks[s.cursor][s.watcher.next].Mint? {
      var m := s.blocks[s.cursor][s.watcher.next];
      assert Watch(c, s, e).value.ledger == Credit(s, m).ledger;
    }
  }

  lemma OthersLeaveTheLedger(c: Config, s: State, e: Event)
    requires Step(c, s, e).Some? && !Watch(c, s, e).Some?
    ensures Step(c, s, e).value.ledger == s.ledger
  {
    hide Watch;
  }

  lemma BookingStaysSingle(c: Config, s: State, e: Event)
    requires OnceEach(s.ledger) && Step(c, s, e).Some?
    ensures OnceEach(Step(c, s, e).value.ledger)
  {
    if Watch(c, s, e).Some? {
      assert People(c, s, e).None? && Chain(c, s, e).None?;
      WatchStaysSingle(c, s, e);
    } else {
      OthersLeaveTheLedger(c, s, e);
    }
  }

  // ----- a reset the watcher does not see --------------------------------------------------------

  /** After a mint was given to the node: a block, a poll, a reset to a chain as long, and a poll. */
  function Overtaken(): seq<Event> {
    MintRetries.Opening() + [Mine([])] + [Poll(1)] + [FinishBlock] + [Reset([[Mint(0, 1)]])] + [Poll(1)]
  }

  lemma OneBlockSteps(s: State, t: State)
    requires s == MintRetries.Waiting(0, 0) && t == s.(blocks := [[]], peak := 1)
    ensures Step(MintRetries.OPEN, s, Mine([])) == Some(t)
    ensures Step(MintRetries.OPEN, t, Poll(1)) == Some(t.(watcher := Scanning(1, 0)))
    ensures Step(MintRetries.OPEN, t.(watcher := Scanning(1, 0)), FinishBlock) == Some(t.(cursor := 1, high := 1))
  {
    NoMintsYet();
    OneBlockFinishes(t.(watcher := Scanning(1, 0)));
    hide Step, ChainOk;
    assert s.blocks + [[]] == [[]];
    MineSteps(MintRetries.OPEN, s, []);
    PollSteps(MintRetries.OPEN, t, 1);
  }

  lemma NoMintsYet()
    ensures forall reached: set<Booking> :: ChainOk([[]], reached)
  {
    var one: seq<seq<Tx>> := [[]];
    assert one[..0] == [] && ChainMints(one) == [];
  }

  lemma OneBlockFinishes(s: State)
    requires s == MintRetries.Waiting(0, 0).(blocks := [[]], peak := 1, watcher := Scanning(1, 0))
    ensures Step(MintRetries.OPEN, s, FinishBlock) == Some(s.(cursor := 1, high := 1, watcher := Asleep))
  {
  }

  lemma OneBlockWatched()
    ensures Run(MintRetries.OPEN, START, MintRetries.Opening() + [Mine([])] + [Poll(1)] + [FinishBlock])
            == Some(MintRetries.Waiting(0, 0).(blocks := [[]], peak := 1, cursor := 1, high := 1))
  {
    hide Step;
    var es, s := MintRetries.Opening(), MintRetries.Waiting(0, 0);
    var t := s.(blocks := [[]], peak := 1);
    MintRetries.SentOnce();
    OneBlockSteps(s, t);
    OneMore(MintRetries.OPEN, START, es, s, Mine([]), t);
    OneMore(MintRetries.OPEN, START, es + [Mine([])], t, Poll(1), t.(watcher := Scanning(1, 0)));
    OneMore(MintRetries.OPEN, START, es + [Mine([])] + [Poll(1)], t.(watcher := Scanning(1, 0)), FinishBlock, t.(cursor := 1, high := 1));
  }

  /** The cursor tells a reset only by a shorter chain. One already as long hides what it minted: the intent is
      on the chain up to the cursor, and is not booked. */
  lemma AResetAsLongHidesAMint()
    ensures Run(MintRetries.OPEN, START, Overtaken()).Some?
    ensures var s := Run(MintRetries.OPEN, START, Overtaken()).value;
            s.cursor == |s.blocks| == 1 && ChainMints(s.blocks) == [Booking(0, 1)] && s.ledger == [] && s.watcher.Asleep?
  {
    var es := MintRetries.Opening() + [Mine([])] + [Poll(1)] + [FinishBlock];
    var s := MintRetries.Waiting(0, 0).(blocks := [[]], peak := 1, cursor := 1, high := 1);
    var chain, block := [[Mint(0, 1)]], [Mint(0, 1)];
    OneBlockWatched();
    assert chain[..0] == [] && block[..0] == [] && MintsOf(block) == [Booking(0, 1)] && ChainMints(chain) == [Booking(0, 1)];
    OneMore(MintRetries.OPEN, START, es, s, Reset(chain), s.(blocks := chain));
    OneMore(MintRetries.OPEN, START, es + [Reset(chain)], s.(blocks := chain), Poll(1), s.(blocks := chain));
  }
}
