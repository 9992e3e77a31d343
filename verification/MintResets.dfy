/**
 What the watcher makes of a chain that was reset.

 It notices one by a head below its cursor, and starts again from the bottom; otherwise it goes on from its cursor,
 and of the mints below only those booked before are booked. The next poll decides which.
 */
module MintResets {
  import opened Basics
  import opened MintPipeline
  import MintLedger

  predicate MintAt(blocks: seq<seq<Tx>>, b: nat, n: nat, i: nat) {
    b < |blocks| && n < |blocks[b]| && blocks[b][n].Mint? && blocks[b][n].ref == i
  }

  /** The mints from block `base` on, up to transaction `k` of block `h`, are booked. */
  ghost predicate AllBooked(s: State, base: nat, h: nat, k: nat) {
    forall b: nat, n: nat, i: nat :: MintAt(s.blocks, b, n, i) && base <= b && (b < h || (b == h && n < k)) ==> Booked(s.ledger, i)
  }

  /** Every mint of the chain up to the cursor is booked. */
  ghost predicate Complete(s: State) {
    AllBooked(s, 0, s.cursor, 0)
  }

  /** The mints the chain of `t` now has below block `base` were booked when it was as in `u`. */
  ghost predicate BookedBelow(u: State, t: State, base: nat) {
    forall b: nat, n: nat, i: nat :: MintAt(t.blocks, b, n, i) && b < base ==> Booked(u.ledger, i)
  }

  /** What is booked since `u` was minted from block `base` on. */
  ghost predicate NewAbove(c: Config, u: State, s: State, base: nat) {
    forall i: nat :: Booked(s.ledger, i) && !Booked(u.ledger, i) ==>
                       exists b: nat, n: nat :: MintAt(s.blocks, b, n, i) && base <= b < MintLedger.Settled(c, s)
  }

  function Next(s: State): nat {
    if s.watcher.Scanning? then s.watcher.next else 0
  }

  ghost predicate PeakOk(c: Config, s: State) {
    MintLedger.Settled(c, s) <= |s.blocks| <= s.peak
  }

  /** Since `u` the watcher has been from `base` to where it is, over blocks that stay. */
  ghost predicate Caught(c: Config, u: State, s: State, base: nat) {
    && PeakOk(c, s) && base <= s.cursor && (base < s.cursor ==> s.cursor <= MintLedger.Settled(c, s))
    && (s.watcher.Scanning? ==> s.cursor < s.watcher.bound <= MintLedger.Settled(c, s) && s.watcher.next <= |s.blocks[s.cursor]|)
    && AllBooked(s, base, s.cursor, Next(s))
    && NewAbove(c, u, s, base)
    && (forall i: nat :: Booked(u.ledger, i) ==> Booked(s.ledger, i))
  }

  /** No reset, and no second answer below the cursor unless the watcher is starting from the bottom anyway. */
  predicate Calm(s: State, e: Event, base: nat) {
    !e.Reset? && (e.Poll? && e.head < s.cursor ==> base == 0)
  }

  ghost predicate CalmRun(c: Config, s: State, events: seq<Event>, base: nat) {
    forall n :: 0 <= n < |events| && Run(c, s, events[..n]).Some? ==> Calm(Run(c, s, events[..n]).value, events[n], base)
  }

  // ----- every step keeps it ---------------------------------------------------------------------

  lemma ChainKeepsCaught(c: Config, u: State, s: State, e: Event, base: nat)
    requires Caught(c, u, s, base) && Chain(c, s, e).Some? && !e.Reset?
    ensures Caught(c, u, Chain(c, s, e).value, base)
  {
    var t, settled := Chain(c, s, e).value, MintLedger.Settled(c, s);
    assert t.blocks[..settled] == s.blocks[..settled];
    assert forall b :: 0 <= b < settled ==> t.blocks[b] == t.blocks[..settled][b] == s.blocks[..settled][b] == s.blocks[b];
    forall b: nat, n: nat, i: nat | MintAt(t.blocks, b, n, i) && base <= b && (b < t.cursor || (b == t.cursor && n < Next(t)))
      ensures Booked(t.ledger, i)
    {
      assert MintAt(s.blocks, b, n, i);
    }
    forall i: nat | Booked(t.ledger, i) && !Booked(u.ledger, i)
      ensures exists b: nat, n: nat :: MintAt(t.blocks, b, n, i) && base <= b < MintLedger.Settled(c, t)
    {
      var b: nat, n: nat :| MintAt(s.blocks, b, n, i) && base <= b < settled;
      assert MintAt(t.blocks, b, n, i);
    }
  }

  lemma BookedKeeps(a: seq<Booking>, m: Booking, i: nat)
    ensures Booked(a + [m], i) <==> Booked(a, i) || i == m.intent
  {
    if Booked(a, i) {
      BookedGrows(a, a + [m], i);
    }
    if i == m.intent {
      assert (a + [m])[|a|] == m;
    }
  }

  /** A confirmed mint is booked when the watcher has met it, whatever the intent's status. */
  lemma CreditBooks(s: State, m: Tx)
    requires Good(s) && m.Mint? && m.ref < |s.intents|
    ensures forall i: nat :: Booked(Credit(s, m).ledger, i) <==> Booked(s.ledger, i) || i == m.ref
  {
    assert IntentOk(s, m.ref);
    forall i: nat ensures Booked(Credit(s, m).ledger, i) <==> Booked(s.ledger, i) || i == m.ref {
      BookedKeeps(s.ledger, Booking(m.ref, s.intents[m.ref].amount), i);
    }
  }

  lemma WatchTxBooks(c: Config, s: State)
    requires Good(s) && Watch(c, s, WatchTx).Some?
    ensures s.watcher.Scanning? && s.cursor < |s.blocks| && s.watcher.next < |s.blocks[s.cursor]|
    ensures var t, tx := Watch(c, s, WatchTx).value, s.blocks[s.cursor][s.watcher.next];
            && t.blocks == s.blocks && t.peak == s.peak && t.cursor == s.cursor
            && t.watcher == Scanning(s.watcher.bound, s.watcher.next + 1)
            && forall i: nat :: Booked(t.ledger, i) <==> Booked(s.ledger, i) || (tx.Mint? && tx.ref == i)
  {
    var tx := s.blocks[s.cursor][s.watcher.next];
    if tx.Mint? {
      ConfirmedWasPassed(s, s.cursor, s.watcher.next);
      CreditBooks(s, tx);
    }
  }

  lemma WatchTxKeepsCaught(c: Config, u: State, s: State, base: nat)
    requires Good(s) && Caught(c, u, s, base) && Watch(c, s, WatchTx).Some?
    ensures Caught(c, u, Watch(c, s, WatchTx).value, base)
  {
    hide Watch, Good;
    WatchTxBooks(c, s);
    var t, k := Watch(c, s, WatchTx).value, s.watcher.next;
    forall b: nat, n: nat, i: nat | MintAt(t.blocks, b, n, i) && base <= b && (b < t.cursor || (b == t.cursor && n < Next(t)))
      ensures Booked(t.ledger, i)
    {
      assert MintAt(s.blocks, b, n, i);
    }
    forall i: nat | Booked(t.ledger, i) && !Booked(u.ledger, i)
      ensures exists b: nat, n: nat :: MintAt(t.blocks, b, n, i) && base <= b < MintLedger.Settled(c, t)
    {
      if !Booked(s.ledger, i) {
        assert MintAt(t.blocks, s.cursor, k, i);
      }
    }
  }

  /** Only where the watcher is moves, over a block it has been through or not at all. */
  lemma MovedKeepsCaught(c: Config, u: State, s: State, t: State, base: nat)
    requires Caught(c, u, s, base)
    requires t.ledger == s.ledger && t.blocks == s.blocks && t.peak == s.peak
    requires base <= t.cursor && (base < t.cursor ==> t.cursor <= MintLedger.Settled(c, t))
    requires t.watcher.Scanning? ==> t.cursor < t.watcher.bound <= MintLedger.Settled(c, t) && t.watcher.next <= |t.blocks[t.cursor]|
    requires (t.cursor <= s.cursor && Next(t) == 0)
             || (s.cursor < |s.blocks| && Next(s) == |s.blocks[s.cursor]| && t.cursor == s.cursor + 1 && Next(t) == 0)
    ensures Caught(c, u, t, base)
  {
    forall b: nat, n: nat, i: nat | MintAt(t.blocks, b, n, i) && base <= b && (b < t.cursor || (b == t.cursor && n < Next(t)))
      ensures Booked(t.ledger, i)
    {
      assert MintAt(s.blocks, b, n, i);
    }
  }

  lemma WatchKeepsCaught(c: Config, u: State, s: State, e: Event, base: nat)
    requires Caught(c, u, s, base) && Watch(c, s, e).Some? && Calm(s, e, base) && !e.WatchTx?
    ensures Caught(c, u, Watch(c, s, e).value, base)
  {
    hide AllBooked, NewAbove;
    MovedKeepsCaught(c, u, s, Watch(c, s, e).value, base);
  }

  lemma SameChainKeepsCaught(c: Config, u: State, s: State, t: State, base: nat)
    requires Caught(c, u, s, base)
    requires t.ledger == s.ledger && t.blocks == s.blocks && t.peak == s.peak && t.cursor == s.cursor && t.watcher == s.watcher
    ensures Caught(c, u, t, base)
  {
    forall b: nat, n: nat, i: nat | MintAt(t.blocks, b, n, i) && base <= b && (b < t.cursor || (b == t.cursor && n < Next(t)))
      ensures Booked(t.ledger, i)
    {
      assert MintAt(s.blocks, b, n, i);
    }
  }

  lemma StepKeepsCaught(c: Config, u: State, s: State, e: Event, base: nat)
    requires Good(s) && Caught(c, u, s, base) && Step(c, s, e).Some? && Calm(s, e, base)
    ensures Caught(c, u, Step(c, s, e).value, base)
  {
    hide Caught;
    if Chain(c, s, e).Some? {
      ChainKeepsCaught(c, u, s, e, base);
    } else if e.WatchTx? {
      WatchTxKeepsCaught(c, u, s, base);
    } else if Watch(c, s, e).Some? {
      WatchKeepsCaught(c, u, s, e, base);
    } else {
      MintLedger.OutboxLeavesTheChain(c, s, e);
      SameChainKeepsCaught(c, u, s, Step(c, s, e).value, base);
    }
  }

  lemma CalmPrefix(c: Config, s: State, events: seq<Event>, base: nat)
    requires events != [] && Run(c, s, events).Some? && CalmRun(c, s, events, base)
    ensures CalmRun(c, s, events[..|events| - 1], base)
    ensures Calm(Run(c, s, events[..|events| - 1]).value, events[|events| - 1], base)
  {
    var m := |events| - 1;
    forall n | 0 <= n < m && Run(c, s, events[..m][..n]).Some?
      ensures Calm(Run(c, s, events[..m][..n]).value, events[..m][n], base)
    {
      assert events[..m][..n] == events[..n];
    }
  }

  lemma {:induction false} RunKeepsCaught(c: Config, u: State, s: State, events: seq<Event>, base: nat)
    requires Good(s) && Caught(c, u, s, base) && Run(c, s, events).Some? && CalmRun(c, s, events, base)
    ensures Caught(c, u, Run(c, s, events).value, base)
  {
    hide Step, Caught, Calm;
    if events != [] {
      var n := |events| - 1;
      CalmPrefix(c, s, events, base);
      RunKeepsCaught(c, u, s, events[..n], base);
      RunKeepsGood(c, s, events[..n]);
      StepKeepsCaught(c, u, Run(c, s, events[..n]).value, events[n], base);
    }
  }

  // ----- the next poll ---------------------------------------------------------------------------

  lemma StepKeepsPeak(c: Config, s: State, e: Event)
    requires PeakOk(c, s) && Step(c, s, e).Some?
    ensures PeakOk(c, Step(c, s, e).value)
  {
    if !Chain(c, s, e).Some? && !Watch(c, s, e).Some? {
      MintLedger.OutboxLeavesTheChain(c, s, e);
    }
  }

  lemma {:induction false} RunKeepsPeak(c: Config, events: seq<Event>)
    requires Run(c, START, events).Some?
    ensures PeakOk(c, Run(c, START, events).value)
  {
    hide Step;
    if events != [] {
      var n := |events| - 1;
      RunKeepsPeak(c, events[..n]);
      StepKeepsPeak(c, Run(c, START, events[..n]).value, events[n]);
    }
  }

  /** From where the watcher starts after it has polled. */
  function Base(u: State, head: nat): nat {
    if head < u.cursor then 0 else u.cursor
  }

  lemma PollCatches(c: Config, u: State, head: nat)
    requires PeakOk(c, u) && Watch(c, u, Poll(head)).Some?
    ensures Step(c, u, Poll(head)) == Watch(c, u, Poll(head))
    ensures Caught(c, u, Watch(c, u, Poll(head)).value, Base(u, head))
  {
  }

  /** Each mint has its own place in the chain's list of them. */
  lemma {:induction false} PlaceOf(blocks: seq<seq<Tx>>, b: nat, n: nat) returns (a: nat)
    requires b < |blocks| && n < |blocks[b]| && blocks[b][n].Mint?
    ensures |ChainMints(blocks[..b])| <= a < |ChainMints(blocks[..b + 1])| <= |ChainMints(blocks)|
    ensures ChainMints(blocks)[a].intent == blocks[b][n].ref
  {
    var upto := blocks[..b + 1];
    assert upto[..b] == blocks[..b] && upto[b] == blocks[b];
    MintIsInBlock(blocks[b], n);
    var x: nat :| x < |MintsOf(blocks[b])| && MintsOf(blocks[b])[x] == Booking(blocks[b][n].ref, blocks[b][n].amount);
    a := |ChainMints(blocks[..b])| + x;
    ChainPrefix(blocks, b + 1);
    assert ChainMints(upto)[a] == MintsOf(blocks[b])[x];
  }

  lemma PlacesGrow(blocks: seq<seq<Tx>>, a: nat, b: nat)
    requires a <= b <= |blocks|
    ensures |ChainMints(blocks[..a])| <= |ChainMints(blocks[..b])|
  {
    ChainPrefix(blocks[..b], a);
    assert blocks[..b][..a] == blocks[..a];
  }

  lemma MintedInOneBlock(blocks: seq<seq<Tx>>, b: nat, n: nat, d: nat, m: nat, i: nat)
    requires OnceEach(ChainMints(blocks)) && MintAt(blocks, b, n, i) && MintAt(blocks, d, m, i)
    ensures b == d
  {
    var x := PlaceOf(blocks, b, n);
    var y := PlaceOf(blocks, d, m);
    assert x == y;
    if b < d {
      PlacesGrow(blocks, b + 1, d);
    } else if d < b {
      PlacesGrow(blocks, d + 1, b);
    }
  }

  /** Whatever resets came before: let the watcher poll, and go on without another reset, nor, unless it starts from
      the bottom now, another answer below its cursor. Every mint of the chain up to its cursor is booked if and only
      if it was told a head below its cursor, or those below where it stood then had been booked already. What is
      booked meanwhile was minted above where it started. */
  lemma CompleteIffNoticedOrBooked(c: Config, events: seq<Event>, u: State, head: nat, more: seq<Event>, t: State)
    requires Run(c, START, events) == Some(u) && Watch(c, u, Poll(head)).Some?
    requires Run(c, Watch(c, u, Poll(head)).value, more) == Some(t)
    requires CalmRun(c, Watch(c, u, Poll(head)).value, more, Base(u, head))
    ensures Complete(t) <==> head < u.cursor || BookedBelow(u, t, u.cursor)
    ensures NewAbove(c, u, t, Base(u, head))
  {
    var v, base := Watch(c, u, Poll(head)).value, Base(u, head);
    RunKeepsGood(c, START, events);
    RunKeepsPeak(c, events);
    PollCatches(c, u, head);
    StepKeepsGood(c, u, Poll(head));
    RunKeepsCaught(c, u, v, more, base);
    RunKeepsGood(c, v, more);
    if head >= u.cursor {
      if Complete(t) {
        CompleteWasBooked(c, u, t, base);
      }
    }
  }

  lemma CompleteWasBooked(c: Config, u: State, t: State, base: nat)
    requires Good(t) && Caught(c, u, t, base) && Complete(t)
    ensures BookedBelow(u, t, base)
  {
    forall b: nat, n: nat, i: nat | MintAt(t.blocks, b, n, i) && b < base ensures Booked(u.ledger, i) {
      assert Booked(t.ledger, i);
      if !Booked(u.ledger, i) {
        var d: nat, m: nat :| MintAt(t.blocks, d, m, i) && base <= d < MintLedger.Settled(c, t);
        MintedInOneBlock(t.blocks, b, n, d, m, i);
      }
    }
  }
}
