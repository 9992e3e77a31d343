/**
 What settling a redemption records.

 The relay names a transaction, and the chain's history says whether it pays this redemption. Over every run the
 books equal the transfers they were settled by. Whether two can share one turns on how its hash is spelt.
 */
module PayoutSettlement {
  import opened Basics
  import opened Payouts

  // ----- the books -------------------------------------------------------------------------------

  /** What the withdrawals of the first `n` redemptions come to. */
  function Booked(withdrawals: map<nat, int>, n: nat): int {
    if n == 0 then 0
    else Booked(withdrawals, n - 1) + (if n - 1 in withdrawals then withdrawals[n - 1] else 0)
  }

  /** What the transfers that settled them come to. */
  function SettledTotal(settlements: seq<Settlement>, transfers: seq<Transfer>): int {
    if settlements == [] then 0
    else
      var last := settlements[|settlements| - 1];
      SettledTotal(settlements[..|settlements| - 1], transfers)
      + (if last.transfer < |transfers| then transfers[last.transfer].amount else 0)
  }

  /** Transfer `x` pays exactly what redemption `i` was quoted, to its address, under its reference. */
  predicate Matches(s: State, i: nat, x: nat) {
    && i < |s.rows| && x < |s.transfers|
    && s.rows[i].status == Paid && s.rows[i].payoutRef.Some?
    && SameHash(s.transfers[x].tx, s.rows[i].payoutRef.value)
    && s.transfers[x].to == s.rows[i].to
    && s.transfers[x].amount == s.rows[i].quote
  }

  predicate SettledBy(s: State, a: nat, i: nat) {
    a < |s.settlements| && s.settlements[a].row == i
  }

  ghost predicate AllMatch(s: State) {
    forall a :: 0 <= a < |s.settlements| ==> Matches(s, s.settlements[a].row, s.settlements[a].transfer)
  }

  /** The redemptions paid are those settled, once each. */
  ghost predicate SettledOnce(s: State) {
    && (forall i: nat :: i < |s.rows| && s.rows[i].status == Paid ==> exists a: nat :: SettledBy(s, a, i))
    && (forall a: nat, b: nat, i: nat :: SettledBy(s, a, i) && SettledBy(s, b, i) ==> a == b)
  }

  /** And those booked as withdrawn, at their quote. */
  ghost predicate BookedOnce(s: State) {
    forall i: nat :: (i in s.withdrawals <==> i < |s.rows| && s.rows[i].status == Paid)
                     && (i in s.withdrawals ==> s.withdrawals[i] == s.rows[i].quote)
  }

  ghost predicate BooksOk(s: State) {
    && AllMatch(s) && SettledOnce(s) && BookedOnce(s)
    && Booked(s.withdrawals, |s.rows|) == SettledTotal(s.settlements, s.transfers)
  }

  /** Every transaction is in the chain's one spelling, and each is its own. */
  ghost predicate HashesOk(s: State) {
    && (forall x: nat :: x < |s.transfers| ==> s.transfers[x].tx in s.hashes)
    && (forall tx :: tx in s.hashes ==> tx == Lower(tx))
    && (forall x: nat, y: nat :: x < |s.transfers| && y < |s.transfers| && s.transfers[x].tx == s.transfers[y].tx ==> x == y)
  }

  /** A transaction the signer sent for redemption `i`, if it moved value, pays `i`. */
  ghost predicate SentFor(s: State, i: nat, tx: string) {
    && tx in s.hashes
    && forall x: nat :: x < |s.transfers| && s.transfers[x].tx == tx ==> s.transfers[x].paysFor == Some(i)
  }

  ghost predicate PermitsFit(s: State) {
    forall k: nat :: k < |s.permits| ==>
      && s.permits[k].row < |s.rows| && s.permits[k].to == s.rows[s.permits[k].row].to
      && s.permits[k].amount == s.rows[s.permits[k].row].quote
  }

  ghost predicate TransfersFit(s: State) {
    forall x: nat :: x < |s.transfers| && s.transfers[x].paysFor.Some? ==>
      var i := s.transfers[x].paysFor.value;
      i < |s.rows| && s.transfers[x].to == s.rows[i].to && s.transfers[x].amount == s.rows[i].quote
  }

  /** Before a redemption is paid it has a reference only on the TRX rail, to what the signer sent for it. */
  ghost predicate RefsFit(c: Config, s: State) {
    forall i: nat :: i < |s.rows| && s.rows[i].status != Paid && s.rows[i].payoutRef.Some? ==>
      !c.gasfree && SentFor(s, i, s.rows[i].payoutRef.value)
  }

  ghost predicate WorkerFits(c: Config, s: State) {
    s.worker.Waiting? && s.worker.act.Sent? ==> !c.gasfree && SentFor(s, s.worker.row, s.worker.act.tx)
  }

  ghost predicate PayingOk(c: Config, s: State) {
    PermitsFit(s) && TransfersFit(s) && RefsFit(c, s) && WorkerFits(c, s)
  }

  ghost predicate Sound(c: Config, s: State) {
    BooksOk(s) && HashesOk(s) && PayingOk(c, s)
  }

  // ----- every step keeps them -------------------------------------------------------------------

  /** No transfer and no settlement: rows keep what the books depend on. */
  ghost predicate Quiet(s: State, t: State) {
    && t.transfers == s.transfers && s.hashes <= t.hashes && t.settlements == s.settlements && t.withdrawals == s.withdrawals
    && |t.rows| >= |s.rows|
    && (forall i :: 0 <= i < |s.rows| ==>
          && t.rows[i].to == s.rows[i].to && t.rows[i].quote == s.rows[i].quote && t.rows[i].payoutRef == s.rows[i].payoutRef
          && (t.rows[i].status == Paid <==> s.rows[i].status == Paid))
    && (forall i :: |s.rows| <= i < |t.rows| ==> t.rows[i].status == Created && t.rows[i].payoutRef == None)
    && |t.permits| >= |s.permits| && t.permits[..|s.permits|] == s.permits
    && (forall k :: |s.permits| <= k < |t.permits| ==>
          && t.permits[k].row < |t.rows| && t.permits[k].to == t.rows[t.permits[k].row].to
          && t.permits[k].amount == t.rows[t.permits[k].row].quote)
    && (forall tx :: tx in t.hashes && tx !in s.hashes ==> tx == Lower(tx))
  }

  lemma {:induction false} BookedAbove(withdrawals: map<nat, int>, n: nat, m: nat)
    requires n <= m && forall i: nat :: i in withdrawals ==> i < n
    ensures Booked(withdrawals, m) == Booked(withdrawals, n)
  {
    if n < m {
      BookedAbove(withdrawals, n, m - 1);
    }
  }

  lemma {:induction false} BookedOne(withdrawals: map<nat, int>, i: nat, amount: int, n: nat)
    requires i !in withdrawals
    ensures Booked(withdrawals[i := amount], n) == Booked(withdrawals, n) + if i < n then amount else 0
  {
    if n > 0 {
      BookedOne(withdrawals, i, amount, n - 1);
    }
  }

  lemma {:induction false} SettledGrows(settlements: seq<Settlement>, transfers: seq<Transfer>, x: Transfer)
    requires forall a :: 0 <= a < |settlements| ==> settlements[a].transfer < |transfers|
    ensures SettledTotal(settlements, transfers + [x]) == SettledTotal(settlements, transfers)
  {
    if settlements != [] {
      SettledGrows(settlements[..|settlements| - 1], transfers, x);
    }
  }

  lemma QuietKeepsBooks(s: State, t: State)
    requires BooksOk(s) && Quiet(s, t)
    ensures BooksOk(t)
  {
    BookedAbove(s.withdrawals, |s.rows|, |t.rows|);
    assert AllMatch(t) by {
      forall a | 0 <= a < |t.settlements| ensures Matches(t, t.settlements[a].row, t.settlements[a].transfer) {
        assert Matches(s, s.settlements[a].row, s.settlements[a].transfer);
      }
    }
    assert SettledOnce(t) by { SameSettlements(s, t); }
  }

  lemma SameSettlements(s: State, t: State)
    requires SettledOnce(s) && t.settlements == s.settlements
    requires forall i: nat :: i < |t.rows| && t.rows[i].status == Paid ==> i < |s.rows| && s.rows[i].status == Paid
    ensures SettledOnce(t)
  {
    forall i: nat | i < |t.rows| && t.rows[i].status == Paid ensures exists a: nat :: SettledBy(t, a, i) {
      var a: nat :| SettledBy(s, a, i);
      assert SettledBy(t, a, i);
    }
    forall a: nat, b: nat, i: nat | SettledBy(t, a, i) && SettledBy(t, b, i) ensures a == b {
      assert SettledBy(s, a, i) && SettledBy(s, b, i);
    }
  }

  lemma QuietKeepsPermits(s: State, t: State)
    requires PermitsFit(s) && Quiet(s, t)
    ensures PermitsFit(t)
  {
    forall k: nat | k < |s.permits| ensures t.permits[k] == s.permits[k] {
      assert t.permits[..|s.permits|][k] == s.permits[k];
    }
  }

  lemma QuietKeepsPaying(c: Config, s: State, t: State)
    requires PayingOk(c, s) && Quiet(s, t) && (t.worker == s.worker || WorkerFits(c, t))
    ensures PayingOk(c, t)
  {
    QuietKeepsPermits(s, t);
    assert RefsFit(c, t) by {
      forall i: nat | i < |t.rows| && t.rows[i].status != Paid && t.rows[i].payoutRef.Some?
        ensures SentFor(t, i, t.rows[i].payoutRef.value)
      {
        assert SentFor(s, i, s.rows[i].payoutRef.value);
      }
    }
    if t.worker == s.worker && t.worker.Waiting? && t.worker.act.Sent? {
      assert SentFor(s, s.worker.row, s.worker.act.tx);
    }
  }

  lemma QuietKeeps(c: Config, s: State, t: State)
    requires Sound(c, s) && Quiet(s, t) && (t.worker == s.worker || WorkerFits(c, t))
    ensures Sound(c, t)
  {
    QuietKeepsBooks(s, t);
    QuietKeepsPaying(c, s, t);
  }

  /** One transfer more on the chain, under a hash of its own; nothing recorded. */
  ghost predicate Moves(s: State, t: State, x: Transfer) {
    && FreshTx(s, x.tx) && t.transfers == s.transfers + [x] && t.hashes == s.hashes + {x.tx}
    && t.settlements == s.settlements && t.withdrawals == s.withdrawals && t.rows == s.rows
    && |t.permits| == |s.permits|
    && (forall k :: 0 <= k < |s.permits| ==>
          t.permits[k].row == s.permits[k].row && t.permits[k].to == s.permits[k].to && t.permits[k].amount == s.permits[k].amount)
    && (x.paysFor.Some? ==> x.paysFor.value < |s.rows| && x.to == s.rows[x.paysFor.value].to
                            && x.amount == s.rows[x.paysFor.value].quote)
  }

  lemma MovesKeepsBooks(s: State, t: State, x: Transfer)
    requires BooksOk(s) && Moves(s, t, x)
    ensures BooksOk(t)
  {
    assert AllMatch(t) by {
      forall a | 0 <= a < |t.settlements| ensures Matches(t, t.settlements[a].row, t.settlements[a].transfer) {
        assert Matches(s, s.settlements[a].row, s.settlements[a].transfer);
      }
    }
    assert SettledTotal(s.settlements, t.transfers) == SettledTotal(s.settlements, s.transfers) by {
      assert forall a :: 0 <= a < |s.settlements| ==> Matches(s, s.settlements[a].row, s.settlements[a].transfer);
      SettledGrows(s.settlements, s.transfers, x);
    }
    assert SettledOnce(t) by { SameSettlements(s, t); }
  }

  lemma MovesKeepsPaying(c: Config, s: State, t: State, x: Transfer)
    requires PayingOk(c, s) && Moves(s, t, x) && (t.worker == s.worker || WorkerFits(c, t))
    ensures PayingOk(c, t)
  {
    assert RefsFit(c, t) by {
      forall i: nat | i < |t.rows| && t.rows[i].status != Paid && t.rows[i].payoutRef.Some?
        ensures SentFor(t, i, t.rows[i].payoutRef.value)
      {
        assert SentFor(s, i, s.rows[i].payoutRef.value);
      }
    }
    if t.worker == s.worker && t.worker.Waiting? && t.worker.act.Sent? {
      assert SentFor(s, s.worker.row, s.worker.act.tx);
    }
  }

  lemma MovesKeepsHashes(s: State, t: State, x: Transfer)
    requires HashesOk(s) && Moves(s, t, x)
    ensures HashesOk(t)
  {
  }

  lemma MovesKeeps(c: Config, s: State, t: State, x: Transfer)
    requires Sound(c, s) && Moves(s, t, x) && (t.worker == s.worker || WorkerFits(c, t))
    ensures Sound(c, t)
  {
    MovesKeepsBooks(s, t, x);
    MovesKeepsHashes(s, t, x);
    MovesKeepsPaying(c, s, t, x);
  }

  // ----- what each event is ----------------------------------------------------------------------

  predicate Transfers(e: Event) {
    e.RelayRuns? || e.FloatSpends? || (e.SignerSends? && e.succeeds)
  }

  lemma AroundMoves(c: Config, s: State, e: Event)
    requires Sound(c, s) && Around(c, s, e).Some? && Transfers(e)
    ensures var t := Around(c, s, e).value;
            Moves(s, t, t.transfers[|t.transfers| - 1]) && (t.worker == s.worker || WorkerFits(c, t))
  {
    hide BooksOk, RefsFit;
    var t := Around(c, s, e).value;
    assert t.transfers == s.transfers + [t.transfers[|t.transfers| - 1]];
    if e.RelayRuns? {
      assert s.permits[e.permit].row < |s.rows|;
    }
  }

  lemma AroundIsQuiet(c: Config, s: State, e: Event)
    requires Sound(c, s) && Around(c, s, e).Some? && !Transfers(e)
    ensures var t := Around(c, s, e).value; Quiet(s, t) && (t.worker == s.worker || WorkerFits(c, t))
  {
    var t := Around(c, s, e).value;
    assert t.permits[..|s.permits|] == s.permits;
  }

  lemma DrainIsQuiet(c: Config, s: State, e: Event)
    requires Drain(c, s, e).Some?
    ensures var t := Drain(c, s, e).value; Quiet(s, t) && WorkerFits(c, t)
  {
  }

  lemma ReplyIsQuiet(c: Config, s: State, e: Event)
    requires WorkerOk(s) && Reply(c, s, e).Some? && !(e.ReplyPaid? && e.recorded)
    ensures var t := Reply(c, s, e).value; Quiet(s, t) && WorkerFits(c, t)
  {
    assert s.rows[s.worker.row].status == Submitted;
  }

  lemma ReturnIsQuiet(c: Config, s: State, e: Event)
    requires Settle(c, s, e).Some? && !e.SettlePaid? && !e.ConfirmSent?
    ensures var t := Settle(c, s, e).value; Quiet(s, t) && t.worker == s.worker
  {
  }

  /** The hash of the transfer the signer sent is put on its row. */
  function WithRef(s: State, i: nat, tx: string, w: Worker): State
    requires i < |s.rows|
  {
    s.(rows := s.rows[i := s.rows[i].(payoutRef := Some(tx))], worker := w)
  }

  lemma WithRefKeepsBooks(s: State, i: nat, tx: string, w: Worker)
    requires i < |s.rows| && s.rows[i].status == Submitted && BooksOk(s)
    ensures BooksOk(WithRef(s, i, tx, w))
  {
    var t := WithRef(s, i, tx, w);
    assert AllMatch(t) by {
      forall a | 0 <= a < |t.settlements| ensures Matches(t, t.settlements[a].row, t.settlements[a].transfer) {
        assert Matches(s, s.settlements[a].row, s.settlements[a].transfer);
      }
    }
    assert SettledOnce(t) by { SameSettlements(s, t); }
  }

  lemma WithRefKeepsPaying(c: Config, s: State, i: nat, tx: string, w: Worker)
    requires i < |s.rows| && PayingOk(c, s) && !c.gasfree && SentFor(s, i, tx) && !w.Waiting?
    ensures PayingOk(c, WithRef(s, i, tx, w))
  {
    var t := WithRef(s, i, tx, w);
    forall j: nat | j < |t.rows| && t.rows[j].status != Paid && t.rows[j].payoutRef.Some?
      ensures SentFor(t, j, t.rows[j].payoutRef.value)
    {
      assert j != i ==> SentFor(s, j, s.rows[j].payoutRef.value);
    }
  }

  lemma SentIsRecorded(c: Config, s: State, e: Event)
    requires Sound(c, s) && Good(c, s) && Reply(c, s, e).Some? && e.ReplyPaid? && e.recorded
    ensures Sound(c, Reply(c, s, e).value)
  {
    var i, tx, w := s.worker.row, s.worker.act.tx, Reply(c, s, e).value.worker;
    assert Reply(c, s, e).value == WithRef(s, i, tx, w);
    WithRefKeepsBooks(s, i, tx, w);
    WithRefKeepsPaying(c, s, i, tx, w);
  }

  // ----- settling --------------------------------------------------------------------------------

  /** Recording redemption `i` as paid by transfer `x`, which pays exactly it. */
  ghost predicate CanPay(s: State, i: nat, x: nat, ref: string) {
    && i < |s.rows| && x < |s.transfers| && s.rows[i].status == Submitted
    && SameHash(s.transfers[x].tx, ref) && s.transfers[x].to == s.rows[i].to && s.transfers[x].amount == s.rows[i].quote
  }

  lemma PayKeepsTotals(s: State, i: nat, x: nat, ref: string)
    requires BooksOk(s) && CanPay(s, i, x, ref)
    ensures var t := PayIntent(s, i, x, ref);
            Booked(t.withdrawals, |t.rows|) == SettledTotal(t.settlements, t.transfers)
  {
    var t := PayIntent(s, i, x, ref);
    BookedOne(s.withdrawals, i, s.rows[i].quote, |s.rows|);
    assert t.settlements[..|s.settlements|] == s.settlements;
  }

  lemma PaySettlesOnce(s: State, i: nat, x: nat, ref: string)
    requires BooksOk(s) && CanPay(s, i, x, ref)
    ensures SettledOnce(PayIntent(s, i, x, ref))
  {
    var t, n := PayIntent(s, i, x, ref), |s.settlements|;
    forall j: nat | j < |t.rows| && t.rows[j].status == Paid ensures exists a: nat :: SettledBy(t, a, j) {
      if j == i {
        assert SettledBy(t, n, i);
      } else {
        var a: nat :| SettledBy(s, a, j);
        assert SettledBy(t, a, j);
      }
    }
    forall a: nat, b: nat, j: nat | SettledBy(t, a, j) && SettledBy(t, b, j) ensures a == b {
      assert a < n ==> SettledBy(s, a, j) && Matches(s, s.settlements[a].row, s.settlements[a].transfer);
      assert b < n ==> SettledBy(s, b, j) && Matches(s, s.settlements[b].row, s.settlements[b].transfer);
    }
  }

  lemma PayKeepsBooks(s: State, i: nat, x: nat, ref: string)
    requires BooksOk(s) && CanPay(s, i, x, ref)
    ensures BooksOk(PayIntent(s, i, x, ref))
  {
    var t, n := PayIntent(s, i, x, ref), |s.settlements|;
    PayKeepsTotals(s, i, x, ref);
    PaySettlesOnce(s, i, x, ref);
    assert AllMatch(t) by {
      forall a | 0 <= a < |t.settlements| ensures Matches(t, t.settlements[a].row, t.settlements[a].transfer) {
        assert a < n ==> Matches(s, s.settlements[a].row, s.settlements[a].transfer);
      }
    }
  }

  lemma PayKeepsPaying(c: Config, s: State, i: nat, x: nat, ref: string)
    requires PayingOk(c, s) && CanPay(s, i, x, ref) && s.worker.Idle?
    ensures PayingOk(c, PayIntent(s, i, x, ref))
  {
    var t := PayIntent(s, i, x, ref);
    assert RefsFit(c, t) by {
      forall j: nat | j < |t.rows| && t.rows[j].status != Paid && t.rows[j].payoutRef.Some?
        ensures SentFor(t, j, t.rows[j].payoutRef.value)
      {
        assert SentFor(s, j, s.rows[j].payoutRef.value);
      }
    }
  }

  lemma PayKeepsSound(c: Config, s: State, i: nat, x: nat, ref: string)
    requires Sound(c, s) && CanPay(s, i, x, ref) && s.worker.Idle?
    ensures Sound(c, PayIntent(s, i, x, ref))
  {
    hide BooksOk, PayingOk;
    PayKeepsBooks(s, i, x, ref);
    PayKeepsPaying(c, s, i, x, ref);
  }

  lemma SettleKeepsSound(c: Config, s: State, e: Event)
    requires Sound(c, s) && Settle(c, s, e).Some?
    ensures Sound(c, Settle(c, s, e).value)
  {
    if e.SettlePaid? {
      PayKeepsSound(c, s, e.row, Find(s.transfers, s.rows[e.row], e.hash), e.hash);
    } else if e.ConfirmSent? {
      var ref := s.rows[e.row].payoutRef.value;
      assert SentFor(s, e.row, ref);
      PayKeepsSound(c, s, e.row, FindTx(s.transfers, ref), ref);
    } else {
      ReturnIsQuiet(c, s, e);
      QuietKeeps(c, s, Settle(c, s, e).value);
    }
  }

  lemma StepKeepsSound(c: Config, s: State, e: Event)
    requires Sound(c, s) && Good(c, s) && Step(c, s, e).Some?
    ensures Sound(c, Step(c, s, e).value)
  {
    var t := Step(c, s, e).value;
    if Around(c, s, e).Some? {
      if Transfers(e) {
        AroundMoves(c, s, e);
        MovesKeeps(c, s, t, t.transfers[|t.transfers| - 1]);
      } else {
        AroundIsQuiet(c, s, e);
        QuietKeeps(c, s, t);
      }
    } else if Drain(c, s, e).Some? {
      DrainIsQuiet(c, s, e);
      QuietKeeps(c, s, t);
    } else if Reply(c, s, e).Some? {
      if e.ReplyPaid? && e.recorded {
        SentIsRecorded(c, s, e);
      } else {
        ReplyIsQuiet(c, s, e);
        QuietKeeps(c, s, t);
      }
    } else {
      SettleKeepsSound(c, s, e);
    }
  }

  lemma {:induction false} RunKeepsSound(c: Config, events: seq<Event>)
    requires Run(c, START, events).Some?
    ensures Good(c, Run(c, START, events).value) && Sound(c, Run(c, START, events).value)
  {
    RunKeepsGood(c, START, events);
    if events != [] {
      var n := |events| - 1;
      RunKeepsSound(c, events[..n]);
      StepKeepsSound(c, Run(c, START, events[..n]).value, events[n]);
    }
  }

  /** Over every run, whatever the relay names: a redemption is recorded as paid exactly when it was settled
      once, by a confirmed transfer of exactly its quote to its address, and its withdrawal is booked; and the
      withdrawals come to the sum of those transfers. */
  lemma BooksMatchTheTransfers(c: Config, events: seq<Event>)
    requires Run(c, START, events).Some?
    ensures BooksOk(Run(c, START, events).value)
  {
    RunKeepsSound(c, events);
  }

  // ----- one transfer, one redemption ------------------------------------------------------------

  ghost predicate Distinct(s: State) {
    forall a, b :: 0 <= a < b < |s.settlements| ==> s.settlements[a].transfer != s.settlements[b].transfer
  }

  /** Another redemption already has this transaction for its payment, in whatever spelling. */
  ghost predicate TakenInSomeSpelling(s: State, i: nat, hash: string) {
    exists j: nat :: j < |s.rows| && j != i && s.rows[j].payoutRef.Some? && SameHash(s.rows[j].payoutRef.value, hash)
  }

  lemma TakenBreaksIt(c: Config, s: State, i: nat, x: nat, hash: string)
    requires Sound(c, s) && c.gasfree && i < |s.rows| && x < |s.transfers| && SameHash(s.transfers[x].tx, hash)
    requires TakenInSomeSpelling(s, i, hash)
    ensures !Distinct(PayIntent(s, i, x, hash))
  {
    var t := PayIntent(s, i, x, hash);
    var j: nat :| j < |s.rows| && j != i && s.rows[j].payoutRef.Some? && SameHash(s.rows[j].payoutRef.value, hash);
    TakenIsSettled(c, s, j, x);
    hide Sound;
    var a: nat :| SettledBy(s, a, j) && s.settlements[a].transfer == x;
    assert t.settlements[a].transfer == t.settlements[|s.settlements|].transfer;
  }

  lemma UntakenKeepsIt(s: State, i: nat, x: nat, hash: string)
    requires AllMatch(s) && Distinct(s) && i < |s.rows| && x < |s.transfers| && SameHash(s.transfers[x].tx, hash)
    requires s.rows[i].status == Submitted && !TakenInSomeSpelling(s, i, hash)
    ensures Distinct(PayIntent(s, i, x, hash))
  {
    forall a | 0 <= a < |s.settlements| ensures s.settlements[a].transfer != x {
      var j := s.settlements[a].row;
      assert Matches(s, j, s.settlements[a].transfer) && j != i;
      assert !SameHash(s.rows[j].payoutRef.value, hash);
    }
  }

  /** Two redemptions came to share a transfer just when the name given for the second one's payment was
      another spelling of the first one's. */
  lemma SettlingStaysDistinct(c: Config, events: seq<Event>, s: State, i: nat, hash: string)
    requires Run(c, START, events) == Some(s) && Settle(c, s, SettlePaid(i, hash)).Some? && Distinct(s)
    ensures Distinct(Settle(c, s, SettlePaid(i, hash)).value) <==> !TakenInSomeSpelling(s, i, hash)
  {
    var x := Find(s.transfers, s.rows[i], hash);
    assert Settle(c, s, SettlePaid(i, hash)) == Some(PayIntent(s, i, x, hash)) && Settling(s, i);
    hide Settle;
    RunKeepsSound(c, events);
    GasFreeOnly(c, s, i);
    if TakenInSomeSpelling(s, i, hash) {
      TakenBreaksIt(c, s, i, x, hash);
    } else {
      UntakenKeepsIt(s, i, x, hash);
    }
  }

  /** A permit being settled means the GasFree rail. */
  lemma GasFreeOnly(c: Config, s: State, i: nat)
    requires Good(c, s) && Settling(s, i)
    ensures c.gasfree
  {
    assert RowOk(i, s.rows[i], i in s.calls, s.permits, s.transfers, s.now);
    var k: nat :| Recorded(s.permits, s.now, i, s.rows[i], k);
  }

  /** Redemption `j`, paid under another spelling of transfer `x`, was settled by `x`. */
  lemma TakenIsSettled(c: Config, s: State, j: nat, x: nat)
    requires Sound(c, s) && c.gasfree && j < |s.rows| && x < |s.transfers| && s.rows[j].payoutRef.Some?
    requires SameHash(s.rows[j].payoutRef.value, s.transfers[x].tx)
    ensures exists a: nat :: SettledBy(s, a, j) && s.settlements[a].transfer == x
  {
    assert s.rows[j].status == Paid;
    var a: nat :| SettledBy(s, a, j);
    var y := s.settlements[a].transfer;
    assert Matches(s, j, y);
    assert s.transfers[x].tx == Lower(s.transfers[x].tx) && s.transfers[y].tx == Lower(s.transfers[y].tx);
  }

  ghost predicate NamesOnly(events: seq<Event>, names: iset<string>) {
    forall n :: 0 <= n < |events| && events[n].SettlePaid? ==> events[n].hash in names
  }

  ghost predicate OneSpelling(names: iset<string>) {
    forall g, h :: g in names && h in names && SameHash(g, h) ==> g == h
  }

  /** Every reference on the GasFree rail is a name the relay gave; on the TRX rail each redemption was settled
      by what was sent for it. */
  ghost predicate Named(c: Config, s: State, names: iset<string>) {
    && (c.gasfree ==> forall i: nat :: i < |s.rows| && s.rows[i].payoutRef.Some? ==> s.rows[i].payoutRef.value in names)
    && (!c.gasfree ==> forall a :: 0 <= a < |s.settlements| && s.settlements[a].transfer < |s.transfers| ==>
          s.transfers[s.settlements[a].transfer].paysFor == Some(s.settlements[a].row))
  }

  lemma QuietIsNamed(c: Config, s: State, t: State, names: iset<string>)
    requires Named(c, s, names) && Quiet(s, t)
    ensures Named(c, t, names)
  {
  }

  lemma MovesIsNamed(c: Config, s: State, t: State, x: Transfer, names: iset<string>)
    requires AllMatch(s) && Named(c, s, names) && Moves(s, t, x)
    ensures Named(c, t, names)
  {
    forall a | 0 <= a < |t.settlements| ensures t.settlements[a].transfer < |s.transfers| {
      assert Matches(s, s.settlements[a].row, s.settlements[a].transfer);
    }
  }

  lemma UnsettledStepIsNamed(c: Config, s: State, e: Event, names: iset<string>)
    requires Sound(c, s) && Good(c, s) && Step(c, s, e).Some? && Named(c, s, names) && !e.SettlePaid? && !e.ConfirmSent?
    ensures var t := Step(c, s, e).value; Named(c, t, names) && t.settlements == s.settlements
  {
    var t := Step(c, s, e).value;
    if Around(c, s, e).Some? {
      if Transfers(e) {
        AroundMoves(c, s, e);
        MovesIsNamed(c, s, t, t.transfers[|t.transfers| - 1], names);
      } else {
        AroundIsQuiet(c, s, e);
        QuietIsNamed(c, s, t, names);
      }
    } else if Drain(c, s, e).Some? {
      DrainIsQuiet(c, s, e);
      QuietIsNamed(c, s, t, names);
    } else if Reply(c, s, e).Some? {
      if e.ReplyPaid? && e.recorded {
        assert SentFor(s, s.worker.row, s.worker.act.tx);
        assert t == WithRef(s, s.worker.row, s.worker.act.tx, t.worker);
      } else {
        ReplyIsQuiet(c, s, e);
        QuietIsNamed(c, s, t, names);
      }
    } else {
      ReturnIsQuiet(c, s, e);
      QuietIsNamed(c, s, t, names);
    }
  }

  lemma PaidIsNamed(c: Config, s: State, i: nat, x: nat, ref: string, names: iset<string>)
    requires Sound(c, s) && Named(c, s, names) && i < |s.rows| && x < |s.transfers|
    requires if c.gasfree then ref in names else s.transfers[x].paysFor == Some(i)
    ensures Named(c, PayIntent(s, i, x, ref), names)
  {
  }

  lemma SettledStepIsNamed(c: Config, s: State, e: Event, names: iset<string>)
    requires Sound(c, s) && Good(c, s) && Settle(c, s, e).Some? && Named(c, s, names)
    requires (e.SettlePaid? && e.hash in names) || e.ConfirmSent?
    ensures Named(c, Settle(c, s, e).value, names)
  {
    if e.ConfirmSent? {
      var ref := s.rows[e.row].payoutRef.value;
      assert SentFor(s, e.row, ref);
      PaidIsNamed(c, s, e.row, FindTx(s.transfers, ref), ref, names);
    } else {
      GasFreeOnly(c, s, e.row);
      PaidIsNamed(c, s, e.row, Find(s.transfers, s.rows[e.row], e.hash), e.hash, names);
    }
  }

  /** On the TRX rail two redemptions never share one: each was settled by what was sent for it. */
  lemma OwnTransfersAreDistinct(c: Config, s: State, names: iset<string>)
    requires Sound(c, s) && !c.gasfree && Named(c, s, names)
    ensures Distinct(s)
  {
    forall a, b | 0 <= a < b < |s.settlements| ensures s.settlements[a].transfer != s.settlements[b].transfer {
      assert Matches(s, s.settlements[a].row, s.settlements[a].transfer);
      assert SettledBy(s, a, s.settlements[a].row) && !SettledBy(s, b, s.settlements[a].row);
    }
  }

  lemma SettledOnceMore(c: Config, events: seq<Event>, s: State, e: Event, names: iset<string>)
    requires Run(c, START, events) == Some(s) && c.gasfree && Named(c, s, names) && Distinct(s) && OneSpelling(names)
    requires Settle(c, s, e).Some? && ((e.SettlePaid? && e.hash in names) || e.ConfirmSent?)
    ensures Distinct(Settle(c, s, e).value)
  {
    RunKeepsSound(c, events);
    assert !e.ConfirmSent?;
    SettlingStaysDistinct(c, events, s, e.row, e.hash);
  }

  lemma StepStaysDistinct(c: Config, events: seq<Event>, s: State, e: Event, names: iset<string>)
    requires Run(c, START, events) == Some(s) && Step(c, s, e).Some? && Named(c, s, names) && Distinct(s)
    requires OneSpelling(names) && (e.SettlePaid? ==> e.hash in names)
    ensures var t := Step(c, s, e).value; Named(c, t, names) && Distinct(t)
  {
    var t := Step(c, s, e).value;
    RunKeepsSound(c, events);
    if e.SettlePaid? || e.ConfirmSent? {
      assert Settle(c, s, e) == Some(t);
      SettledStepIsNamed(c, s, e, names);
      if c.gasfree {
        SettledOnceMore(c, events, s, e, names);
      } else {
        StepKeepsSound(c, s, e);
        OwnTransfersAreDistinct(c, t, names);
      }
    } else {
      UnsettledStepIsNamed(c, s, e, names);
    }
  }

  lemma {:induction false} OneSpellingIsDistinct(c: Config, events: seq<Event>, names: iset<string>)
    requires Run(c, START, events).Some? && NamesOnly(events, names) && OneSpelling(names)
    ensures var s := Run(c, START, events).value; Named(c, s, names) && Distinct(s)
  {
    if events != [] {
      var n := |events| - 1;
      assert forall m :: 0 <= m < n ==> events[..n][m] == events[m];
      OneSpellingIsDistinct(c, events[..n], names);
      StepStaysDistinct(c, events[..n], Run(c, START, events[..n]).value, events[n], names);
    }
  }

  // ----- two spellings ---------------------------------------------------------------------------

  lemma LowerTwice(s: string)
    ensures Lower(Lower(s)) == Lower(s)
  {
  }

  /** One redemption is signed, run and settled; the other is signed and recorded under a trace of its own. */
  function FirstSettled(g: string): seq<Event> {
    TwoDue(1) + [StartDrain] + [Claim] + [SignerSigns(0, 0, 600)] + [ReplySubmitted(0, true)] + [RelayRuns(0, Lower(g))]
    + [SettlePaid(0, g)]
  }

  function SecondSigned(g: string): seq<Event> {
    FirstSettled(g) + [StartDrain] + [Claim] + [SignerSigns(1, 1, 600)] + [ReplySubmitted(1, true)]
  }

  const RAIL := Config(true, 2)

  function PaidRow(g: string): Row {
    Due(1).(status := Paid, payoutRef := Some(g), traceId := Some(0), permitNonce := Some(0), permitDeadline := Some(600))
  }

  function AfterFirst(g: string): State {
    START.(rows := [PaidRow(g), Due(1)], withdrawals := map[0 := 1], nonce := 1, permits := [Permit(0, "a", 1, 0, 600, true)],
           transfers := [Transfer(Lower(g), "a", 1, 0, Some(0), Some(0))], hashes := {Lower(g)}, settlements := [Settlement(0, 0)])
  }

  lemma FirstRuns(g: string)
    ensures Run(RAIL, START, TwoDue(1) + [StartDrain] + [Claim] + [SignerSigns(0, 0, 600)] + [ReplySubmitted(0, true)])
            == Some(START.(rows := [Due(1).(status := Submitted, traceId := Some(0), permitNonce := Some(0), permitDeadline := Some(600)), Due(1)],
                           permits := [Permit(0, "a", 1, 0, 600, false)]))
  {
    var es, u, p := TwoDue(1) + [StartDrain] + [Claim], Due(1).(status := Submitted), Permit(0, "a", 1, 0, 600, false);
    var s := START.(rows := [u, Due(1)], calls := map[0 := None], worker := Waiting(0, [1], 0, NotYet));
    var t := START.(rows := [u, Due(1)], permits := [p], worker := Waiting(0, [1], 0, Signed(0)));
    FirstClaimed(RAIL, 1);
    assert [] + [p] == [p];
    OneMore(RAIL, START, es, s, SignerSigns(0, 0, 600), t);
    var v := u.(traceId := Some(0), permitNonce := Some(0), permitDeadline := Some(600));
    assert [u, Due(1)][0 := v] == [v, Due(1)];
    OneMore(RAIL, START, es + [SignerSigns(0, 0, 600)], t, ReplySubmitted(0, true), START.(rows := [v, Due(1)], permits := [p]));
  }

  /** The first redemption's permit is signed and recorded, then run. */
  function AfterRun(g: string): State {
    START.(rows := [PaidRow(g).(status := Submitted, payoutRef := None), Due(1)], nonce := 1,
           permits := [Permit(0, "a", 1, 0, 600, true)], transfers := [Transfer(Lower(g), "a", 1, 0, Some(0), Some(0))],
           hashes := {Lower(g)})
  }

  lemma FirstIsRun(g: string, s: State)
    requires s == START.(rows := [PaidRow(g).(status := Submitted, payoutRef := None), Due(1)], permits := [Permit(0, "a", 1, 0, 600, false)])
    ensures Step(RAIL, s, RelayRuns(0, Lower(g))) == Some(AfterRun(g))
  {
    var p, x := Permit(0, "a", 1, 0, 600, false), Transfer(Lower(g), "a", 1, 0, Some(0), Some(0));
    LowerTwice(g);
    assert [p][0 := p.(ran := true)] == [p.(ran := true)] && [] + [x] == [x] && {} + {Lower(g)} == {Lower(g)};
  }

  lemma FirstIsPaid(g: string)
    ensures Step(RAIL, AfterRun(g), SettlePaid(0, g)) == Some(AfterFirst(g))
  {
    var x, v := Transfer(Lower(g), "a", 1, 0, Some(0), Some(0)), PaidRow(g).(status := Submitted, payoutRef := None);
    LowerTwice(g);
    assert [v, Due(1)][0 := PaidRow(g)] == [PaidRow(g), Due(1)] && [] + [Settlement(0, 0)] == [Settlement(0, 0)];
    assert [x][..0] == [] && Find([x], v, g) == 0;
  }

  lemma FirstIsSettled(g: string)
    ensures Run(RAIL, START, FirstSettled(g)) == Some(AfterFirst(g))
  {
    hide Step;
    var es := TwoDue(1) + [StartDrain] + [Claim] + [SignerSigns(0, 0, 600)] + [ReplySubmitted(0, true)];
    var s := START.(rows := [PaidRow(g).(status := Submitted, payoutRef := None), Due(1)], permits := [Permit(0, "a", 1, 0, 600, false)]);
    FirstRuns(g);
    FirstIsRun(g, s);
    FirstIsPaid(g);
    OneMore(RAIL, START, es, s, RelayRuns(0, Lower(g)), AfterRun(g));
    OneMore(RAIL, START, es + [RelayRuns(0, Lower(g))], AfterRun(g), SettlePaid(0, g), AfterFirst(g));
  }

  function SecondRow(status: Status): Row {
    Due(1).(status := status, traceId := Some(1), permitNonce := Some(1), permitDeadline := Some(600))
  }

  lemma SecondIsDue(g: string)
    ensures Run(RAIL, START, FirstSettled(g) + [StartDrain]) == Some(AfterFirst(g).(worker := Draining([1], 1)))
  {
    var s := AfterFirst(g);
    FirstIsSettled(g);
    TwoRows(PaidRow(g), Due(1), 0);
    assert [] + [1] == [1];
    OneMore(RAIL, START, FirstSettled(g), s, StartDrain, s.(worker := Draining([1], 1)));
  }

  lemma SecondIsClaimed(g: string)
    ensures Run(RAIL, START, FirstSettled(g) + [StartDrain] + [Claim])
            == Some(AfterFirst(g).(rows := [PaidRow(g), Due(1).(status := Submitted)], calls := map[1 := None],
                                   worker := Waiting(1, [], 1, NotYet)))
  {
    var s, u := AfterFirst(g), Due(1).(status := Submitted);
    SecondIsDue(g);
    assert s.rows[1 := u] == [PaidRow(g), u] && [1][1..] == [];
    OneMore(RAIL, START, FirstSettled(g) + [StartDrain], s.(worker := Draining([1], 1)), Claim,
         s.(rows := [PaidRow(g), u], calls := map[1 := None], worker := Waiting(1, [], 1, NotYet)));
  }

  lemma SecondIsSigned(g: string)
    ensures Run(RAIL, START, SecondSigned(g))
            == Some(AfterFirst(g).(rows := [PaidRow(g), SecondRow(Submitted)],
                                   permits := [Permit(0, "a", 1, 0, 600, true), Permit(1, "a", 1, 1, 600, false)]))
  {
    var es := FirstSettled(g) + [StartDrain] + [Claim];
    var u, v := Due(1).(status := Submitted), SecondRow(Submitted);
    var p, q := Permit(0, "a", 1, 0, 600, true), Permit(1, "a", 1, 1, 600, false);
    var s := AfterFirst(g).(rows := [PaidRow(g), u], calls := map[1 := None], worker := Waiting(1, [], 1, NotYet));
    var t := AfterFirst(g).(rows := [PaidRow(g), u], permits := [p, q], worker := Waiting(1, [], 1, Signed(1)));
    SecondIsClaimed(g);
    assert [p] + [q] == [p, q];
    OneMore(RAIL, START, es, s, SignerSigns(1, 1, 600), t);
    assert [PaidRow(g), u][1 := v] == [PaidRow(g), v];
    OneMore(RAIL, START, es + [SignerSigns(1, 1, 600)], t, ReplySubmitted(1, true),
         AfterFirst(g).(rows := [PaidRow(g), v], permits := [p, q]));
  }

  /** Any two spellings of one hash will do: the second redemption's own permit has not run, and it is
      recorded as paid by the first one's transfer. */
  lemma TwoSpellingsShareATransfer(g: string, h: string)
    requires SameHash(g, h) && g != h
    ensures var run := Run(RAIL, START, SecondSigned(g) + [SettlePaid(1, h)]);
            && run.Some? && var t := run.value;
            && !Distinct(t) && |t.rows| == 2 && t.rows[1].status == Paid
            && |t.permits| == 2 && t.permits[1].row == 1 && !t.permits[1].ran
  {
    var v, x := SecondRow(Submitted), Transfer(Lower(g), "a", 1, 0, Some(0), Some(0));
    var s := AfterFirst(g).(rows := [PaidRow(g), v], permits := [Permit(0, "a", 1, 0, 600, true), Permit(1, "a", 1, 1, 600, false)]);
    SecondIsSigned(g);
    LowerTwice(g);
    assert [x][..0] == [] && Find([x], v, h) == 0;
    var t := PayIntent(s, 1, 0, h);
    OneMore(RAIL, START, SecondSigned(g), s, SettlePaid(1, h), t);
    assert t.settlements[0].transfer == t.settlements[1].transfer;
  }

  lemma SpellingsAreNamed(g: string, h: string, names: iset<string>)
    requires g in names && h in names
    ensures NamesOnly(SecondSigned(g) + [SettlePaid(1, h)], names)
  {
  }

  /** No two redemptions share a transfer in any run whose relay names only `names`, if and only if `names`
      spells each hash in one way. */
  lemma DistinctIffOneSpelling(names: iset<string>)
    ensures OneSpelling(names) <==>
            forall c, events :: NamesOnly(events, names) && Run(c, START, events).Some? ==> Distinct(Run(c, START, events).value)
  {
    if OneSpelling(names) {
      forall c, events | NamesOnly(events, names) && Run(c, START, events).Some? ensures Distinct(Run(c, START, events).value) {
        OneSpellingIsDistinct(c, events, names);
      }
    } else {
      var g, h :| g in names && h in names && SameHash(g, h) && g != h;
      TwoSpellingsShareATransfer(g, h);
      SpellingsAreNamed(g, h, names);
    }
  }
}
