/**
 One payout permit at a time.

 While a permit may still run, a second one would carry the same nonce, and after a refusal the chain could
 no longer say which of the two ran. The gate at the top of a drain pass keeps that from happening in every run
 in which none of four faults happens: at most one permit is alive, unclear replies and a signer that signs
 soon after the treasury gave up on it included.
 */
module PayoutPermits {
  import opened Basics
  import opened Payouts

  /** Signed, not run, and not past its deadline. */
  predicate Live(p: Permit, now: int) {
    !p.ran && now <= p.deadline
  }

  /** What can go wrong with a permit: the worker dies while it waits on the signer, the signer acts on a call more
      than the grace after it was given up, a reply is not recorded, or a payout is marked paid by a transfer that
      is not its own. */
  datatype Fault = WorkerDied | SignedLate | ReplyLost | PaidByAnother

  function FaultOf(s: State, e: Event): Option<Fault> {
    match e
    case ReplySubmitted(_, recorded) => if recorded then None else Some(ReplyLost)
    case ReplyRelayRefused(recorded) => if recorded then None else Some(ReplyLost)
    case ReplyAmbiguous(recorded) => if recorded then None else Some(ReplyLost)
    case Crash => if s.worker.Waiting? then Some(WorkerDied) else None
    case SettlePaid(i, hash) =>
      var x := if i < |s.rows| then Find(s.transfers, s.rows[i], hash) else |s.transfers|;
      if x < |s.transfers| && s.transfers[x].paysFor != Some(i) then Some(PaidByAnother) else None
    case SignerSigns(i, _, _) =>
      if i in s.calls && s.calls[i].Some? && s.now >= s.calls[i].value + DEADLINE_GRACE_SECS then Some(SignedLate) else None
    case _ => None
  }

  predicate Tidy(s: State, e: Event) {
    FaultOf(s, e).None?
  }

  /** Nothing goes wrong in the run but in these ways. */
  ghost predicate UsesOnly(c: Config, events: seq<Event>, faults: set<Fault>) {
    forall n :: 0 <= n < |events| && Run(c, START, events[..n]).Some? ==>
      var fault := FaultOf(Run(c, START, events[..n]).value, events[n]);
      fault.Some? ==> fault.value in faults
  }

  ghost predicate TidyRun(c: Config, events: seq<Event>) {
    UsesOnly(c, events, {})
  }

  /** A call the signer may still act on although the treasury gave up on it. */
  predicate Late(s: State, i: nat) {
    i in s.calls && s.calls[i].Some? && s.now < s.calls[i].value + DEADLINE_GRACE_SECS
  }

  /** Where the gate sees permit `k`, or why there is no gate yet. */
  predicate Guarded(s: State, k: nat)
    requires k < |s.permits| && s.permits[k].row < |s.rows|
  {
    var i := s.permits[k].row;
    var r := s.rows[i];
    && r.status == Submitted && r.payoutRef == None
    && (|| (s.worker.Waiting? && s.worker.row == i && s.worker.act == Signed(k))
        || r.permitNonce.Some?
        || (r.permitDeadline.Some? && r.permitDeadline.value > s.permits[k].deadline))
  }

  ghost predicate CallsOk(s: State) {
    forall i :: i in s.calls ==>
      && i < |s.rows| && s.rows[i].status == Submitted && s.rows[i].payoutRef == None
      && (s.calls[i] == None ==> s.worker.Waiting? && s.worker.row == i && s.worker.act == NotYet)
      && (s.calls[i].Some? ==>
            && s.calls[i].value <= s.now
            && s.rows[i].permitDeadline == Some(s.calls[i].value + LONGEST_PERMIT_SECS + DEADLINE_GRACE_SECS)
            && (s.worker.Waiting? ==> s.worker.row != i))
  }

  ghost predicate One(s: State) {
    && CallsOk(s)
    && !(s.worker.Waiting? && s.worker.act.Sent?)
    && (s.worker.Waiting? && s.worker.act == NotYet ==> s.worker.row in s.calls && s.calls[s.worker.row] == None)
    && (forall k: nat :: k < |s.permits| ==>
          s.permits[k].row < |s.rows| && s.permits[k].deadline <= s.now + LONGEST_PERMIT_SECS)
    && (forall k: nat :: k < |s.permits| && Live(s.permits[k], s.now) ==> Guarded(s, k))
    && (forall j: nat, k: nat :: j < |s.permits| && k < |s.permits| && Live(s.permits[j], s.now) && Live(s.permits[k], s.now)
                                 ==> j == k)
    && (forall k: nat :: k < |s.permits| && Live(s.permits[k], s.now) && !s.worker.Idle?
                         ==> s.worker.Waiting? && s.worker.act == Signed(k))
    && (forall i: nat :: Late(s, i) ==> s.worker.Idle?)
    && (forall i: nat, k: nat :: Late(s, i) && k < |s.permits| ==> !Live(s.permits[k], s.now))
    && (forall i: nat, j: nat :: Late(s, i) && Late(s, j) ==> i == j)
  }

  /** Nothing but time, the permits that have run, and the rows of other redemptions moves. */
  ghost predicate Onward(s: State, t: State) {
    && t.now >= s.now && t.calls == s.calls && t.worker == s.worker && |t.permits| == |s.permits| && |t.rows| >= |s.rows|
    && (forall k :: 0 <= k < |s.permits| ==> t.permits[k] == s.permits[k] || t.permits[k] == s.permits[k].(ran := true))
    && (forall i :: 0 <= i < |s.rows| && s.rows[i].status == Submitted ==> t.rows[i] == s.rows[i])
  }

  lemma OnwardKeepsOne(s: State, t: State)
    requires One(s) && Onward(s, t)
    ensures One(t)
  {
    forall i: nat | Late(t, i) ensures Late(s, i) {}
    forall k: nat | k < |t.permits| && Live(t.permits[k], t.now) ensures Live(s.permits[k], s.now) && Guarded(t, k) {
      assert Guarded(s, k);
    }
  }

  lemma AroundKeepsOne(c: Config, s: State, e: Event)
    requires c.gasfree && One(s) && Around(c, s, e).Some? && !e.SignerSigns?
    ensures One(Around(c, s, e).value)
  {
    OnwardKeepsOne(s, Around(c, s, e).value);
  }

  lemma SigningKeepsOne(c: Config, s: State, e: Event)
    requires c.gasfree && One(s) && Tidy(s, e) && e.SignerSigns? && Around(c, s, e).Some?
    ensures One(Around(c, s, e).value)
  {
    var t := Around(c, s, e).value;
    var i, n := e.row, |s.permits|;
    assert i in s.calls;
    if s.calls[i] == None {
      assert s.worker.Waiting? && s.worker.row == i && s.worker.act == NotYet;
      assert t.worker.act == Signed(n);
    } else {
      assert Late(s, i);
    }
    forall k: nat | k < n ensures t.permits[k] == s.permits[k] && !Live(t.permits[k], t.now) {}
    forall j: nat ensures !Late(t, j) {
      if Late(t, j) { assert Late(s, j) && j != i; }
    }
    assert Live(t.permits[n], t.now) ==> Guarded(t, n);
  }

  /** The gate: with no row in doubt, nothing is alive and no late call is left. */
  lemma GateKeepsOne(c: Config, s: State)
    requires c.gasfree && One(s) && Drain(c, s, StartDrain).Some?
    ensures One(Drain(c, s, StartDrain).value)
  {
    var t := Drain(c, s, StartDrain).value;
    assert forall i :: 0 <= i < |s.rows| ==> !InDoubt(s.rows[i], s.now);
    forall k: nat | k < |s.permits| ensures !Live(t.permits[k], t.now) {
      assert Live(s.permits[k], s.now) ==> Guarded(s, k) && InDoubt(s.rows[s.permits[k].row], s.now);
    }
    forall i: nat ensures !Late(t, i) {
      if i in s.calls && s.calls[i].Some? { assert !InDoubt(s.rows[i], s.now); }
    }
  }

  /** Stopping a pass that is not waiting on the signer. */
  lemma StopKeepsOne(s: State, w: Worker)
    requires One(s) && !s.worker.Waiting? && (w.Idle? || s.worker.Draining?) && !w.Waiting?
    ensures One(s.(worker := w))
  {
    var t := s.(worker := w);
    forall i: nat | Late(t, i) ensures Late(s, i) {}
    forall k: nat | k < |t.permits| && Live(t.permits[k], t.now) ensures Guarded(t, k) {
      assert Guarded(s, k);
    }
  }

  /** During a pass nothing is alive and no call is late. */
  lemma PassIsClear(s: State)
    requires One(s) && s.worker.Draining?
    ensures forall k: nat :: k < |s.permits| ==> !Live(s.permits[k], s.now)
    ensures forall i: nat :: !Late(s, i)
  {
  }

  lemma PendingIsNotCalled(c: Config, s: State, i: nat)
    requires Good(c, s) && i < |s.rows| && s.rows[i].status == Pending
    ensures i !in s.calls && s.rows[i].payoutRef == None
  {
    assert RowOk(i, s.rows[i], i in s.calls, s.permits, s.transfers, s.now);
  }

  lemma ClaimKeepsOne(c: Config, s: State)
    requires c.gasfree && Good(c, s) && One(s) && Drain(c, s, Claim).Some?
    ensures One(Drain(c, s, Claim).value)
  {
    var t := Drain(c, s, Claim).value;
    PassIsClear(s);
    PendingIsNotCalled(c, s, s.worker.queue[0]);
    hide Good;
    forall i: nat ensures !Late(t, i) { assert !Late(s, i); }
  }

  lemma LostClaimKeepsOne(c: Config, s: State, e: Event)
    requires c.gasfree && Good(c, s) && One(s) && Drain(c, s, e).Some? && e.ClaimErrors?
    ensures One(Drain(c, s, e).value)
  {
    var t, i := Drain(c, s, e).value, s.worker.queue[0];
    PassIsClear(s);
    if s.rows[i].status == Pending {
      PendingIsNotCalled(c, s, i);
    }
    hide Good;
    forall j: nat ensures !Late(t, j) { assert !Late(s, j); }
  }

  lemma DrainKeepsOne(c: Config, s: State, e: Event)
    requires c.gasfree && Good(c, s) && One(s) && Tidy(s, e) && Drain(c, s, e).Some?
    ensures One(Drain(c, s, e).value)
  {
    if e.StartDrain? {
      GateKeepsOne(c, s);
    } else if e.Claim? {
      ClaimKeepsOne(c, s);
    } else if e.ClaimErrors? {
      LostClaimKeepsOne(c, s, e);
    } else {
      StopKeepsOne(s, Drain(c, s, e).value.worker);
    }
  }

  lemma SignedReplyKeepsOne(c: Config, s: State, e: Event)
    requires c.gasfree && Good(c, s) && One(s) && Tidy(s, e) && Reply(c, s, e).Some?
    requires e.ReplySubmitted? || e.ReplyRelayRefused?
    ensures One(Reply(c, s, e).value)
  {
    var t := Reply(c, s, e).value;
    forall i: nat | Late(t, i) ensures Late(s, i) {}
    forall k: nat | k < |t.permits| && Live(t.permits[k], t.now) ensures Guarded(t, k) {
      assert Guarded(s, k);
    }
  }

  /** While the signer has not acted nothing is alive, and no other call is late. */
  lemma NotYetIsClear(s: State)
    requires One(s) && s.worker.Waiting? && s.worker.act.NotYet?
    ensures forall k: nat :: k < |s.permits| ==> !Live(s.permits[k], s.now)
    ensures forall i: nat :: !Late(s, i)
  {
  }

  /** The row the worker waits on is let go; nothing is alive or late. */
  lemma ClearKeepsOne(s: State, t: State, i: nat)
    requires One(s) && i < |s.rows| && t.now == s.now && t.permits == s.permits && !t.worker.Waiting? && |t.rows| == |s.rows|
    requires t.calls == s.calls - {i} && forall j :: 0 <= j < |s.rows| && j != i ==> t.rows[j] == s.rows[j]
    requires forall k: nat :: k < |s.permits| ==> !Live(s.permits[k], s.now)
    requires (forall j: nat :: !Late(s, j)) && (forall j :: j in s.calls && j != i ==> s.calls[j].Some?)
    ensures One(t)
  {
    forall j: nat ensures !Late(t, j) { assert !Late(s, j); }
  }

  lemma UnsignedReplyKeepsOne(c: Config, s: State, e: Event)
    requires c.gasfree && One(s) && Reply(c, s, e).Some? && (e.ReplyNotActive? || e.ReplyUnsigned?)
    ensures One(Reply(c, s, e).value)
  {
    NotYetIsClear(s);
    ClearKeepsOne(s, Reply(c, s, e).value, s.worker.row);
  }

  lemma UnclearReplyKeepsOne(c: Config, s: State, e: Event)
    requires c.gasfree && Good(c, s) && One(s) && Tidy(s, e) && Reply(c, s, e).Some? && e.ReplyAmbiguous?
    ensures One(Reply(c, s, e).value)
  {
    var t := Reply(c, s, e).value;
    var w := s.worker.row;
    forall i: nat | Late(t, i) ensures i == w && w in s.calls {
      if i != w { assert Late(s, i); }
    }
    forall k: nat | k < |t.permits| && Live(t.permits[k], t.now) ensures Guarded(t, k) && w !in s.calls {
      assert Guarded(s, k);
    }
  }

  /** A settled row's permits are no longer alive. */
  lemma SettledIsNotLive(c: Config, s: State, e: Event, k: nat)
    requires c.gasfree && Good(c, s) && One(s) && Tidy(s, e) && Settle(c, s, e).Some? && !e.ConfirmSent?
    requires k < |s.permits| && s.permits[k].row == e.row
    ensures !Live(s.permits[k], s.now)
  {
    var i := e.row;
    assert Mine(s.permits, i, k);
    assert RowOk(i, s.rows[i], i in s.calls, s.permits, s.transfers, s.now);
    if e.SettlePaid? {
      var x := Find(s.transfers, s.rows[i], e.hash);
      var m := s.transfers[x].permit.value;
      assert Mine(s.permits, i, m) && !Dead(s.permits[m], s.now);
      var d :| AllDeadBut(s.permits, s.now, i, d);
      assert d == m;
    } else {
      var m: nat :| Recorded(s.permits, s.now, i, s.rows[i], m);
      assert s.permits[m].deadline < s.now;
    }
  }

  /** Settling a row moves that row, and nothing a permit depends on but its row's columns. */
  ghost predicate Settled(s: State, t: State, i: nat) {
    && i < |s.rows| && i !in s.calls && s.worker.Idle?
    && t.now == s.now && t.permits == s.permits && t.calls == s.calls && t.worker == s.worker && |t.rows| == |s.rows|
    && (forall j :: 0 <= j < |s.rows| && j != i ==> t.rows[j] == s.rows[j])
  }

  lemma SettledKeepsOne(s: State, t: State, i: nat)
    requires One(s) && Settled(s, t, i)
    requires forall k: nat :: k < |s.permits| && s.permits[k].row == i ==> !Live(s.permits[k], s.now)
    ensures One(t)
  {
    forall j: nat | Late(t, j) ensures Late(s, j) {}
    forall k: nat | k < |t.permits| && Live(t.permits[k], t.now) ensures Guarded(t, k) {
      assert Guarded(s, k);
    }
  }

  lemma SettleKeepsOne(c: Config, s: State, e: Event)
    requires c.gasfree && Good(c, s) && One(s) && Tidy(s, e) && Settle(c, s, e).Some? && !e.ConfirmSent?
    ensures One(Settle(c, s, e).value)
  {
    var t := Settle(c, s, e).value;
    assert RowOk(e.row, s.rows[e.row], e.row in s.calls, s.permits, s.transfers, s.now);
    forall k: nat | k < |s.permits| && s.permits[k].row == e.row ensures !Live(s.permits[k], s.now) {
      SettledIsNotLive(c, s, e, k);
    }
    SettledKeepsOne(s, t, e.row);
  }

  /** A row with a payment reference has no live permit to begin with. */
  lemma ConfirmKeepsOne(c: Config, s: State, e: Event)
    requires c.gasfree && Good(c, s) && One(s) && Settle(c, s, e).Some? && e.ConfirmSent?
    ensures One(Settle(c, s, e).value)
  {
    var t := Settle(c, s, e).value;
    assert s.rows[e.row].payoutRef.Some?;
    assert e.row !in s.calls;
    forall k: nat | k < |s.permits| && s.permits[k].row == e.row ensures !Live(s.permits[k], s.now) {
      assert Live(s.permits[k], s.now) ==> Guarded(s, k);
    }
    SettledKeepsOne(s, t, e.row);
  }

  lemma StepKeepsOne(c: Config, s: State, e: Event)
    requires c.gasfree && Good(c, s) && One(s) && Tidy(s, e) && Step(c, s, e).Some?
    ensures One(Step(c, s, e).value)
  {
    if Around(c, s, e).Some? {
      if e.SignerSigns? { SigningKeepsOne(c, s, e); } else { AroundKeepsOne(c, s, e); }
    } else if Drain(c, s, e).Some? {
      DrainKeepsOne(c, s, e);
    } else if Reply(c, s, e).Some? {
      if e.ReplySubmitted? || e.ReplyRelayRefused? {
        SignedReplyKeepsOne(c, s, e);
      } else if e.ReplyNotActive? || e.ReplyUnsigned? {
        UnsignedReplyKeepsOne(c, s, e);
      } else if e.ReplyAmbiguous? {
        UnclearReplyKeepsOne(c, s, e);
      }
    } else if e.ConfirmSent? {
      ConfirmKeepsOne(c, s, e);
    } else {
      SettleKeepsOne(c, s, e);
    }
  }

  lemma TidyPrefix(c: Config, events: seq<Event>)
    requires events != [] && Run(c, START, events).Some? && TidyRun(c, events)
    ensures TidyRun(c, events[..|events| - 1])
    ensures Tidy(Run(c, START, events[..|events| - 1]).value, events[|events| - 1])
  {
    var n := |events| - 1;
    forall m | 0 <= m < n && Run(c, START, events[..n][..m]).Some?
      ensures Tidy(Run(c, START, events[..n][..m]).value, events[..n][m])
    {
      assert events[..n][..m] == events[..m];
    }
  }

  lemma {:induction false} RunKeepsOne(c: Config, events: seq<Event>)
    requires c.gasfree && Run(c, START, events).Some? && TidyRun(c, events)
    ensures Good(c, Run(c, START, events).value) && One(Run(c, START, events).value)
  {
    RunKeepsGood(c, START, events);
    if events != [] {
      var n := |events| - 1;
      TidyPrefix(c, events);
      RunKeepsOne(c, events[..n]);
      RunKeepsGood(c, START, events[..n]);
      StepKeepsOne(c, Run(c, START, events[..n]).value, events[n]);
    }
  }

  /** At most one signed payout permit is neither run nor expired. */
  ghost predicate OneAlive(s: State) {
    forall j: nat, k: nat :: j < |s.permits| && k < |s.permits| && Live(s.permits[j], s.now) && Live(s.permits[k], s.now) ==> j == k
  }

  /** At every moment of every run in which nothing goes wrong, at most one permit is alive. */
  lemma OnePermitAtATime(c: Config, events: seq<Event>)
    requires c.gasfree && Run(c, START, events).Some? && TidyRun(c, events)
    ensures OneAlive(Run(c, START, events).value)
  {
    RunKeepsOne(c, events);
  }
}
