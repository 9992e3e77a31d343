/**
 What each fault does to the rule of one permit at a time, and that the rule holds without them.

 The gate sees a permit through the columns of its row. Each of four faults takes a living permit out of its sight
 and lets the next pass sign a second one. No burn is paid twice even so.
 */
module PayoutFaults {
  import opened Basics
  import opened Payouts
  import opened PayoutPermits

  ghost predicate Reaches(c: Config, faults: set<Fault>, events: seq<Event>, s: State) {
    Run(c, START, events) == Some(s) && UsesOnly(c, events, faults)
  }

  lemma ReachesMore(c: Config, faults: set<Fault>, events: seq<Event>, s: State, e: Event, t: State)
    requires Reaches(c, faults, events, s) && Step(c, s, e) == Some(t)
    requires FaultOf(s, e).Some? ==> FaultOf(s, e).value in faults
    ensures Reaches(c, faults, events + [e], t)
  {
    hide Step, FaultOf;
    var more := events + [e];
    OneMore(c, START, events, s, e, t);
    forall n | 0 <= n < |more| && Run(c, START, more[..n]).Some?
      ensures var fault := FaultOf(Run(c, START, more[..n]).value, more[n]); fault.Some? ==> fault.value in faults
    {
      if n < |events| {
        assert more[..n] == events[..n] && more[n] == events[n];
      } else {
        assert more[..n] == events;
      }
    }
  }

  /** Events that can never be a fault. */
  predicate Plain(e: Event) {
    e.Request? || e.BurnConfirmed? || e.StartDrain? || e.Claim? || e.Tick? || e.FloatSpends?
  }

  lemma PlainReaches(c: Config, faults: set<Fault>, events: seq<Event>, s: State)
    requires Run(c, START, events) == Some(s) && forall n :: 0 <= n < |events| ==> Plain(events[n])
    ensures Reaches(c, faults, events, s)
  {
  }

  /** Two permits are alive at the chain's own nonce, so either of them could run now. */
  ghost predicate TwoAtOnce(s: State) {
    && |s.permits| == 2 && Live(s.permits[0], s.now) && Live(s.permits[1], s.now)
    && s.permits[0].nonce == s.permits[1].nonce == s.nonce
  }

  function Claimed(amount: int): Row {
    Due(amount).(status := Submitted)
  }

  /** Both redemptions due, and the worker waiting on the signer for the first. */
  function Asking(amount: int): State {
    START.(rows := [Claimed(amount), Due(amount)], calls := map[0 := None], worker := Waiting(0, [1], 0, NotYet))
  }

  function AskingRun(amount: int): seq<Event> {
    TwoDue(amount) + [StartDrain] + [Claim]
  }

  lemma ReachesAsking(c: Config, faults: set<Fault>, amount: nat)
    requires 0 < amount <= c.cap
    ensures Reaches(c, faults, AskingRun(amount), Asking(amount))
  {
    FirstClaimed(c, amount);
    PlainReaches(c, faults, AskingRun(amount), Asking(amount));
  }

  // ----- the second redemption -------------------------------------------------------------------

  /** An idle worker, a first redemption that counts and holds nothing, and a second one due. */
  predicate Ready(c: Config, s: State, amount: nat) {
    && c.gasfree && 0 < amount && amount * 2 <= c.cap && s.worker.Idle? && !s.halted && s.calls == map[]
    && |s.rows| == 2 && s.rows[1] == Due(amount) && !InDoubt(s.rows[0], s.now) && s.rows[0].status != Pending
    && Weight(s.rows[0], s.now) == amount
  }

  lemma SecondDue(c: Config, s: State, amount: nat)
    requires Ready(c, s, amount)
    ensures Step(c, s, StartDrain) == Some(s.(worker := Draining([1], amount)))
  {
    assert s.rows == [s.rows[0], s.rows[1]];
    TwoRows(s.rows[0], s.rows[1], s.now);
    assert [] + [1] == [1];
  }

  lemma SecondTaken(c: Config, s: State, amount: nat)
    requires Ready(c, s, amount)
    ensures Step(c, s.(worker := Draining([1], amount)), Claim)
            == Some(s.(rows := s.rows[1 := s.rows[1].(status := Submitted, submittedAt := s.now)],
                       calls := map[1 := None], worker := Waiting(1, [], amount, NotYet)))
  {
    assert [1][1..] == [];
  }

  lemma SecondSigned(c: Config, s: State, amount: nat, nonce: nat, deadline: int)
    requires c.gasfree && |s.rows| == 2 && s.rows[1].to == "a" && s.rows[1].quote == amount && s.calls == map[1 := None]
    requires s.worker == Waiting(1, [], amount, NotYet) && |s.permits| == 1
    requires nonce <= s.nonce && deadline <= s.now + LONGEST_PERMIT_SECS
    ensures Step(c, s, SignerSigns(1, nonce, deadline))
            == Some(s.(permits := [s.permits[0], Permit(1, "a", amount, nonce, deadline, false)], calls := map[],
                       worker := Waiting(1, [], amount, Signed(1))))
    ensures FaultOf(s, SignerSigns(1, nonce, deadline)) == None
  {
    var q := Permit(1, "a", amount, nonce, deadline, false);
    assert s.permits + [q] == [s.permits[0], q] && s.calls - {1} == map[];
  }

  /** With a living permit the gate does not see, the next pass signs a second one. */
  lemma SecondPermit(c: Config, faults: set<Fault>, events: seq<Event>, s: State, amount: nat) returns (more: seq<Event>, t: State)
    requires Reaches(c, faults, events, s) && Ready(c, s, amount)
    requires |s.permits| == 1 && Live(s.permits[0], s.now) && s.permits[0].nonce == s.nonce
    ensures Reaches(c, faults, more, t) && TwoAtOnce(t)
  {
    hide Step, Reaches;
    var sign := SignerSigns(1, s.nonce, s.now + LONGEST_PERMIT_SECS);
    var s1 := s.(worker := Draining([1], amount));
    var s2 := s.(rows := s.rows[1 := s.rows[1].(status := Submitted, submittedAt := s.now)],
                 calls := map[1 := None], worker := Waiting(1, [], amount, NotYet));
    SecondDue(c, s, amount);
    SecondTaken(c, s, amount);
    SecondSigned(c, s2, amount, s.nonce, s.now + LONGEST_PERMIT_SECS);
    t := s2.(permits := [s.permits[0], Permit(1, "a", amount, s.nonce, s.now + LONGEST_PERMIT_SECS, false)], calls := map[],
             worker := Waiting(1, [], amount, Signed(1)));
    ReachesMore(c, faults, events, s, StartDrain, s1);
    ReachesMore(c, faults, events + [StartDrain], s1, Claim, s2);
    ReachesMore(c, faults, events + [StartDrain] + [Claim], s2, sign, t);
    more := events + [StartDrain] + [Claim] + [sign];
  }

  // ----- the four faults -------------------------------------------------------------------------

  /** The first redemption's permit, signed while the worker waits for it. */
  function Signing(amount: int): State {
    Asking(amount).(permits := [Permit(0, "a", amount, 0, 600, false)], calls := map[], worker := Waiting(0, [1], 0, Signed(0)))
  }

  lemma ReachesSigning(c: Config, faults: set<Fault>, amount: nat)
    requires c.gasfree && 0 < amount <= c.cap
    ensures Reaches(c, faults, AskingRun(amount) + [SignerSigns(0, 0, 600)], Signing(amount))
  {
    var p := Permit(0, "a", amount, 0, 600, false);
    ReachesAsking(c, faults, amount);
    assert [] + [p] == [p] && Asking(amount).calls - {0} == map[];
    ReachesMore(c, faults, AskingRun(amount), Asking(amount), SignerSigns(0, 0, 600), Signing(amount));
  }

  /** The worker dies while it waits, or the reply is not written: the row says nothing of its permit. */
  lemma AForgottenPermit(c: Config, faults: set<Fault>, amount: nat) returns (events: seq<Event>, t: State)
    requires c.gasfree && 0 < amount && amount * 2 <= c.cap && (WorkerDied in faults || ReplyLost in faults)
    ensures Reaches(c, faults, events, t) && TwoAtOnce(t)
  {
    var s := Signing(amount).(worker := Idle);
    var e := if WorkerDied in faults then Crash else ReplySubmitted(0, false);
    ReachesSigning(c, faults, amount);
    ReachesMore(c, faults, AskingRun(amount) + [SignerSigns(0, 0, 600)], Signing(amount), e, s);
    events, t := SecondPermit(c, faults, AskingRun(amount) + [SignerSigns(0, 0, 600)] + [e], s, amount);
  }

  /** An unclear reply holds the float for the longest permit and the grace. The signer acts on the call 400 seconds
      after it was given up, and its permit outlives the hold. */
  function Held(amount: int, now: int): State {
    START.(rows := [Claimed(amount).(permitDeadline := Some(900)), Due(amount)], calls := map[0 := Some(0)], now := now)
  }

  function Outlived(amount: int, now: int): State {
    Held(amount, now).(permits := [Permit(0, "a", amount, 0, 1000, false)], calls := map[])
  }

  lemma HeldSteps(c: Config, amount: nat)
    requires c.gasfree
    ensures Step(c, Asking(amount), ReplyAmbiguous(true)) == Some(Held(amount, 0))
    ensures Step(c, Held(amount, 0), Tick(400)) == Some(Held(amount, 400))
    ensures Step(c, Held(amount, 400), SignerSigns(0, 0, 1000)) == Some(Outlived(amount, 400))
    ensures Step(c, Outlived(amount, 400), Tick(950)) == Some(Outlived(amount, 950))
  {
    var s, p := Asking(amount), Permit(0, "a", amount, 0, 1000, false);
    assert s.rows[0 := Held(amount, 0).rows[0]] == Held(amount, 0).rows && s.calls[0 := Some(0)] == map[0 := Some(0)];
    assert [] + [p] == [p] && Held(amount, 400).calls - {0} == map[];
  }

  lemma ALateSignature(c: Config, faults: set<Fault>, amount: nat) returns (events: seq<Event>, t: State)
    requires c.gasfree && 0 < amount && amount * 2 <= c.cap && SignedLate in faults
    ensures Reaches(c, faults, events, t) && TwoAtOnce(t)
  {
    hide Step, Reaches;
    var es := AskingRun(amount);
    ReachesAsking(c, faults, amount);
    HeldSteps(c, amount);
    ReachesMore(c, faults, es, Asking(amount), ReplyAmbiguous(true), Held(amount, 0));
    ReachesMore(c, faults, es + [ReplyAmbiguous(true)], Held(amount, 0), Tick(400), Held(amount, 400));
    es := es + [ReplyAmbiguous(true)] + [Tick(400)];
    ReachesMore(c, faults, es, Held(amount, 400), SignerSigns(0, 0, 1000), Outlived(amount, 400));
    ReachesMore(c, faults, es + [SignerSigns(0, 0, 1000)], Outlived(amount, 400), Tick(950), Outlived(amount, 950));
    events, t := SecondPermit(c, faults, es + [SignerSigns(0, 0, 1000)] + [Tick(950)], Outlived(amount, 950), amount);
  }

  /** The float made a transfer like the payout before it, and the relay names that one. */
  function Spent(amount: int, worker: Worker): State {
    START.(rows := [Due(amount), Due(amount)], nonce := 1, hashes := {"x"}, worker := worker,
           transfers := [Transfer("x", "a", amount, 0, None, None)])
  }

  function SpentRun(amount: int): seq<Event> {
    TwoDue(amount) + [FloatSpends("a", amount, "x")] + [StartDrain] + [Claim]
  }

  function SpentAsking(amount: int): State {
    Spent(amount, Waiting(0, [1], 0, NotYet)).(rows := [Claimed(amount), Due(amount)], calls := map[0 := None])
  }

  lemma SpentSteps(c: Config, amount: nat)
    requires 0 < amount <= c.cap
    ensures Step(c, START.(rows := [Due(amount), Due(amount)]), FloatSpends("a", amount, "x")) == Some(Spent(amount, Idle))
    ensures Step(c, Spent(amount, Idle), StartDrain) == Some(Spent(amount, Draining([0, 1], 0)))
    ensures Step(c, Spent(amount, Draining([0, 1], 0)), Claim) == Some(SpentAsking(amount))
  {
    var d, x := Due(amount), Transfer("x", "a", amount, 0, None, None);
    TwoRows(d, d, 0);
    assert Lower("x") == "x" && START.hashes + {"x"} == {"x"} && [0] + [1] == [0, 1] && [0, 1][1..] == [1] && [] + [x] == [x];
    assert [d, d][0 := Claimed(amount)] == [Claimed(amount), d];
  }

  lemma ReachesSpent(c: Config, faults: set<Fault>, amount: nat)
    requires 0 < amount <= c.cap
    ensures Reaches(c, faults, SpentRun(amount), SpentAsking(amount))
  {
    hide Step;
    var es := TwoDue(amount);
    TwoDueRun(c, amount);
    SpentSteps(c, amount);
    OneMore(c, START, es, START.(rows := [Due(amount), Due(amount)]), FloatSpends("a", amount, "x"), Spent(amount, Idle));
    OneMore(c, START, es + [FloatSpends("a", amount, "x")], Spent(amount, Idle), StartDrain, Spent(amount, Draining([0, 1], 0)));
    OneMore(c, START, es + [FloatSpends("a", amount, "x")] + [StartDrain], Spent(amount, Draining([0, 1], 0)), Claim, SpentAsking(amount));
    PlainReaches(c, faults, SpentRun(amount), SpentAsking(amount));
  }

  function SpentSigned(amount: int): State {
    SpentAsking(amount).(permits := [Permit(0, "a", amount, 1, 600, false)], calls := map[], worker := Waiting(0, [1], 0, Signed(0)))
  }

  function SpentRecorded(amount: int): State {
    SpentSigned(amount).(rows := [Claimed(amount).(traceId := Some(0), permitNonce := Some(1), permitDeadline := Some(600)), Due(amount)],
                         worker := Idle)
  }

  function SpentSettled(amount: int): State {
    SpentRecorded(amount).(rows := [SpentRecorded(amount).rows[0].(status := Paid, payoutRef := Some("x")), Due(amount)],
                           withdrawals := map[0 := amount], settlements := [Settlement(0, 0)])
  }

  lemma SettledSteps(c: Config, amount: nat)
    requires c.gasfree
    ensures Step(c, SpentAsking(amount), SignerSigns(0, 1, 600)) == Some(SpentSigned(amount))
    ensures Step(c, SpentSigned(amount), ReplySubmitted(0, true)) == Some(SpentRecorded(amount))
  {
    var s, p := SpentAsking(amount), Permit(0, "a", amount, 1, 600, false);
    assert [] + [p] == [p] && Asking(amount).calls - {0} == map[];
    assert s.rows[0 := SpentRecorded(amount).rows[0]] == SpentRecorded(amount).rows;
  }

  lemma SettledByAnother(c: Config, amount: nat)
    ensures Step(c, SpentRecorded(amount), SettlePaid(0, "x")) == Some(SpentSettled(amount))
    ensures FaultOf(SpentRecorded(amount), SettlePaid(0, "x")) == Some(PaidByAnother)
  {
    var s := SpentRecorded(amount);
    assert s.transfers[..0] == [] && Confirms(s.transfers[0], s.rows[0], "x");
    assert Find(s.transfers, s.rows[0], "x") == 0;
    assert s.rows[0 := SpentSettled(amount).rows[0]] == SpentSettled(amount).rows;
    assert s.withdrawals[0 := amount] == map[0 := amount] && s.settlements + [Settlement(0, 0)] == [Settlement(0, 0)];
  }

  lemma AnothersTransfer(c: Config, faults: set<Fault>, amount: nat) returns (events: seq<Event>, t: State)
    requires c.gasfree && 0 < amount && amount * 2 <= c.cap && PaidByAnother in faults
    ensures Reaches(c, faults, events, t) && TwoAtOnce(t)
  {
    hide Step, Reaches;
    var es := SpentRun(amount);
    ReachesSpent(c, faults, amount);
    SettledSteps(c, amount);
    SettledByAnother(c, amount);
    ReachesMore(c, faults, es, SpentAsking(amount), SignerSigns(0, 1, 600), SpentSigned(amount));
    ReachesMore(c, faults, es + [SignerSigns(0, 1, 600)], SpentSigned(amount), ReplySubmitted(0, true), SpentRecorded(amount));
    es := es + [SignerSigns(0, 1, 600)] + [ReplySubmitted(0, true)];
    ReachesMore(c, faults, es, SpentRecorded(amount), SettlePaid(0, "x"), SpentSettled(amount));
    events, t := SecondPermit(c, faults, es + [SettlePaid(0, "x")], SpentSettled(amount), amount);
  }

  // ----- exactly when one permit is alive at a time ----------------------------------------------

  lemma FaultsAllowTwo(c: Config, faults: set<Fault>, amount: nat) returns (events: seq<Event>, t: State)
    requires c.gasfree && 0 < amount && amount * 2 <= c.cap && faults != {}
    ensures Reaches(c, faults, events, t) && TwoAtOnce(t)
  {
    if WorkerDied in faults || ReplyLost in faults {
      events, t := AForgottenPermit(c, faults, amount);
    } else if SignedLate in faults {
      events, t := ALateSignature(c, faults, amount);
    } else {
      var fault :| fault in faults;
      assert fault == PaidByAnother;
      events, t := AnothersTransfer(c, faults, amount);
    }
  }

  /** Where the cap lets two redemptions through: in every run that goes wrong in no other ways than `faults`, at most
      one permit is alive at a time, if and only if `faults` is empty. */
  lemma OnePermitIffNoFault(c: Config, faults: set<Fault>)
    requires c.gasfree && c.cap >= 2
    ensures (forall events: seq<Event> :: Run(c, START, events).Some? && UsesOnly(c, events, faults)
                                          ==> OneAlive(Run(c, START, events).value)) <==> faults == {}
  {
    if faults == {} {
      forall events: seq<Event> | Run(c, START, events).Some? && UsesOnly(c, events, faults)
        ensures OneAlive(Run(c, START, events).value)
      {
        OnePermitAtATime(c, events);
      }
    } else {
      var events, t := FaultsAllowTwo(c, faults, 1);
      assert Run(c, START, events).Some? && UsesOnly(c, events, faults) && !OneAlive(t);
    }
  }
}
