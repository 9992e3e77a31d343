/**
 What becomes of a mint's status.

 The outbox writes a status for the rows a pass has selected without looking at what is there, and gives up a
 submission in two writes. So `credited` is final exactly for the intents no pass holds for such a write, and a
 submission given up half-way is looked at by nobody again. The ledger does not depend on either.
 */
module MintStatuses {
  import opened Basics
  import opened MintPipeline
  import MintRetries

  /** Whether the pass under way is to write the status of intent `i`: it was selected to be sent, or to be given up. */
  predicate Exposed(s: State, i: nat) {
    match s.worker
    case Resting => false
    case Rescuing(q) => ToGiveUp(q, i)
    case GivingUp(j, q) => j == i || ToGiveUp(q, i)
    case Draining(q) => !Absent(q, i)
    case Passed(h, q) => h.id == i || !Absent(q, i)
    case Answered(h, q) => h.id == i || !Absent(q, i)
  }

  predicate ToGiveUp(q: seq<Due>, i: nat) {
    exists k :: 0 <= k < |q| && q[k].id == i && q[k].attempts >= MAX_ATTEMPTS
  }

  predicate IsCredited(s: State, i: nat) {
    i < |s.intents| && s.intents[i].status == Credited
  }

  predicate NotOpen(s: State, i: nat) {
    i in s.outbox ==> s.outbox[i].status == Confirmed || s.outbox[i].status == Closed
  }

  // ----- credited for good -----------------------------------------------------------------------

  lemma {:induction false} StuckAreSent(s: State, n: nat)
    requires n <= |s.intents|
    ensures forall k :: 0 <= k < |StuckRows(s, n)| ==> StuckRows(s, n)[k].id in s.outbox && s.outbox[StuckRows(s, n)[k].id].status == Sent
  {
    if n > 0 { StuckAreSent(s, n - 1); }
  }

  lemma {:induction false} DueArePending(s: State, n: nat)
    ensures forall k :: 0 <= k < |DueRows(s, n)| ==> DueRows(s, n)[k].id in s.outbox && s.outbox[DueRows(s, n)[k].id].status == Pending
  {
    if n > 0 { DueArePending(s, n - 1); }
  }

  ghost predicate Final(s: State, i: nat) {
    IsCredited(s, i) && NotOpen(s, i) && !Exposed(s, i)
  }

  lemma RescueKeepsFinal(c: Config, s: State, e: Event, i: nat)
    requires Final(s, i) && Rescue(c, s, e).Some?
    ensures Final(Rescue(c, s, e).value, i)
  {
    var t := Rescue(c, s, e).value;
    if e.StartPass? {
      StuckAreSent(s, |s.intents|);
    } else if e.SelectDue? {
      DueArePending(s, |s.intents|);
    }
  }

  lemma SubmitKeepsFinal(c: Config, s: State, e: Event, i: nat)
    requires Final(s, i) && Submit(c, s, e).Some?
    ensures Final(Submit(c, s, e).value, i)
  {
    if Working(s) {
      assert Current(s).id != i;
      assert Absent(Rest(s), i);
    }
  }

  lemma PeopleKeepFinal(c: Config, s: State, e: Event, i: nat)
    requires Final(s, i) && Good(s) && People(c, s, e).Some?
    ensures Final(People(c, s, e).value, i)
  {
  }

  lemma WatchKeepsFinal(c: Config, s: State, e: Event, i: nat)
    requires Final(s, i) && Watch(c, s, e).Some?
    ensures Final(Watch(c, s, e).value, i)
  {
    hide Credit, Final;
    if e.WatchTx? {
      var tx := s.blocks[s.cursor][s.watcher.next];
      if tx.Mint? {
        CreditKeepsFinal(s, tx, i);
        WatchingKeepsFinal(Credit(s, tx), Watch(c, s, e).value, i);
      } else {
        WatchingKeepsFinal(s, Watch(c, s, e).value, i);
      }
    } else {
      WatchingKeepsFinal(s, Watch(c, s, e).value, i);
    }
  }

  lemma CreditKeepsFinal(s: State, m: Tx, i: nat)
    requires m.Mint? && Final(s, i)
    ensures Final(Credit(s, m), i)
  {
  }

  lemma WatchingKeepsFinal(s: State, t: State, i: nat)
    requires Final(s, i) && t.intents == s.intents && t.outbox == s.outbox && t.worker == s.worker
    ensures Final(t, i)
  {
  }

  lemma StepKeepsFinal(c: Config, s: State, e: Event, i: nat)
    requires Final(s, i) && Good(s) && Step(c, s, e).Some?
    ensures Final(Step(c, s, e).value, i)
  {
    hide People, Watch, Rescue, Submit;
    if People(c, s, e).Some? {
      PeopleKeepFinal(c, s, e, i);
    } else if Chain(c, s, e).Some? {
    } else if Watch(c, s, e).Some? {
      WatchKeepsFinal(c, s, e, i);
    } else if Rescue(c, s, e).Some? {
      RescueKeepsFinal(c, s, e, i);
    } else {
      SubmitKeepsFinal(c, s, e, i);
    }
  }

  lemma {:induction false} FinalForGood(c: Config, s: State, more: seq<Event>, i: nat)
    requires Good(s) && Final(s, i) && Run(c, s, more).Some?
    ensures Final(Run(c, s, more).value, i)
  {
    hide Step, Final;
    if more != [] {
      var n := |more| - 1;
      FinalForGood(c, s, more[..n], i);
      RunKeepsGood(c, s, more[..n]);
      StepKeepsFinal(c, Run(c, s, more[..n]).value, more[n], i);
    }
  }

  // ----- what every run keeps of credited intents ------------------------------------------------

  /** The row of a credited intent is closed one way or another. */
  ghost predicate RowsClosed(s: State) {
    forall i: nat :: IsCredited(s, i) ==> NotOpen(s, i)
  }

  /** What the breakers let through fits their caps. */
  ghost predicate PassedFit(c: Config, s: State) {
    forall i :: i in s.passed && i < |s.intents| ==> s.intents[i].amount <= c.perTxCap && s.intents[i].amount <= c.dailyCap
  }

  lemma PeopleKeepRows(c: Config, s: State, e: Event)
    requires Good(s) && RowsClosed(s) && PassedFit(c, s) && People(c, s, e).Some?
    ensures RowsClosed(People(c, s, e).value) && PassedFit(c, People(c, s, e).value)
  {
    var t := People(c, s, e).value;
    forall i: nat | IsCredited(t, i) ensures NotOpen(t, i) {
      assert IsCredited(s, i) && NotOpen(s, i);
    }
    forall i | i in t.passed && i < |t.intents| ensures t.intents[i].amount <= c.perTxCap && t.intents[i].amount <= c.dailyCap {
      assert i < |s.intents| && IntentOk(s, i);
    }
  }

  lemma WatchKeepsRows(c: Config, s: State, e: Event)
    requires RowsClosed(s) && PassedFit(c, s) && Watch(c, s, e).Some?
    ensures RowsClosed(Watch(c, s, e).value) && PassedFit(c, Watch(c, s, e).value)
  {
    var t := Watch(c, s, e).value;
    forall i: nat | IsCredited(t, i) ensures NotOpen(t, i) {
      assert IsCredited(s, i) ==> NotOpen(s, i);
    }
  }

  lemma RescueKeepsRows(c: Config, s: State, e: Event)
    requires RowsClosed(s) && PassedFit(c, s) && Rescue(c, s, e).Some?
    ensures RowsClosed(Rescue(c, s, e).value) && PassedFit(c, Rescue(c, s, e).value)
  {
    var t := Rescue(c, s, e).value;
    forall i: nat | IsCredited(t, i) ensures NotOpen(t, i) {
      assert IsCredited(s, i) && NotOpen(s, i);
    }
  }

  lemma {:induction false} DayTotalIsNatural(s: State, n: nat, except: Option<nat>)
    requires Good(s) && n <= |s.intents|
    ensures DayTotal(s.intents, n, s.now, except) >= 0
  {
    if n > 0 {
      DayTotalIsNatural(s, n - 1, except);
      assert IntentOk(s, n - 1);
    }
  }

  lemma SubmitKeepsRows(c: Config, s: State, e: Event)
    requires Good(s) && RowsClosed(s) && PassedFit(c, s) && Submit(c, s, e).Some?
    ensures RowsClosed(Submit(c, s, e).value) && PassedFit(c, Submit(c, s, e).value)
  {
    SubmitKeepsClosed(c, s, e);
    SubmitKeepsFit(c, s, e);
  }

  lemma SubmitKeepsClosed(c: Config, s: State, e: Event)
    requires Good(s) && RowsClosed(s) && PassedFit(c, s) && Submit(c, s, e).Some?
    ensures RowsClosed(Submit(c, s, e).value)
  {
    hide DayTotal;
    var t := Submit(c, s, e).value;
    forall i: nat | IsCredited(t, i) ensures NotOpen(t, i) {
      assert IsCredited(s, i) && NotOpen(s, i);
    }
  }

  lemma SubmitKeepsFit(c: Config, s: State, e: Event)
    requires Good(s) && PassedFit(c, s) && Submit(c, s, e).Some?
    ensures PassedFit(c, Submit(c, s, e).value)
  {
    if e.Pass? {
      DayTotalIsNatural(s, |s.intents|, Some(Current(s).id));
    }
  }

  lemma StepKeepsRows(c: Config, s: State, e: Event)
    requires Good(s) && RowsClosed(s) && PassedFit(c, s) && Step(c, s, e).Some?
    ensures RowsClosed(Step(c, s, e).value) && PassedFit(c, Step(c, s, e).value)
  {
    hide People, Watch, Rescue, Submit;
    if People(c, s, e).Some? {
      PeopleKeepRows(c, s, e);
    } else if Chain(c, s, e).Some? {
      var t := Chain(c, s, e).value;
      forall i: nat | IsCredited(t, i) ensures NotOpen(t, i) { assert IsCredited(s, i); }
    } else if Watch(c, s, e).Some? {
      WatchKeepsRows(c, s, e);
    } else if Rescue(c, s, e).Some? {
      RescueKeepsRows(c, s, e);
    } else {
      SubmitKeepsRows(c, s, e);
    }
  }

  ghost predicate Sound(c: Config, s: State) {
    Good(s) && RowsClosed(s) && PassedFit(c, s)
  }

  lemma {:induction false} RunKeepsSound(c: Config, s: State, events: seq<Event>)
    requires Sound(c, s) && Run(c, s, events).Some?
    ensures Sound(c, Run(c, s, events).value)
  {
    hide Step, RowsClosed, PassedFit;
    if events != [] {
      var n := |events| - 1;
      RunKeepsSound(c, s, events[..n]);
      StepKeepsGood(c, Run(c, s, events[..n]).value, events[n]);
      StepKeepsRows(c, Run(c, s, events[..n]).value, events[n]);
    }
  }

  lemma StepKeepsSound(c: Config, s: State, e: Event)
    requires Sound(c, s) && Step(c, s, e).Some?
    ensures Sound(c, Step(c, s, e).value)
  {
    StepKeepsGood(c, s, e);
    StepKeepsRows(c, s, e);
  }

  // ----- and otherwise it can be lost ------------------------------------------------------------

  lemma StepThen(c: Config, s: State, e: Event, t: State, more: seq<Event>)
    requires Step(c, s, e) == Some(t)
    ensures Run(c, s, [e] + more) == Run(c, t, more)
  {
    hide Step;
    OneStep(c, s, e, t);
    RunsJoin(c, s, [e], t, more);
  }

  predicate Lost(c: Config, s: State, events: seq<Event>, i: nat) {
    Run(c, s, events).Some? && !IsCredited(Run(c, s, events).value, i)
  }

  lemma LostLater(c: Config, s: State, e: Event, t: State, more: seq<Event>, i: nat)
    requires Step(c, s, e) == Some(t) && Lost(c, t, more, i)
    ensures Lost(c, s, [e] + more, i)
  {
    hide Step;
    StepThen(c, s, e, t, more);
  }

  lemma RescueSteps(c: Config, s: State, e: Event)
    requires e.Requeue? || e.GiveUp?
    ensures Step(c, s, e) == if Rescue(c, s, e).Some? then Rescue(c, s, e) else Submit(c, s, e)
  {
    hide Rescue, Submit;
  }

  /** Recording the submission writes over whatever the status has become. */
  lemma RecordLoses(c: Config, s: State, i: nat) returns (events: seq<Event>)
    requires Sound(c, s) && IsCredited(s, i) && s.worker.Answered? && s.worker.head.id == i
    ensures Lost(c, s, events, i)
  {
    events := [Record];
    assert HeldOk(s, Holding(s.worker)[0]);
    SubmitSteps(c, s, Record);
    OneStep(c, s, Record, Submit(c, s, Record).value);
  }

  lemma PassedLoses(c: Config, s: State, i: nat) returns (events: seq<Event>)
    requires Sound(c, s) && IsCredited(s, i) && s.worker.Passed? && s.worker.head.id == i
    ensures Lost(c, s, events, i)
  {
    assert HeldOk(s, Holding(s.worker)[0]);
    SubmitSteps(c, s, NodeSaysProcessed);
    var t := Submit(c, s, NodeSaysProcessed).value;
    StepKeepsSound(c, s, NodeSaysProcessed);
    events := RecordLoses(c, t, i);
    LostLater(c, s, NodeSaysProcessed, t, events, i);
    events := [NodeSaysProcessed] + events;
  }

  /** A day after every intent was created nothing counts. */
  function AllOld(intents: seq<Intent>, n: nat): int
    requires n <= |intents|
  {
    if n == 0 then 0 else Max(AllOld(intents, n - 1), intents[n - 1].createdAt + DAY_SECS)
  }

  lemma {:induction false} NothingCounts(intents: seq<Intent>, n: nat, now: int, except: Option<nat>)
    requires n <= |intents| && AllOld(intents, n) <= now
    ensures DayTotal(intents, n, now, except) == 0
  {
    if n > 0 { NothingCounts(intents, n - 1, now, except); }
  }

  /** The treasury as it is a day later, and not halted. */
  function ADayLater(s: State): State {
    s.(halted := false, now := Max(s.now, AllOld(s.intents, |s.intents|)))
  }

  lemma ADayPasses(c: Config, s: State)
    ensures Run(c, s, [SetHalt(false), Tick(ADayLater(s).now)]) == Some(ADayLater(s))
  {
    OneStep(c, s, SetHalt(false), s.(halted := false));
    OneMore(c, s, [SetHalt(false)], s.(halted := false), Tick(ADayLater(s).now), ADayLater(s));
    assert [SetHalt(false)] + [Tick(ADayLater(s).now)] == [SetHalt(false), Tick(ADayLater(s).now)];
  }

  /** At the head of the queue it is let through again, once the day's total has gone. */
  lemma HeadLoses(c: Config, s: State, i: nat) returns (events: seq<Event>)
    requires Sound(c, s) && IsCredited(s, i) && s.worker.Draining? && s.worker.queue != [] && s.worker.queue[0].id == i
    ensures Lost(c, s, events, i)
  {
    var u, wait := ADayLater(s), [SetHalt(false), Tick(ADayLater(s).now)];
    ADayPasses(c, s);
    RunKeepsSound(c, s, wait);
    assert HeldOk(u, Holding(u.worker)[0]) && IntentOk(u, i);
    NothingCounts(u.intents, |u.intents|, u.now, Some(i));
    SubmitSteps(c, u, Pass);
    var t := Submit(c, u, Pass).value;
    StepKeepsSound(c, u, Pass);
    events := PassedLoses(c, t, i);
    LostLater(c, u, Pass, t, events, i);
    RunsJoin(c, s, wait, u, [Pass] + events);
    events := wait + ([Pass] + events);
  }

  lemma {:induction false} DrainLoses(c: Config, s: State, i: nat) returns (events: seq<Event>)
    requires Sound(c, s) && IsCredited(s, i) && s.worker.Draining? && !Absent(s.worker.queue, i)
    ensures Lost(c, s, events, i)
    decreases if s.worker.Draining? then |s.worker.queue| else 0
  {
    if s.worker.queue[0].id == i {
      events := HeadLoses(c, s, i);
    } else {
      assert HeldOk(s, Holding(s.worker)[0]);
      SubmitSteps(c, s, Park);
      var t := Submit(c, s, Park).value;
      StepKeepsSound(c, s, Park);
      StillThere(s.worker.queue, i);
      events := DrainLoses(c, t, i);
      LostLater(c, s, Park, t, events, i);
      events := [Park] + events;
    }
  }

  lemma StillThere(q: seq<Due>, i: nat)
    requires !Absent(q, i) && q[0].id != i
    ensures !Absent(q[1..], i)
  {
    var k :| 0 <= k < |q| && q[k].id == i;
    assert q[1..][k - 1] == q[k];
  }

  /** The row the pass is at is another's: it goes on to the rest. */
  lemma SendingLoses(c: Config, s: State, i: nat) returns (events: seq<Event>)
    requires Sound(c, s) && IsCredited(s, i) && (s.worker.Passed? || s.worker.Answered?) && Exposed(s, i)
    ensures Lost(c, s, events, i)
  {
    if s.worker.head.id == i {
      if s.worker.Passed? { events := PassedLoses(c, s, i); } else { events := RecordLoses(c, s, i); }
    } else {
      var e := if s.worker.Passed? then Park else Record;
      assert HeldOk(s, Holding(s.worker)[0]);
      SubmitSteps(c, s, e);
      var t := Submit(c, s, e).value;
      StepKeepsSound(c, s, e);
      events := DrainLoses(c, t, i);
      LostLater(c, s, e, t, events, i);
      events := [e] + events;
    }
  }

  lemma GivingUpLoses(c: Config, s: State, i: nat) returns (events: seq<Event>)
    requires Sound(c, s) && IsCredited(s, i) && s.worker.GivingUp? && s.worker.id == i
    ensures Lost(c, s, events, i)
  {
    events := [GiveUp];
    RescueSteps(c, s, GiveUp);
    OneStep(c, s, GiveUp, Rescue(c, s, GiveUp).value);
  }

  lemma StillToGiveUp(q: seq<Due>, i: nat)
    requires ToGiveUp(q, i) && q[0].id != i
    ensures ToGiveUp(q[1..], i)
  {
    var k :| 0 <= k < |q| && q[k].id == i && q[k].attempts >= MAX_ATTEMPTS;
    assert q[1..][k - 1] == q[k];
  }

  lemma FirstToGiveUp(s: State, q: seq<Due>, i: nat)
    requires QueueOk(s, q) && ToGiveUp(q, i) && q[0].id == i
    ensures q[0].attempts >= MAX_ATTEMPTS
  {
    var k :| 0 <= k < |q| && q[k].id == i && q[k].attempts >= MAX_ATTEMPTS;
    assert k == 0;
  }

  lemma RequeueOnce(c: Config, s: State, i: nat) returns (t: State)
    requires Sound(c, s) && IsCredited(s, i) && s.worker.Rescuing? && ToGiveUp(s.worker.queue, i)
    ensures Step(c, s, Requeue) == Some(t) && Sound(c, t) && IsCredited(t, i)
    ensures if s.worker.queue[0].id == i then t.worker == GivingUp(i, s.worker.queue[1..])
            else Exposed(t, i) && (t.worker.Rescuing? || t.worker.GivingUp?) && t.worker.queue == s.worker.queue[1..]
  {
    var q := s.worker.queue;
    assert HeldOk(s, Holding(s.worker)[0]);
    RescueSteps(c, s, Requeue);
    t := Rescue(c, s, Requeue).value;
    StepKeepsSound(c, s, Requeue);
    if q[0].id == i {
      FirstToGiveUp(s, q, i);
    } else {
      StillToGiveUp(q, i);
    }
  }

  lemma {:induction false} RescueLoses(c: Config, s: State, i: nat) returns (events: seq<Event>)
    requires Sound(c, s) && IsCredited(s, i) && (s.worker.Rescuing? || s.worker.GivingUp?) && Exposed(s, i)
    ensures Lost(c, s, events, i)
    decreases if s.worker.Rescuing? || s.worker.GivingUp? then |s.worker.queue| else 0, s.worker.GivingUp?
  {
    if s.worker.GivingUp? {
      if s.worker.id == i {
        events := GivingUpLoses(c, s, i);
      } else {
        RescueSteps(c, s, GiveUp);
        var t := Rescue(c, s, GiveUp).value;
        StepKeepsSound(c, s, GiveUp);
        events := RescueLoses(c, t, i);
        LostLater(c, s, GiveUp, t, events, i);
        events := [GiveUp] + events;
      }
    } else {
      var t := RequeueOnce(c, s, i);
      events := RescueLoses(c, t, i);
      LostLater(c, s, Requeue, t, events, i);
      events := [Requeue] + events;
    }
  }

  lemma ExposedCanBeLost(c: Config, s: State, i: nat) returns (events: seq<Event>)
    requires Sound(c, s) && IsCredited(s, i) && Exposed(s, i)
    ensures Lost(c, s, events, i)
  {
    match s.worker
    case Rescuing(_) => events := RescueLoses(c, s, i);
    case GivingUp(_, _) => events := RescueLoses(c, s, i);
    case Draining(_) => events := DrainLoses(c, s, i);
    case Passed(_, _) => events := SendingLoses(c, s, i);
    case Answered(_, _) => events := SendingLoses(c, s, i);
  }

  /** At any moment of any run: an intent that is credited stays credited, whatever happens, if and only if the pass
      under way has not selected it to be sent or given up. */
  lemma CreditedIsFinalIffNotSelected(c: Config, events: seq<Event>, s: State, i: nat)
    requires Run(c, START, events) == Some(s) && IsCredited(s, i)
    ensures (forall more: seq<Event> :: Run(c, s, more).Some? ==> IsCredited(Run(c, s, more).value, i)) <==> !Exposed(s, i)
  {
    RunKeepsSound(c, START, events);
    if Exposed(s, i) {
      var more := ExposedCanBeLost(c, s, i);
      assert Run(c, s, more).Some? && !IsCredited(Run(c, s, more).value, i);
    } else {
      assert NotOpen(s, i);
      forall more: seq<Event> | Run(c, s, more).Some? ensures IsCredited(Run(c, s, more).value, i) {
        FinalForGood(c, s, more, i);
      }
    }
  }

  // It does happen: the node takes a mint, a block holds it and the watcher credits it, and then the outbox records
  // the submission.

  function Taken(): State {
    MintRetries.JustApproved(Answered(Due(0, 0), [])).(passed := {0}, reached := {Booking(0, 1)})
  }

  function Watched(): State {
    Taken().(blocks := [[Mint(0, 1)]], peak := 1, watcher := Scanning(1, 1), partial := 1, ledger := [Booking(0, 1)],
             intents := [Intent(1, true, Credited, 0, 0)], outbox := map[0 := OutRow(Confirmed, 0, 0)])
  }

  lemma WatchedSteps()
    ensures var t := Taken().(blocks := [[Mint(0, 1)]], peak := 1);
            && Step(MintRetries.OPEN, Taken(), Mine([Mint(0, 1)])) == Some(t)
            && Step(MintRetries.OPEN, t, Poll(1)) == Some(t.(watcher := Scanning(1, 0)))
            && Step(MintRetries.OPEN, t.(watcher := Scanning(1, 0)), WatchTx) == Some(Watched())
  {
    var block, chain := [Mint(0, 1)], [[Mint(0, 1)]];
    MinedOnce();
    CreditedOnce();
    hide Step, ChainOk;
    assert Taken().blocks + [block] == chain;
    MineSteps(MintRetries.OPEN, Taken(), block);
    PollSteps(MintRetries.OPEN, Taken().(blocks := chain, peak := 1), 1);
  }

  lemma MinedOnce()
    ensures ChainOk([[Mint(0, 1)]], Taken().reached)
  {
    var block, chain := [Mint(0, 1)], [[Mint(0, 1)]];
    assert block[..0] == [] && chain[..0] == [];
    assert MintsOf(block) == [Booking(0, 1)] && ChainMints(chain) == [Booking(0, 1)];
  }

  lemma CreditedOnce()
    ensures Step(MintRetries.OPEN, Taken().(blocks := [[Mint(0, 1)]], peak := 1, watcher := Scanning(1, 0)), WatchTx) == Some(Watched())
  {
    var chain := [[Mint(0, 1)]];
    assert chain[0] == [Mint(0, 1)] && chain[0][0] == Mint(0, 1);
    assert Taken().ledger + [Booking(0, 1)] == [Booking(0, 1)] && Taken().intents == [Taken().intents[0]];
    MintRetries.Single(Taken().intents[0], Watched().intents[0]);
    MintRetries.Single(Taken().outbox[0], Watched().outbox[0]);
  }

  /** Created, approved, let through and given to the node. */
  lemma ReachesTaken() returns (events: seq<Event>)
    ensures Run(MintRetries.OPEN, START, events) == Some(Taken())
  {
    var c, d := MintRetries.OPEN, Due(0, 0);
    MintRetries.ApprovedOnce();
    MintRetries.SelectedOnce();
    MintRetries.PassedOnce();
    MintRetries.RecordedOnce();
    hide Step;
    events := [Create(1, true), HumanApproves(0), StartPass, SelectDue];
    FourSteps(c, START, Create(1, true), START.(intents := [Intent(1, true, Created, 0, 0)]), HumanApproves(0),
              MintRetries.JustApproved(Resting), StartPass, MintRetries.JustApproved(Rescuing([])), SelectDue,
              MintRetries.JustApproved(Draining([d])));
    OneMore(c, START, events, MintRetries.JustApproved(Draining([d])), Pass, MintRetries.JustApproved(Passed(d, [])).(passed := {0}));
    OneMore(c, START, events + [Pass], MintRetries.JustApproved(Passed(d, [])).(passed := {0}), NodeTakes, Taken());
    events := events + [Pass] + [NodeTakes];
  }

  lemma WatchedIsRecorded()
    ensures Step(MintRetries.OPEN, Watched(), Record).Some?
    ensures var s := Step(MintRetries.OPEN, Watched(), Record).value; 0 < |s.intents| && s.intents[0].status == Submitted
  {
    SubmitSteps(MintRetries.OPEN, Watched(), Record);
  }

  lemma CreditedBecomesSubmitted() returns (before: seq<Event>, after: seq<Event>)
    ensures Run(MintRetries.OPEN, START, before).Some? && IsCredited(Run(MintRetries.OPEN, START, before).value, 0)
    ensures Run(MintRetries.OPEN, START, before + after).Some?
    ensures var s := Run(MintRetries.OPEN, START, before + after).value; 0 < |s.intents| && s.intents[0].status == Submitted
  {
    var c, t := MintRetries.OPEN, Taken().(blocks := [[Mint(0, 1)]], peak := 1);
    WatchedSteps();
    WatchedIsRecorded();
    hide Step;
    before := ReachesTaken();
    OneMore(c, START, before, Taken(), Mine([Mint(0, 1)]), t);
    OneMore(c, START, before + [Mine([Mint(0, 1)])], t, Poll(1), t.(watcher := Scanning(1, 0)));
    before := before + [Mine([Mint(0, 1)])] + [Poll(1)];
    OneMore(c, START, before, t.(watcher := Scanning(1, 0)), WatchTx, Watched());
    before, after := before + [WatchTx], [Record];
    OneMore(c, START, before, Watched(), Record, Step(c, Watched(), Record).value);
  }

  // ----- given up half-way -----------------------------------------------------------------------

  /** Submitted with its row closed, and in nobody's hands. */
  ghost predicate Dropped(s: State, i: nat) {
    && i < |s.intents| && s.intents[i].status == Submitted && i in s.outbox && s.outbox[i].status == Closed
    && Absent(Holding(s.worker), i) && (s.worker.GivingUp? ==> s.worker.id != i)
  }

  lemma RescueKeepsDropped(c: Config, s: State, e: Event, i: nat)
    requires Dropped(s, i) && Rescue(c, s, e).Some?
    ensures Dropped(Rescue(c, s, e).value, i)
  {
    if e.StartPass? {
      StuckAreSent(s, |s.intents|);
    } else if e.SelectDue? {
      DueArePending(s, |s.intents|);
    }
  }

  lemma SubmitKeepsAbsent(c: Config, s: State, e: Event, i: nat)
    requires Absent(Holding(s.worker), i) && !s.worker.GivingUp? && Submit(c, s, e).Some?
    ensures Absent(Holding(Submit(c, s, e).value.worker), i) && !Submit(c, s, e).value.worker.GivingUp?
  {
    hide MayMint, BackoffSecs;
    var q := Holding(s.worker);
    if q != [] && (s.worker.Draining? || s.worker.Passed? || s.worker.Answered?) {
      assert q[1..] == if s.worker.Draining? then s.worker.queue[1..] else s.worker.queue;
    }
  }

  lemma SubmitKeepsOthers(c: Config, s: State, e: Event, i: nat)
    requires i < |s.intents| && i in s.outbox && Absent(Holding(s.worker), i) && Submit(c, s, e).Some?
    ensures var t := Submit(c, s, e).value;
            i < |t.intents| && t.intents[i] == s.intents[i] && i in t.outbox && t.outbox[i] == s.outbox[i]
  {
    hide MayMint, BackoffSecs;
    var q := Holding(s.worker);
    assert q != [] ==> q[0].id != i;
  }

  lemma SubmitKeepsDropped(c: Config, s: State, e: Event, i: nat)
    requires Dropped(s, i) && Submit(c, s, e).Some?
    ensures Dropped(Submit(c, s, e).value, i)
  {
    hide MayMint, BackoffSecs;
    if s.worker.GivingUp? {
      assert e.WorkerStops?;
    } else {
      SubmitKeepsAbsent(c, s, e, i);
    }
    SubmitKeepsOthers(c, s, e, i);
  }

  lemma WatchKeepsDropped(c: Config, s: State, e: Event, i: nat)
    requires Dropped(s, i) && Watch(c, s, e).Some?
    ensures var t := Watch(c, s, e).value; Dropped(t, i) || (e.WatchTx? && Final(t, i))
  {
    hide ProcessRange, Beyond;
    var w := s.worker;
    if w.Passed? || w.Answered? {
      assert Holding(w)[0] == w.head && Holding(w)[1..] == w.queue;
    }
    assert !Exposed(s, i);
  }

  /** Nothing but the watcher's credit moves it. */
  lemma StepKeepsDropped(c: Config, s: State, e: Event, i: nat)
    requires Dropped(s, i) && Good(s) && Step(c, s, e).Some?
    ensures var t := Step(c, s, e).value; Dropped(t, i) || (e.WatchTx? && Final(t, i))
  {
    hide Watch, Rescue, Submit;
    if People(c, s, e).Some? || Chain(c, s, e).Some? {
    } else if Watch(c, s, e).Some? {
      WatchKeepsDropped(c, s, e, i);
    } else if Rescue(c, s, e).Some? {
      RescueKeepsDropped(c, s, e, i);
    } else {
      SubmitKeepsDropped(c, s, e, i);
    }
  }

  /** Over every continuation: it stays as it is until a block that holds its mint is confirmed and credits it, and
      from then on it stays credited. No pass sends it, and no person is told to look. */
  lemma {:induction false} DroppedUntilCredited(c: Config, s: State, more: seq<Event>, i: nat)
    requires Good(s) && Dropped(s, i) && Run(c, s, more).Some?
    ensures var t := Run(c, s, more).value; Dropped(t, i) || Final(t, i)
    ensures (forall n :: 0 <= n < |more| ==> !more[n].WatchTx?) ==> Dropped(Run(c, s, more).value, i)
  {
    hide Step, Dropped, Final;
    if more != [] {
      var n := |more| - 1;
      assert forall m :: 0 <= m < n ==> more[..n][m] == more[m];
      DroppedUntilCredited(c, s, more[..n], i);
      RunKeepsGood(c, s, more[..n]);
      if Dropped(Run(c, s, more[..n]).value, i) {
        StepKeepsDropped(c, Run(c, s, more[..n]).value, more[n], i);
      } else {
        StepKeepsFinal(c, Run(c, s, more[..n]).value, more[n], i);
      }
    }
  }

  /** A mint sent for the last time and stuck, seen after the timeout. */
  function Stuck(last: int, row: OutRow, worker: Worker): State {
    MintRetries.Waiting(MAX_ATTEMPTS, last).(now := last + 601, outbox := map[0 := row], worker := worker)
  }

  lemma StuckIsTaken(last: int)
    ensures var r := OutRow(Sent, MAX_ATTEMPTS, last);
            && Step(MintRetries.OPEN, MintRetries.Waiting(MAX_ATTEMPTS, last), Tick(last + 601)) == Some(Stuck(last, r, Resting))
            && Step(MintRetries.OPEN, Stuck(last, r, Resting), StartPass) == Some(Stuck(last, r, Rescuing([Due(0, MAX_ATTEMPTS)])))
  {
    var t := Stuck(last, OutRow(Sent, MAX_ATTEMPTS, last), Resting);
    assert StuckRows(t, 0) == [] && StuckRows(t, 1) == [] + [Due(0, MAX_ATTEMPTS)] == [Due(0, MAX_ATTEMPTS)];
  }

  lemma StuckIsClosed(last: int)
    ensures var s, closed := Stuck(last, OutRow(Sent, MAX_ATTEMPTS, last), Rescuing([Due(0, MAX_ATTEMPTS)])), OutRow(Closed, MAX_ATTEMPTS, last);
            && Step(MintRetries.OPEN, s, Requeue) == Some(Stuck(last, closed, GivingUp(0, [])))
            && Step(MintRetries.OPEN, Stuck(last, closed, GivingUp(0, [])), WorkerStops) == Some(Stuck(last, closed, Resting))
  {
    var s, closed := Stuck(last, OutRow(Sent, MAX_ATTEMPTS, last), Rescuing([Due(0, MAX_ATTEMPTS)])), OutRow(Closed, MAX_ATTEMPTS, last);
    RescueSteps(MintRetries.OPEN, s, Requeue);
    SubmitSteps(MintRetries.OPEN, Stuck(last, closed, GivingUp(0, [])), WorkerStops);
    hide Step;
    MintRetries.Single(OutRow(Sent, MAX_ATTEMPTS, last), closed);
    MintRetries.Single(Due(0, MAX_ATTEMPTS), Due(0, MAX_ATTEMPTS));
  }

  /** A submission that never confirms, and a stop between the two writes that give it up. */
  lemma GivingUpCanStopHalfWay() returns (events: seq<Event>, s: State)
    ensures Run(MintRetries.OPEN, START, events) == Some(s) && Dropped(s, 0)
  {
    var before, last := MintRetries.SentOften(MAX_ATTEMPTS);
    var sent, closed := OutRow(Sent, MAX_ATTEMPTS, last), OutRow(Closed, MAX_ATTEMPTS, last);
    StuckIsTaken(last);
    StuckIsClosed(last);
    hide Step;
    var w := MintRetries.Waiting(MAX_ATTEMPTS, last);
    s := Stuck(last, closed, Resting);
    FourSteps(MintRetries.OPEN, w, Tick(last + 601), Stuck(last, sent, Resting), StartPass,
              Stuck(last, sent, Rescuing([Due(0, MAX_ATTEMPTS)])), Requeue, Stuck(last, closed, GivingUp(0, [])), WorkerStops, s);
    events := [Tick(last + 601), StartPass, Requeue, WorkerStops];
    RunsJoin(MintRetries.OPEN, START, before, w, events);
    events := before + events;
  }
}
