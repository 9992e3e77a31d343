/**
 How often the outbox sends one mint.

 A send that is never confirmed is queued again, an error backs off, a refusal parks, and a node that already
 has the mint says so. Between two approvals that comes to at most `MAX_ATTEMPTS + 1` recorded sends, after which
 the row is confirmed, failed, in a person's hands, or, as `MintStatuses` shows, given up half-way.
 */
module MintRetries {
  import opened Basics
  import opened MintPipeline

  /** Recorded sends since the last approval. */
  function Sends(s: State, i: nat): nat {
    if i in s.sends then s.sends[i] else 0
  }

  predicate SendsOk(s: State, i: nat)
    requires i in s.outbox
  {
    && Sends(s, i) <= MAX_ATTEMPTS + 1
    && (s.outbox[i].status == Pending ==> Sends(s, i) <= s.outbox[i].attempts)
    && (s.outbox[i].status == Sent ==> Sends(s, i) <= s.outbox[i].attempts + 1)
  }

  /** The rows being submitted, one by one. */
  function Submitting(w: Worker): seq<Due> {
    match w
    case Draining(q) => q
    case Passed(h, q) => [h] + q
    case Answered(h, q) => [h] + q
    case _ => []
  }

  ghost predicate RetriesOk(s: State) {
    && (forall i :: i in s.sends ==> i < |s.intents| && i in s.outbox)
    && (forall i :: i in s.outbox ==> SendsOk(s, i))
    && (forall k :: 0 <= k < |Submitting(s.worker)| ==> Sends(s, Submitting(s.worker)[k].id) <= Submitting(s.worker)[k].attempts)
  }

  lemma {:induction false} DueRowsAreBelow(s: State, n: nat)
    requires RetriesOk(s)
    ensures forall k :: 0 <= k < |DueRows(s, n)| ==> Sends(s, DueRows(s, n)[k].id) <= DueRows(s, n)[k].attempts
  {
    if n > 0 {
      DueRowsAreBelow(s, n - 1);
      assert n - 1 in s.outbox ==> SendsOk(s, n - 1);
    }
  }

  /** No send is recorded, and no row is opened. */
  ghost predicate SteadyRows(s: State, t: State) {
    && t.sends == s.sends && |s.intents| <= |t.intents| && t.outbox.Keys == s.outbox.Keys
    && (forall i :: i in s.outbox ==>
          && (t.outbox[i].status == s.outbox[i].status || t.outbox[i].status == Confirmed || t.outbox[i].status == Closed)
          && t.outbox[i].attempts >= s.outbox[i].attempts)
  }

  /** The rows being submitted are the same, or one fewer, or none. */
  predicate SteadyQueue(s: State, t: State) {
    || Submitting(t.worker) == Submitting(s.worker) || Submitting(t.worker) == []
    || (Submitting(s.worker) != [] && Submitting(t.worker) == Submitting(s.worker)[1..])
  }

  ghost predicate Steady(s: State, t: State) {
    SteadyRows(s, t) && SteadyQueue(s, t)
  }

  lemma SteadyKeepsRetries(s: State, t: State)
    requires RetriesOk(s) && Steady(s, t)
    ensures RetriesOk(t)
  {
    forall i | i in t.outbox ensures SendsOk(t, i) {
      assert SendsOk(s, i);
    }
  }

  /** An approval opens a row that no pass holds. */
  lemma OpeningKeepsRetries(s: State, i: nat, intents: seq<Intent>)
    requires Good(s) && RetriesOk(s) && i < |intents| && |s.intents| <= |intents|
    requires i < |s.intents| ==> !Counts(s.intents[i].status)
    ensures RetriesOk(s.(intents := intents, outbox := s.outbox[i := OutRow(Pending, 0, s.now)], sends := s.sends[i := 0]))
  {
    var t := s.(intents := intents, outbox := s.outbox[i := OutRow(Pending, 0, s.now)], sends := s.sends[i := 0]);
    forall j | j in t.outbox ensures SendsOk(t, j) {
      assert j != i ==> SendsOk(s, j);
    }
    forall k | 0 <= k < |Submitting(t.worker)| ensures Sends(t, Submitting(t.worker)[k].id) <= Submitting(t.worker)[k].attempts {
      assert Submitting(s.worker) == Holding(s.worker);
      assert HeldOk(s, Holding(s.worker)[k]);
    }
  }

  lemma PeopleKeepRetries(c: Config, s: State, e: Event)
    requires Good(s) && RetriesOk(s) && People(c, s, e).Some?
    ensures RetriesOk(People(c, s, e).value)
  {
    var t := People(c, s, e).value;
    if e.HumanApproves? {
      OpeningKeepsRetries(s, e.id, t.intents);
    } else if e.VerifierApproves? {
      OpeningKeepsRetries(s, e.id, t.intents[..|s.intents|]);
      if e.fee > 0 {
        ApprovalKeepsGood(s, e.id, e.user);
        var u := VerifierApproved(s, e.id, e.user);
        UntouchedKeepsGood(u, u.(sends := s.sends[e.id := 0]));
        OpeningKeepsRetries(u.(sends := s.sends[e.id := 0]), |s.intents|, t.intents);
      }
    } else {
      SteadyKeepsRetries(s, t);
    }
  }

  lemma CreditIsSteady(s: State, m: Tx)
    requires m.Mint?
    ensures SteadyRows(s, Credit(s, m)) && Credit(s, m).worker == s.worker
  {
  }

  lemma WatchIsSteady(c: Config, s: State, e: Event)
    requires Watch(c, s, e).Some?
    ensures Steady(s, Watch(c, s, e).value)
  {
    if e.WatchTx? && s.blocks[s.cursor][s.watcher.next].Mint? {
      CreditIsSteady(s, s.blocks[s.cursor][s.watcher.next]);
      hide Credit;
    }
  }

  lemma RescueKeepsRetries(c: Config, s: State, e: Event)
    requires Good(s) && RetriesOk(s) && Rescue(c, s, e).Some?
    ensures RetriesOk(Rescue(c, s, e).value)
  {
    var t := Rescue(c, s, e).value;
    if e.Requeue? {
      assert HeldOk(s, Holding(s.worker)[0]);
    }
    forall i | i in t.outbox ensures SendsOk(t, i) {
      assert i in s.outbox ==> SendsOk(s, i);
    }
    if e.SelectDue? {
      DueRowsAreBelow(s, |s.intents|);
    }
  }

  lemma RecordKeepsRetries(c: Config, s: State)
    requires Good(s) && RetriesOk(s) && Submit(c, s, Record).Some?
    ensures RetriesOk(Submit(c, s, Record).value)
  {
    var t, d := Submit(c, s, Record).value, s.worker.head;
    assert Submitting(s.worker) == Holding(s.worker) && Holding(s.worker)[0] == d && Holding(s.worker)[1..] == s.worker.queue;
    RestIsOk(s, Holding(s.worker));
    assert Sends(s, d.id) <= d.attempts;
    forall i | i in t.outbox ensures SendsOk(t, i) {
      assert SendsOk(s, i);
    }
    forall k | 0 <= k < |s.worker.queue| ensures Sends(t, s.worker.queue[k].id) <= s.worker.queue[k].attempts {
      assert s.worker.queue[k] == Submitting(s.worker)[k + 1];
    }
  }

  lemma SubmitKeepsRows(c: Config, s: State, e: Event)
    requires Good(s) && Submit(c, s, e).Some? && !e.Record?
    ensures SteadyRows(s, Submit(c, s, e).value)
  {
    hide Good;
    if Working(s) {
      WorkingRow(s);
    }
  }

  lemma SubmitKeepsQueue(c: Config, s: State, e: Event)
    requires Submit(c, s, e).Some? && !e.Record?
    ensures SteadyQueue(s, Submit(c, s, e).value)
  {
    if Working(s) {
      assert Submitting(s.worker)[1..] == Rest(s) && Submitting(s.worker)[0] == Current(s);
    }
  }

  lemma SubmitKeepsRetries(c: Config, s: State, e: Event)
    requires Good(s) && RetriesOk(s) && Submit(c, s, e).Some?
    ensures RetriesOk(Submit(c, s, e).value)
  {
    if e.Record? {
      RecordKeepsRetries(c, s);
    } else {
      SubmitKeepsRows(c, s, e);
      SubmitKeepsQueue(c, s, e);
      hide Submit;
      SteadyKeepsRetries(s, Submit(c, s, e).value);
    }
  }

  lemma StepKeepsRetries(c: Config, s: State, e: Event)
    requires Good(s) && RetriesOk(s) && Step(c, s, e).Some?
    ensures RetriesOk(Step(c, s, e).value)
  {
    if People(c, s, e).Some? {
      PeopleKeepRetries(c, s, e);
    } else if Chain(c, s, e).Some? {
      SteadyKeepsRetries(s, Step(c, s, e).value);
    } else if Watch(c, s, e).Some? {
      WatchIsSteady(c, s, e);
      SteadyKeepsRetries(s, Watch(c, s, e).value);
    } else if Rescue(c, s, e).Some? {
      RescueKeepsRetries(c, s, e);
    } else {
      SubmitKeepsRetries(c, s, e);
    }
  }

  lemma {:induction false} RunKeepsRetries(c: Config, events: seq<Event>)
    requires Run(c, START, events).Some?
    ensures RetriesOk(Run(c, START, events).value)
  {
    if events != [] {
      var n := |events| - 1;
      RunKeepsRetries(c, events[..n]);
      RunKeepsGood(c, START, events[..n]);
      StepKeepsRetries(c, Run(c, START, events[..n]).value, events[n]);
    }
  }

  /** In every run, for every intent, whatever the node answers. */
  lemma AtMostElevenSends(c: Config, events: seq<Event>, s: State, i: nat)
    requires Run(c, START, events) == Some(s)
    ensures Sends(s, i) <= MAX_ATTEMPTS + 1
  {
    RunKeepsRetries(c, events);
    assert i in s.sends ==> i in s.outbox && SendsOk(s, i);
  }

  // ----- the bound is reached --------------------------------------------------------------------

  const OPEN := Config(1, 1, 0)

  /** A mint the node keeps taking and no block ever holds: `k` is the attempts it has cost so far. */
  function Unmined(k: nat, status: Status, out: OutStatus, sends: nat, now: int, worker: Worker): State {
    START.(intents := [Intent(1, true, status, 0, now)], outbox := map[0 := OutRow(out, k, now)], now := now,
           reached := {Booking(0, 1)}, passed := {0}, sends := map[0 := sends], worker := worker)
  }

  function Again(now: int): seq<Event> {
    [Tick(now), StartPass, Requeue, SelectDue, Pass, NodeTakes, Record, EndPass]
  }

  /** As it stands between two passes, last written at `last`. */
  function Waiting(k: nat, last: int): State {
    Unmined(k, Submitted, Sent, k + 1, last, Resting)
  }

  function RequeuedAt(k: nat, last: int, worker: Worker): State {
    Unmined(k + 1, Submitted, Pending, k + 1, last + 601, worker).(intents := [Intent(1, true, Submitted, 0, last)])
  }

  lemma Single<T>(a: T, b: T)
    ensures [a][0 := b] == [b] && map[0 := a][0 := b] == map[0 := b] && [a][1..] == []
  {
  }

  lemma RequeuedAgain(k: nat, last: int)
    requires k < MAX_ATTEMPTS
    ensures var s := Waiting(k, last); var t := s.(now := last + 601); var u := t.(worker := Rescuing([Due(0, k)]));
            && Step(OPEN, s, Tick(last + 601)) == Some(t)
            && Step(OPEN, t, StartPass) == Some(u)
            && Step(OPEN, u, Requeue) == Some(RequeuedAt(k, last, Rescuing([])))
  {
    var t := Waiting(k, last).(now := last + 601);
    assert StuckRows(t, 0) == [] && StuckRows(t, 1) == [] + [Due(0, k)] == [Due(0, k)];
    Single(Due(0, k), Due(0, k));
    Single(OutRow(Sent, k, last), OutRow(Pending, k + 1, last + 601));
  }

  lemma SelectedAgain(k: nat, last: int)
    requires k < MAX_ATTEMPTS
    ensures Step(OPEN, RequeuedAt(k, last, Rescuing([])), SelectDue) == Some(RequeuedAt(k, last, Draining([Due(0, k + 1)])))
  {
    var t, d := RequeuedAt(k, last, Rescuing([])), Due(0, k + 1);
    assert DueRows(t, 0) == [] && DueRows(t, 1) == [] + [d] == [d];
  }

  lemma PassedAgain(k: nat, last: int)
    requires k < MAX_ATTEMPTS
    ensures var d := Due(0, k + 1);
            Step(OPEN, RequeuedAt(k, last, Draining([d])), Pass) == Some(RequeuedAt(k, last, Passed(d, [])))
  {
    var t, d := RequeuedAt(k, last, Draining([Due(0, k + 1)])), Due(0, k + 1);
    SubmitSteps(OPEN, t, Pass);
    hide Step;
    assert DayTotal(t.intents, 0, t.now, Some(0)) == 0 && DayTotal(t.intents, 1, t.now, Some(0)) == 0;
    Single(d, d);
    assert {0} + {0} == {0};
  }

  lemma RecordedAgain(k: nat, last: int)
    requires k < MAX_ATTEMPTS
    ensures var d := Due(0, k + 1); var u := Waiting(k + 1, last + 601);
            && Step(OPEN, RequeuedAt(k, last, Passed(d, [])), NodeTakes) == Some(RequeuedAt(k, last, Answered(d, [])))
            && Step(OPEN, RequeuedAt(k, last, Answered(d, [])), Record) == Some(u.(worker := Draining([])))
            && Step(OPEN, u.(worker := Draining([])), EndPass) == Some(u)
  {
    var t, u := RequeuedAt(k, last, Rescuing([])), Waiting(k + 1, last + 601);
    assert {Booking(0, 1)} + {Booking(0, 1)} == {Booking(0, 1)};
    Single(t.intents[0], u.intents[0]);
    Single(t.outbox[0], u.outbox[0]);
    Single(k + 1, k + 2);
  }

  lemma SentAgain(k: nat, last: int)
    requires k < MAX_ATTEMPTS
    ensures Run(OPEN, Waiting(k, last), Again(last + 601)) == Some(Waiting(k + 1, last + 601))
  {
    var s, d, u := Waiting(k, last), Due(0, k + 1), Waiting(k + 1, last + 601);
    var t := s.(now := last + 601);
    RequeuedAgain(k, last);
    SelectedAgain(k, last);
    PassedAgain(k, last);
    RecordedAgain(k, last);
    hide Step;
    var four := [Tick(last + 601), StartPass, Requeue, SelectDue];
    FourSteps(OPEN, s, Tick(last + 601), t, StartPass, t.(worker := Rescuing([Due(0, k)])), Requeue,
              RequeuedAt(k, last, Rescuing([])), SelectDue, RequeuedAt(k, last, Draining([d])));
    FourSteps(OPEN, RequeuedAt(k, last, Draining([d])), Pass, RequeuedAt(k, last, Passed(d, [])), NodeTakes,
              RequeuedAt(k, last, Answered(d, [])), Record, u.(worker := Draining([])), EndPass, u);
    RunsJoin(OPEN, s, four, RequeuedAt(k, last, Draining([d])), [Pass, NodeTakes, Record, EndPass]);
    assert Again(last + 601) == four + [Pass, NodeTakes, Record, EndPass];
  }

  /** Created, approved and sent for the first time. */
  function Opening(): seq<Event> {
    [Create(1, true), HumanApproves(0), StartPass, SelectDue, Pass, NodeTakes, Record, EndPass]
  }

  function JustApproved(worker: Worker): State {
    START.(intents := [Intent(1, true, Approved, 0, 0)], outbox := map[0 := OutRow(Pending, 0, 0)], sends := map[0 := 0], worker := worker)
  }

  lemma ApprovedOnce()
    ensures var t := START.(intents := [Intent(1, true, Created, 0, 0)]);
            && Step(OPEN, START, Create(1, true)) == Some(t)
            && Step(OPEN, t, HumanApproves(0)) == Some(JustApproved(Resting))
            && Step(OPEN, JustApproved(Resting), StartPass) == Some(JustApproved(Rescuing([])))
  {
    var a, s := Intent(1, true, Created, 0, 0), JustApproved(Resting);
    assert [] + [a] == [a] && StuckRows(s, 0) == [] && StuckRows(s, 1) == [];
    assert DayTotal([a], 0, 0, None) == 0 && DayTotal([a], 1, 0, None) == 0;
    Single(a, s.intents[0]);
  }

  lemma SelectedOnce()
    ensures Step(OPEN, JustApproved(Rescuing([])), SelectDue) == Some(JustApproved(Draining([Due(0, 0)])))
  {
    var d, s := Due(0, 0), JustApproved(Rescuing([]));
    assert DueRows(s, 0) == [] && DueRows(s, 1) == [] + [d] == [d];
  }

  lemma PassedOnce()
    ensures var d := Due(0, 0); Step(OPEN, JustApproved(Draining([d])), Pass) == Some(JustApproved(Passed(d, [])).(passed := {0}))
  {
    var d, s := Due(0, 0), JustApproved(Draining([Due(0, 0)]));
    SubmitSteps(OPEN, s, Pass);
    hide Step;
    assert DayTotal(s.intents, 0, 0, Some(0)) == 0 && DayTotal(s.intents, 1, 0, Some(0)) == 0 && {} + {0} == {0};
    Single(d, d);
  }

  lemma RecordedOnce()
    ensures var d := Due(0, 0); var u := JustApproved(Answered(d, [])).(passed := {0}, reached := {Booking(0, 1)});
            && Step(OPEN, JustApproved(Passed(d, [])).(passed := {0}), NodeTakes) == Some(u)
            && Step(OPEN, u, Record) == Some(Waiting(0, 0).(worker := Draining([])))
            && Step(OPEN, Waiting(0, 0).(worker := Draining([])), EndPass) == Some(Waiting(0, 0))
  {
    var u, v := JustApproved(Resting), Waiting(0, 0);
    assert {} + {Booking(0, 1)} == {Booking(0, 1)};
    Single(u.intents[0], v.intents[0]);
    Single(u.outbox[0], v.outbox[0]);
    Single(0, 1);
  }

  lemma SentOnce()
    ensures Run(OPEN, START, Opening()) == Some(Waiting(0, 0))
  {
    var d, v := Due(0, 0), Waiting(0, 0);
    ApprovedOnce();
    SelectedOnce();
    PassedOnce();
    RecordedOnce();
    hide Step;
    var four := [Create(1, true), HumanApproves(0), StartPass, SelectDue];
    FourSteps(OPEN, START, Create(1, true), START.(intents := [Intent(1, true, Created, 0, 0)]), HumanApproves(0),
              JustApproved(Resting), StartPass, JustApproved(Rescuing([])), SelectDue, JustApproved(Draining([d])));
    FourSteps(OPEN, JustApproved(Draining([d])), Pass, JustApproved(Passed(d, [])).(passed := {0}), NodeTakes,
              JustApproved(Answered(d, [])).(passed := {0}, reached := {Booking(0, 1)}), Record,
              v.(worker := Draining([])), EndPass, v);
    RunsJoin(OPEN, START, four, JustApproved(Draining([d])), [Pass, NodeTakes, Record, EndPass]);
    assert Opening() == four + [Pass, NodeTakes, Record, EndPass];
  }

  lemma OneRoundMore(k: nat, events: seq<Event>, last: int)
    requires k < MAX_ATTEMPTS && Run(OPEN, START, events) == Some(Waiting(k, last))
    ensures Run(OPEN, START, events + Again(last + 601)) == Some(Waiting(k + 1, last + 601))
  {
    SentAgain(k, last);
    RunsJoin(OPEN, START, events, Waiting(k, last), Again(last + 601));
  }

  /** And sent again `k` times. */
  lemma {:induction false} SentOften(k: nat) returns (events: seq<Event>, last: int)
    requires k <= MAX_ATTEMPTS
    ensures Run(OPEN, START, events) == Some(Waiting(k, last))
  {
    hide Step;
    hide Run;
    if k == 0 {
      SentOnce();
      events, last := Opening(), 0;
    } else {
      events, last := SentOften(k - 1);
      OneRoundMore(k - 1, events, last);
      events, last := events + Again(last + 601), last + 601;
    }
  }

  /** The eleventh send does happen. */
  lemma ElevenSendsHappen()
    ensures exists events: seq<Event> :: Run(OPEN, START, events).Some? && Sends(Run(OPEN, START, events).value, 0) == MAX_ATTEMPTS + 1
  {
    var events, last := SentOften(MAX_ATTEMPTS);
    assert Run(OPEN, START, events).Some?;
  }
}
