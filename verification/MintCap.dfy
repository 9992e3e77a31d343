/**
 The rolling mint cap.

 The verifier approves without looking at the daily cap, approvals queue up beyond it, and sends are repeated,
 given up and approved again. Taking each breaker check and the status write it guards as one step, the intents
 that were sent, `submitted` or `credited`, and created in the last 24 hours never come to more than the cap.
 */
module MintCap {
  import opened Basics
  import opened MintPipeline

  /** What has been sent of the mints created in the last 24 hours. */
  function SentTotal(intents: seq<Intent>, now: int): int {
    if intents == [] then 0
    else
      var last := intents[|intents| - 1];
      SentTotal(intents[..|intents| - 1], now)
      + (if (last.status == Submitted || last.status == Credited) && now - last.createdAt < 24 * 3600 then last.amount else 0)
  }

  /** What the breakers hold against the daily cap: approved, sent or credited, created in the last 24 hours, but the one
      asked about. */
  function HeldAgainst(intents: seq<Intent>, except: Option<nat>, now: int): int {
    if intents == [] then 0
    else
      var n, last := |intents| - 1, intents[|intents| - 1];
      HeldAgainst(intents[..n], except, now)
      + (if (last.status == Approved || last.status == Submitted || last.status == Credited) && now - last.createdAt < 24 * 3600
            && except != Some(n) then last.amount else 0)
  }

  lemma {:induction false} DayTotalIsHeld(intents: seq<Intent>, n: nat, now: int, except: Option<nat>)
    requires n <= |intents|
    ensures DayTotal(intents, n, now, except) == HeldAgainst(intents[..n], except, now)
  {
    if n > 0 {
      DayTotalIsHeld(intents, n - 1, now, except);
      assert intents[..n][..n - 1] == intents[..n - 1];
    }
  }

  /** What intent `i` takes of the cap once the breakers have let it through. */
  function Share(s: State, i: nat): int
    requires i < |s.intents|
  {
    if i in s.passed then Weight(s.intents[i], s.now) else 0
  }

  function PassedTotal(s: State, n: nat): int
    requires n <= |s.intents|
  {
    if n == 0 then 0 else PassedTotal(s, n - 1) + Share(s, n - 1)
  }

  predicate ShareShrinks(s: State, t: State, i: nat)
    requires i < |t.intents|
  {
    Share(t, i) <= if i < |s.intents| then Share(s, i) else 0
  }

  /** No share grows: the total does not either. */
  lemma {:induction false} SharesShrink(s: State, t: State, n: nat)
    requires n <= |t.intents| && |s.intents| <= |t.intents|
    requires forall i: nat :: i < n ==> ShareShrinks(s, t, i)
    ensures PassedTotal(t, n) <= PassedTotal(s, Min(n, |s.intents|))
  {
    if n > 0 {
      SharesShrink(s, t, n - 1);
      assert ShareShrinks(s, t, n - 1);
    }
  }

  /** Whatever has passed is part of the day's total. */
  lemma {:induction false} PassedWithinDay(s: State, n: nat, except: Option<nat>)
    requires Good(s) && n <= |s.intents|
    ensures PassedTotal(s, n)
            <= DayTotal(s.intents, n, s.now, except) + (if except.Some? && except.value < n then Share(s, except.value) else 0)
  {
    if n > 0 {
      assert IntentOk(s, n - 1);
      PassedWithinDay(s, n - 1, except);
    }
  }

  lemma {:induction false} DayTotalTouch(a: seq<Intent>, b: seq<Intent>, n: nat, now: int, i: nat)
    requires n <= |a| == |b| && i < |a| && forall j :: 0 <= j < |a| && j != i ==> b[j] == a[j]
    ensures DayTotal(b, n, now, None) == DayTotal(a, n, now, None) + if i < n then Weight(b[i], now) - Weight(a[i], now) else 0
  {
    if n > 0 {
      DayTotalTouch(a, b, n - 1, now, i);
    }
  }

  /** A person may approve what is not decided, or was left to them, exactly when the treasury is not halted and the mint is
      within both caps; and then it is queued to be sent at once. */
  lemma ApprovedByAPerson(c: Config, s: State, i: nat)
    ensures Step(c, s, HumanApproves(i)).Some? <==>
            && i < |s.intents| && (s.intents[i].status == Created || s.intents[i].status == NeedsManual)
            && !s.halted && s.intents[i].amount <= c.perTxCap && HeldAgainst(s.intents, None, s.now) + s.intents[i].amount <= c.dailyCap
    ensures Step(c, s, HumanApproves(i)).Some? ==>
              var t := Step(c, s, HumanApproves(i)).value;
              && t.intents == s.intents[i := s.intents[i].(status := Approved, updatedAt := s.now)]
              && t.outbox == s.outbox[i := OutRow(Pending, 0, s.now)] && t.reached == s.reached && t.ledger == s.ledger
  {
    DayTotalIsHeld(s.intents, |s.intents|, s.now, None);
    assert s.intents[..|s.intents|] == s.intents;
  }

  /** A person approves within the cap, so whatever passed before is still within it. */
  lemma HumanKeepsCap(c: Config, s: State, i: nat)
    requires Good(s) && People(c, s, HumanApproves(i)).Some?
    ensures var t := People(c, s, HumanApproves(i)).value; Good(t) && PassedTotal(t, |t.intents|) <= c.dailyCap
  {
    var t := People(c, s, HumanApproves(i)).value;
    PeopleKeepsGood(c, s, HumanApproves(i));
    PassedWithinDay(t, |t.intents|, None);
    DayTotalTouch(s.intents, t.intents, |s.intents|, s.now, i);
    assert IntentOk(s, i);
  }

  lemma PassKeepsCap(c: Config, s: State)
    requires Good(s) && Submit(c, s, Pass).Some?
    ensures var t := Submit(c, s, Pass).value; PassedTotal(t, |t.intents|) <= c.dailyCap
  {
    var t, i := Submit(c, s, Pass).value, Current(s).id;
    SubmitKeepsGood(c, s, Pass);
    PassedWithinDay(t, |t.intents|, Some(i));
    assert IntentOk(s, i);
  }

  lemma PeopleShrink(c: Config, s: State, e: Event, i: nat)
    requires Good(s) && People(c, s, e).Some? && !e.HumanApproves? && i < |People(c, s, e).value.intents|
    ensures ShareShrinks(s, People(c, s, e).value, i)
  {
    assert i < |s.intents| ==> IntentOk(s, i);
    assert i in s.passed ==> i < |s.intents|;
  }

  lemma WatchShrinks(c: Config, s: State, e: Event, i: nat)
    requires Good(s) && Watch(c, s, e).Some? && i < |s.intents| == |Watch(c, s, e).value.intents|
    ensures ShareShrinks(s, Watch(c, s, e).value, i)
  {
  }

  lemma RescueShrinks(c: Config, s: State, e: Event, i: nat)
    requires Good(s) && Rescue(c, s, e).Some? && i < |s.intents| == |Rescue(c, s, e).value.intents|
    ensures ShareShrinks(s, Rescue(c, s, e).value, i)
  {
    assert IntentOk(s, i);
  }

  lemma SubmitShrinks(c: Config, s: State, e: Event, i: nat)
    requires Good(s) && Submit(c, s, e).Some? && !e.Pass? && i < |s.intents| == |Submit(c, s, e).value.intents|
    ensures ShareShrinks(s, Submit(c, s, e).value, i)
  {
    assert IntentOk(s, i);
    if s.worker.Answered? {
      assert HeldOk(s, Holding(s.worker)[0]);
    }
  }

  lemma OtherSharesShrink(c: Config, s: State, e: Event, i: nat)
    requires Good(s) && Step(c, s, e).Some? && !e.HumanApproves? && !e.Pass? && i < |Step(c, s, e).value.intents|
    ensures ShareShrinks(s, Step(c, s, e).value, i)
  {
    if People(c, s, e).Some? {
      PeopleShrink(c, s, e, i);
    } else if Chain(c, s, e).Some? {
    } else if Watch(c, s, e).Some? {
      WatchShrinks(c, s, e, i);
    } else if Rescue(c, s, e).Some? {
      RescueShrinks(c, s, e, i);
    } else {
      SubmitShrinks(c, s, e, i);
    }
  }

  lemma StepGrows(c: Config, s: State, e: Event)
    requires Step(c, s, e).Some?
    ensures |s.intents| <= |Step(c, s, e).value.intents|
  {
  }

  lemma StepKeepsCap(c: Config, s: State, e: Event)
    requires Good(s) && PassedTotal(s, |s.intents|) <= c.dailyCap && Step(c, s, e).Some?
    ensures var t := Step(c, s, e).value; PassedTotal(t, |t.intents|) <= c.dailyCap
  {
    var t := Step(c, s, e).value;
    StepGrows(c, s, e);
    if e.HumanApproves? {
      assert Step(c, s, e) == People(c, s, e);
      HumanKeepsCap(c, s, e.id);
    } else if e.Pass? {
      assert Step(c, s, e) == Submit(c, s, e);
      PassKeepsCap(c, s);
    } else {
      hide Step;
      forall i: nat | i < |t.intents| ensures ShareShrinks(s, t, i) {
        OtherSharesShrink(c, s, e, i);
      }
      SharesShrink(s, t, |t.intents|);
    }
  }

  lemma {:induction false} RunKeepsCap(c: Config, events: seq<Event>)
    requires Run(c, START, events).Some?
    ensures var t := Run(c, START, events).value; PassedTotal(t, |t.intents|) <= c.dailyCap
  {
    if events != [] {
      var n := |events| - 1;
      RunKeepsCap(c, events[..n]);
      RunKeepsGood(c, START, events[..n]);
      StepKeepsCap(c, Run(c, START, events[..n]).value, events[n]);
    }
  }

  lemma {:induction false} SentWasPassed(s: State, n: nat)
    requires Good(s) && n <= |s.intents|
    ensures SentTotal(s.intents[..n], s.now) <= PassedTotal(s, n)
  {
    if n > 0 {
      SentWasPassed(s, n - 1);
      assert s.intents[..n][..n - 1] == s.intents[..n - 1];
      assert IntentOk(s, n - 1);
    }
  }

  /** At every moment of every run. */
  lemma RollingMintCap(c: Config, events: seq<Event>, s: State)
    requires Run(c, START, events) == Some(s)
    ensures SentTotal(s.intents, s.now) <= c.dailyCap
  {
    RunKeepsCap(c, events);
    RunKeepsGood(c, START, events);
    SentWasPassed(s, |s.intents|);
    assert s.intents[..|s.intents|] == s.intents;
  }
}
