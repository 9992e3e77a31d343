/**
 The rolling payout cap.

 A pass reads once what the last 24 hours have spent, and charges its own claims as it goes. The total stays
 within the cap in every run in which the database takes each claim and each return; each such write lost can
 let one more cap through.
 */
module PayoutBudget {
  import opened Basics
  import opened Payouts

  /** A claim whose acknowledgement is lost, or a return the database does not take: the row counts from now
      on, and the running pass has not charged it. */
  datatype Loss = LostClaim | LostReturn

  function LossOf(e: Event): Option<Loss> {
    if e.ClaimErrors? && e.committed then Some(LostClaim)
    else if e.ReplyUnsigned? && !e.recorded then Some(LostReturn)
    else None
  }

  predicate Loses(e: Event) {
    LossOf(e).Some?
  }

  ghost predicate LosesOnly(events: seq<Event>, losses: set<Loss>) {
    forall n :: 0 <= n < |events| && Loses(events[n]) ==> LossOf(events[n]).value in losses
  }

  /** What the last 24 hours have claimed and is in flight or paid. */
  function Spent(s: State): int {
    SpentBy(s.rows, s.now)
  }

  function SpentBy(rows: seq<Row>, now: int): int {
    if rows == [] then 0
    else
      var r := rows[|rows| - 1];
      SpentBy(rows[..|rows| - 1], now)
      + (if (r.status == Submitted || r.status == Paid) && now - r.submittedAt < 24 * 3600 then r.amountClt else 0)
  }

  /** It is what a pass starts from. */
  lemma {:induction false} SpentIsTheDayTotal(rows: seq<Row>, now: int)
    ensures SpentBy(rows, now) == DayTotal(rows, now)
  {
    if rows != [] {
      SpentIsTheDayTotal(rows[..|rows| - 1], now);
    }
  }

  /** The cap, and once more for every lost write of the run. */
  function Allowance(c: Config, events: seq<Event>): int {
    if events == [] then c.cap
    else Allowance(c, events[..|events| - 1]) + (if Loses(events[|events| - 1]) then c.cap else 0)
  }

  ghost predicate Within(c: Config, s: State, allowed: int) {
    && c.cap <= allowed
    && (forall i :: 0 <= i < |s.rows| ==> s.rows[i].amountClt > 0)
    && DayTotal(s.rows, s.now) <= allowed
    && match s.worker
       case Idle => true
       case Draining(_, spent) => 0 <= spent && DayTotal(s.rows, s.now) - spent <= allowed - c.cap
       case Waiting(i, _, spent, _) =>
         && i < |s.rows| && s.rows[i].status == Submitted
         && DayTotal(s.rows, s.now) - Weight(s.rows[i], s.now) - spent <= allowed - c.cap
         && 0 <= spent && spent + s.rows[i].amountClt <= c.cap
  }

  lemma {:induction false} DayTotalUpdate(rows: seq<Row>, now: int, i: nat, r: Row)
    requires i < |rows|
    ensures DayTotal(rows[i := r], now) == DayTotal(rows, now) - Weight(rows[i], now) + Weight(r, now)
  {
    var n := |rows| - 1;
    if i == n {
      assert rows[i := r][..n] == rows[..n];
    } else {
      DayTotalUpdate(rows[..n], now, i, r);
      assert rows[i := r][..n] == rows[..n][i := r];
    }
  }

  lemma {:induction false} DayTotalIsNatural(rows: seq<Row>, now: int)
    requires forall i :: 0 <= i < |rows| ==> rows[i].amountClt > 0
    ensures DayTotal(rows, now) >= 0
  {
    if rows != [] {
      DayTotalIsNatural(rows[..|rows| - 1], now);
    }
  }

  /** Time only lets spent budget go. */
  lemma {:induction false} DayTotalAges(rows: seq<Row>, now: int, later: int)
    requires now <= later && forall i :: 0 <= i < |rows| ==> rows[i].amountClt > 0
    ensures DayTotal(rows, later) <= DayTotal(rows, now)
  {
    if rows != [] {
      DayTotalAges(rows[..|rows| - 1], now, later);
    }
  }

  /** As it does for every row but the one a payout is being claimed for. */
  lemma {:induction false} OthersAge(rows: seq<Row>, now: int, later: int, i: nat)
    requires now <= later && i < |rows| && forall j :: 0 <= j < |rows| ==> rows[j].amountClt > 0
    ensures DayTotal(rows, later) - Weight(rows[i], later) <= DayTotal(rows, now) - Weight(rows[i], now)
  {
    var n := |rows| - 1;
    if i == n {
      DayTotalAges(rows[..n], now, later);
    } else {
      OthersAge(rows[..n], now, later, i);
    }
  }

  lemma TickKeepsWithin(c: Config, s: State, now: int, allowed: int)
    requires Within(c, s, allowed) && s.now <= now
    ensures Within(c, s.(now := now), allowed)
  {
    DayTotalAges(s.rows, s.now, now);
    if s.worker.Waiting? {
      OthersAge(s.rows, s.now, now, s.worker.row);
    }
  }

  lemma NewRowKeepsWithin(c: Config, s: State, r: Row, allowed: int)
    requires Within(c, s, allowed) && r.amountClt > 0 && r.status == Created
    ensures Within(c, s.(rows := s.rows + [r]), allowed)
  {
    var rows := s.rows + [r];
    assert rows[..|s.rows|] == s.rows && rows[|s.rows|] == r;
    assert DayTotal(rows, s.now) == DayTotal(s.rows, s.now);
  }

  lemma BurnKeepsWithin(c: Config, s: State, i: nat, status: Status, allowed: int)
    requires Within(c, s, allowed) && i < |s.rows| && s.rows[i].status == Created && (status == Pending || status == Failed)
    ensures Within(c, SetRow(s, i, s.rows[i].(status := status)), allowed)
  {
    DayTotalUpdate(s.rows, s.now, i, s.rows[i].(status := status));
  }

  lemma AroundKeepsWithin(c: Config, s: State, e: Event, allowed: int)
    requires Within(c, s, allowed) && Around(c, s, e).Some?
    ensures Within(c, Around(c, s, e).value, allowed)
  {
    if e.Tick? {
      TickKeepsWithin(c, s, e.to, allowed);
    } else if e.Request? {
      NewRowKeepsWithin(c, s, Row(e.payTo, e.amountClt, e.quote, Created, 0, None, None, None, None), allowed);
    } else if e.BurnConfirmed? {
      BurnKeepsWithin(c, s, e.row, Pending, allowed);
    } else if e.BurnMismatched? {
      BurnKeepsWithin(c, s, e.row, Failed, allowed);
    }
  }

  lemma DrainKeepsWithin(c: Config, s: State, e: Event, allowed: int)
    requires Within(c, s, allowed) && Drain(c, s, e).Some?
    ensures Within(c, Drain(c, s, e).value, if Loses(e) then allowed + c.cap else allowed)
  {
    if e.StartDrain? {
      DayTotalIsNatural(s.rows, s.now);
    } else if e.Claim? || (e.ClaimErrors? && e.committed) {
      TakingKeepsWithin(c, s, e, allowed);
    }
  }

  lemma TakingKeepsWithin(c: Config, s: State, e: Event, allowed: int)
    requires Within(c, s, allowed) && Drain(c, s, e).Some? && (e.Claim? || (e.ClaimErrors? && e.committed))
    ensures Within(c, Drain(c, s, e).value, if Loses(e) then allowed + c.cap else allowed)
  {
    var t := Drain(c, s, e).value;
    var i := s.worker.queue[0];
    DayTotalUpdate(s.rows, s.now, i, t.rows[i]);
  }

  lemma ReplyKeepsWithin(c: Config, s: State, e: Event, allowed: int)
    requires Within(c, s, allowed) && Reply(c, s, e).Some?
    ensures Within(c, Reply(c, s, e).value, if Loses(e) then allowed + c.cap else allowed)
  {
    var t := Reply(c, s, e).value;
    var i := s.worker.row;
    assert t.rows == s.rows[i := t.rows[i]] && t.now == s.now && t.rows[i].amountClt == s.rows[i].amountClt;
    DayTotalUpdate(s.rows, s.now, i, t.rows[i]);
    ReplyCharges(c, s, e);
  }

  /** After a reply the pass is over, or the row no longer counts, or it has been charged, or it is lost. */
  lemma ReplyCharges(c: Config, s: State, e: Event)
    requires s.worker.Waiting? && s.worker.row < |s.rows| && s.rows[s.worker.row].status == Submitted
    requires s.rows[s.worker.row].amountClt > 0 && Reply(c, s, e).Some?
    ensures var t := Reply(c, s, e).value; var i := s.worker.row;
            && Weight(t.rows[i], t.now) <= Weight(s.rows[i], s.now)
            && (t.worker.Idle?
                || (t.worker.Draining? && t.worker.dayTotal == s.worker.dayTotal && (Weight(t.rows[i], t.now) == 0 || Loses(e)))
                || (t.worker.Draining? && t.worker.dayTotal == s.worker.dayTotal + s.rows[i].amountClt))
  {
  }

  lemma SettleKeepsWithin(c: Config, s: State, e: Event, allowed: int)
    requires Within(c, s, allowed) && Settle(c, s, e).Some?
    ensures Within(c, Settle(c, s, e).value, allowed)
  {
    DayTotalUpdate(s.rows, s.now, e.row, Settle(c, s, e).value.rows[e.row]);
  }

  lemma StepKeepsWithin(c: Config, s: State, e: Event, allowed: int)
    requires Within(c, s, allowed) && Step(c, s, e).Some?
    ensures Within(c, Step(c, s, e).value, if Loses(e) then allowed + c.cap else allowed)
  {
    if Around(c, s, e).Some? {
      AroundKeepsWithin(c, s, e, allowed);
    } else if Drain(c, s, e).Some? {
      DrainKeepsWithin(c, s, e, allowed);
    } else if Reply(c, s, e).Some? {
      ReplyKeepsWithin(c, s, e, allowed);
    } else {
      SettleKeepsWithin(c, s, e, allowed);
    }
  }

  lemma {:induction false} RunKeepsWithin(c: Config, events: seq<Event>)
    requires Run(c, START, events).Some?
    ensures Within(c, Run(c, START, events).value, Allowance(c, events))
  {
    if events != [] {
      var n := |events| - 1;
      RunKeepsWithin(c, events[..n]);
      StepKeepsWithin(c, Run(c, START, events[..n]).value, events[n], Allowance(c, events[..n]));
    }
  }

  lemma {:induction false} NothingLost(c: Config, events: seq<Event>)
    requires forall n :: 0 <= n < |events| ==> !Loses(events[n])
    ensures Allowance(c, events) == c.cap
  {
    if events != [] {
      assert forall n :: 0 <= n < |events| - 1 ==> events[..|events| - 1][n] == events[n];
      NothingLost(c, events[..|events| - 1]);
    }
  }

  /** At every moment of every run, the redemptions claimed in the last 24 hours and in flight or paid come
      to no more than the cap, plus once the cap for each lost write: to the cap, when none is lost. */
  lemma RollingPayoutCap(c: Config, events: seq<Event>, s: State)
    requires Run(c, START, events) == Some(s)
    ensures Spent(s) <= Allowance(c, events)
    ensures (forall n :: 0 <= n < |events| ==> !Loses(events[n])) ==> Spent(s) <= c.cap
  {
    RunKeepsWithin(c, events);
    SpentIsTheDayTotal(s.rows, s.now);
    if forall n :: 0 <= n < |events| ==> !Loses(events[n]) {
      NothingLost(c, events);
    }
  }

  /** One lost return is enough to spend the cap twice: the row it leaves behind counts, and the pass does not
      know. */
  lemma OneLostReturnSpendsTheCapTwice(c: Config) returns (events: seq<Event>)
    requires c.cap > 0
    ensures LosesOnly(events, {LostReturn})
    ensures Run(c, START, events).Some? && Spent(Run(c, START, events).value) == 2 * c.cap
  {
    var es := TwoDue(c.cap) + [StartDrain] + [Claim];
    var d, u := Due(c.cap), Due(c.cap).(status := Submitted);
    var s := START.(rows := [u, d], calls := map[0 := None], worker := Waiting(0, [1], 0, NotYet));
    var t := START.(rows := [u, d], worker := Draining([1], 0));
    FirstClaimed(c, c.cap);
    OneMore(c, START, es, s, ReplyUnsigned(false), t);
    LastClaim(c, es + [ReplyUnsigned(false)]);
    events := es + [ReplyUnsigned(false)] + [Claim];
  }

  /** So is one lost claim. */
  lemma OneLostClaimSpendsTheCapTwice(c: Config) returns (events: seq<Event>)
    requires c.cap > 0
    ensures LosesOnly(events, {LostClaim})
    ensures Run(c, START, events).Some? && Spent(Run(c, START, events).value) == 2 * c.cap
  {
    var es := TwoDue(c.cap) + [StartDrain];
    var d, u := Due(c.cap), Due(c.cap).(status := Submitted);
    var s := START.(rows := [d, d], worker := Draining([0, 1], 0));
    PassStarted(c, c.cap);
    assert [d, d][0 := u] == [u, d] && [0, 1][1..] == [1];
    OneMore(c, START, es, s, ClaimErrors(true), START.(rows := [u, d], worker := Draining([1], 0)));
    LastClaim(c, es + [ClaimErrors(true)]);
    events := es + [ClaimErrors(true)] + [Claim];
  }

  /** The first row counts and the pass has charged nothing. */
  lemma LastClaim(c: Config, events: seq<Event>)
    requires c.cap > 0
    requires Run(c, START, events)
             == Some(START.(rows := [Due(c.cap).(status := Submitted), Due(c.cap)], worker := Draining([1], 0)))
    ensures Run(c, START, events + [Claim]).Some? && Spent(Run(c, START, events + [Claim]).value) == 2 * c.cap
  {
    var d, u := Due(c.cap), Due(c.cap).(status := Submitted);
    assert [u, d][1 := u] == [u, u] && [1][1..] == [];
    OneMore(c, START, events, START.(rows := [u, d], worker := Draining([1], 0)), Claim,
         START.(rows := [u, u], calls := map[1 := None], worker := Waiting(1, [], 0, NotYet)));
    TwoRows(u, u, 0);
    SpentIsTheDayTotal([u, u], 0);
  }

  /** Where anything may be paid at all: the cap holds in every run that loses no other writes than `losses`, if and
      only if `losses` is empty. */
  lemma CapIffNothingLost(c: Config, losses: set<Loss>)
    requires c.cap > 0
    ensures (forall events: seq<Event> :: Run(c, START, events).Some? && LosesOnly(events, losses)
                                          ==> Spent(Run(c, START, events).value) <= c.cap) <==> losses == {}
  {
    if losses == {} {
      forall events: seq<Event> | Run(c, START, events).Some? && LosesOnly(events, losses)
        ensures Spent(Run(c, START, events).value) <= c.cap
      {
        assert forall n :: 0 <= n < |events| ==> !Loses(events[n]);
        RollingPayoutCap(c, events, Run(c, START, events).value);
      }
    } else {
      var events;
      if LostReturn in losses {
        events := OneLostReturnSpendsTheCapTwice(c);
      } else {
        var loss :| loss in losses;
        assert loss == LostClaim;
        events := OneLostClaimSpendsTheCapTwice(c);
      }
      assert LosesOnly(events, losses);
    }
  }
}
