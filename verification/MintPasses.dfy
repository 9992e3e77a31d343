/**
 The watcher's poll and the outbox's pass, as they run: loops over blocks and rows that update two tables, the
 ledger and the cursor in place, and may stop anywhere. Each is a run of the protocol.
 */
module MintPasses {
  import opened Basics
  import opened MintPipeline
  import MintCap

  /** The rescue takes exactly the submissions that timed out, and the drain the rows that are due. */
  lemma {:induction false} StuckAreRows(s: State, n: nat)
    requires n <= |s.intents|
    ensures forall d :: d in StuckRows(s, n) <==>
              d.id < n && d.id in s.outbox && s.outbox[d.id].status == Sent && s.outbox[d.id].attempts == d.attempts
              && s.intents[d.id].updatedAt < s.now - SUBMITTED_TIMEOUT_SECS
  {
    if n > 0 {
      StuckAreRows(s, n - 1);
    }
  }

  lemma {:induction false} DueAreRows(s: State, n: nat)
    ensures forall d :: d in DueRows(s, n) <==>
              d.id < n && d.id in s.outbox && s.outbox[d.id].status == Pending && s.outbox[d.id].attempts == d.attempts
              && s.outbox[d.id].nextAttemptAt <= s.now
  {
    if n > 0 {
      DueAreRows(s, n - 1);
    }
  }

  /** The events of a pass of the outbox. */
  predicate OfPass(e: Event) {
    || e.StartPass? || e.Requeue? || e.GiveUp? || e.SelectDue? || e.Park? || e.HandOver? || e.Backoff? || e.Pass?
    || e.NodeTakes? || e.NodeSaysProcessed? || e.Record? || e.EndPass? || e.WorkerStops? || e == SetHalt(true)
  }

  // ----- what a pass is told ---------------------------------------------------------------------

  /** What the last reconciliation of the last two days says, if it could be read. */
  datatype Reconciled = Unreadable | NoneLately | Mismatched | Fine

  /** The reads the breakers make: whether the halt and the day's total could be read, the ledger's custody and liability,
      and the last reconciliation. */
  datatype Answers = Answers(haltRead: bool, totalRead: bool, books: Option<(int, int)>, reconciled: Reconciled)

  /** What comes of a mint that is let through: an approval signature is missing, something fails on the way to the node or
      at it (which may have the mint all the same), the node takes it, or says it has it already. */
  datatype Delivery = SignatureMissing | Fails(reaches: bool) | Taken | Processed

  /** Division as the machine does it, toward zero. */
  function Truncated(a: int, b: int): int
    requires b > 0
  {
    if a >= 0 then a / b else -((-a) / b)
  }

  /** The ledger's backing with this mint added is below the threshold, in hundredths of a percent. */
  predicate Underbacked(books: (int, int), amount: int, thresholdBps: int) {
    books.1 + amount > 0 && Truncated(books.0 * 10_000, books.1 + amount) < thresholdBps
  }

  /** What the breakers must be told to let a mint through. */
  predicate AllYes(a: Answers, amount: int, thresholdBps: int) {
    && a.haltRead && a.totalRead && a.books.Some? && !Underbacked(a.books.value, amount, thresholdBps)
    && a.reconciled == Fine
  }

  /** A row is done with, for this pass. */
  predicate Deals(e: Event) {
    e.Park? || e.HandOver? || e.Backoff? || e.Record?
  }

  function Dealt(es: seq<Event>): nat {
    if es == [] then 0 else Dealt(es[..|es| - 1]) + (if Deals(es[|es| - 1]) then 1 else 0)
  }

  lemma {:induction false} DealtJoins(es: seq<Event>, more: seq<Event>)
    ensures Dealt(es + more) == Dealt(es) + Dealt(more)
  {
    if more == [] {
      assert es + more == es;
    } else {
      var n := |more| - 1;
      DealtJoins(es, more[..n]);
      assert (es + more)[..|es| + n] == es + more[..n];
    }
  }

  lemma {:induction false} NoneDealt(es: seq<Event>)
    requires forall e :: e in es ==> !Deals(e)
    ensures Dealt(es) == 0
  {
    if es != [] { NoneDealt(es[..|es| - 1]); }
  }

  lemma DealtOne(e: Event)
    ensures Dealt([e]) == if Deals(e) then 1 else 0
  {
    assert [e][..0] == [];
  }

  lemma RequeueSteps(c: Config, s: State, t: State)
    requires Rescue(c, s, Requeue) == Some(t)
    ensures Step(c, s, Requeue) == Some(t)
  {
    hide Rescue;
  }

  lemma GiveUpSteps(c: Config, s: State, t: State)
    requires Rescue(c, s, GiveUp) == Some(t)
    ensures Step(c, s, GiveUp) == Some(t)
  {
    hide Rescue;
  }

  lemma SelectSteps(c: Config, s: State, t: State)
    requires s.worker.Rescuing? || s.worker.GivingUp?
    requires t == s.(worker := Draining(DueRows(s, |s.intents|)))
    ensures Step(c, s, SelectDue) == Some(t)
  {
    hide DueRows;
  }

  lemma SetHaltSteps(c: Config, s: State, t: State)
    requires t == s.(halted := true)
    ensures Step(c, s, SetHalt(true)) == Some(t)
  {
  }

  /** The process stops before it has recorded what the node said. */
  predicate Stops(delivery: Delivery, stops: bool) {
    (delivery.Taken? || delivery.Processed?) && stops
  }

  // ----- what becomes of a row -------------------------------------------------------------------

  /** Submitted, for the watcher to credit. */
  ghost predicate Recorded(was: seq<Intent>, now: seq<Intent>, rows: map<nat, OutRow>, after: map<nat, OutRow>, d: Due, time: int)
    requires d.id < |was| && d.id in rows
  {
    && now == was[d.id := was[d.id].(status := Submitted, updatedAt := time)]
    && after == rows[d.id := rows[d.id].(status := Sent)]
  }

  /** Tried again in an hour, its attempts as they were. */
  ghost predicate Parked(was: seq<Intent>, now: seq<Intent>, rows: map<nat, OutRow>, after: map<nat, OutRow>, d: Due, time: int)
    requires d.id in rows
  {
    now == was && after == rows[d.id := rows[d.id].(nextAttemptAt := time + 3600)]
  }

  /** One attempt more: failed with the tenth, and before that tried again after 5 s doubled each time, at most 600. */
  ghost predicate Errored(was: seq<Intent>, now: seq<Intent>, rows: map<nat, OutRow>, after: map<nat, OutRow>, d: Due, time: int)
    requires d.id < |was| && d.id in rows
  {
    if d.attempts + 1 >= 10 then
      && now == was[d.id := was[d.id].(status := Failed, updatedAt := time)]
      && after == rows[d.id := rows[d.id].(status := Closed, attempts := d.attempts + 1)]
    else
      && now == was
      && after == rows[d.id := rows[d.id].(attempts := d.attempts + 1, nextAttemptAt := time + BackoffSecs(d.attempts + 1))]
  }

  /** Closed, and a person's if it was approved. */
  ghost predicate HandedOver(was: seq<Intent>, now: seq<Intent>, rows: map<nat, OutRow>, after: map<nat, OutRow>, d: Due, time: int)
    requires d.id < |was| && d.id in rows
  {
    && now == (if was[d.id].status == Approved then was[d.id := was[d.id].(status := NeedsManual, updatedAt := time)] else was)
    && after == rows[d.id := rows[d.id].(status := Closed)]
  }

  /** Refused by the breakers: a person's when it is over the per-transaction cap, parked when a deposit backs it, and
      one attempt more otherwise. */
  ghost predicate Refused(was: seq<Intent>, now: seq<Intent>, rows: map<nat, OutRow>, after: map<nat, OutRow>, d: Due, over: bool, time: int)
    requires d.id < |was| && d.id in rows
  {
    if over then HandedOver(was, now, rows, after, d, time)
    else if was[d.id].depositBacked then Parked(was, now, rows, after, d, time)
    else Errored(was, now, rows, after, d, time)
  }

  /** Let through by them. */
  ghost predicate Delivered(was: seq<Intent>, now: seq<Intent>, rows: map<nat, OutRow>, after: map<nat, OutRow>, d: Due,
                       delivery: Delivery, stops: bool, time: int)
    requires d.id < |was| && d.id in rows
  {
    match delivery
    case SignatureMissing => Parked(was, now, rows, after, d, time)
    case Fails(_) => Errored(was, now, rows, after, d, time)
    case _ => if stops then now == was && after == rows else Recorded(was, now, rows, after, d, time)
  }

  /** What a row meets in one pass: what the breakers are told, what becomes of its sending, and whether the process stops
      before that is recorded. */
  datatype Fate = Fate(answers: Answers, delivery: Delivery, stops: bool)

  /** One row of a pass, from `s` to `t`: parked while the node is behind its peers; else sent when the breakers allow it,
      and refused when they do not. */
  ghost predicate RowServed(c: Config, thresholdBps: int, s: State, t: State, d: Due, behind: bool, fate: Fate, ended: bool)
    requires d.id < |s.intents| && d.id in s.outbox
  {
    var x := s.intents[d.id];
    var ok := !s.halted && x.amount <= c.perTxCap && MintCap.HeldAgainst(s.intents, Some(d.id), s.now) + x.amount <= c.dailyCap
              && AllYes(fate.answers, x.amount, thresholdBps);
    && (s.halted ==> t.halted) && t.now == s.now && |t.intents| == |s.intents| && t.outbox.Keys == s.outbox.Keys
    && if behind then !ended && Parked(s.intents, t.intents, s.outbox, t.outbox, d, s.now) && t.reached == s.reached && t.halted == s.halted
       else if ok then
         && ended == Stops(fate.delivery, fate.stops)
         && Delivered(s.intents, t.intents, s.outbox, t.outbox, d, fate.delivery, fate.stops, s.now)
         && t.reached == (if fate.delivery.Taken? || (fate.delivery.Fails? && fate.delivery.reaches)
                          then s.reached + {Booking(d.id, x.amount)} else s.reached)
       else
         && !ended && t.reached == s.reached
         && Refused(s.intents, t.intents, s.outbox, t.outbox, d,
                    fate.answers.haltRead && !s.halted && x.amount > c.perTxCap, s.now)
  }

  /** The rows of a pass one after another: each from where the one before left off, as its fate has it. */
  ghost predicate AllServed(c: Config, thresholdBps: int, states: seq<State>, due: seq<Due>, behind: bool, fates: nat -> Fate, ended: bool) {
    && 0 < |states| <= |due| + 1 && (!ended ==> |states| == |due| + 1) && (ended ==> |states| > 1)
    && forall k :: 0 <= k < |states| - 1 ==>
         && due[k].id < |states[k].intents| && due[k].id in states[k].outbox
         && RowServed(c, thresholdBps, states[k], states[k + 1], due[k], behind, fates(due[k].id), ended && k == |states| - 2)
  }

  lemma OneMoreServed(c: Config, thresholdBps: int, states: seq<State>, t: State, due: seq<Due>, d: Due, behind: bool, fates: nat -> Fate, ended: bool)
    requires AllServed(c, thresholdBps, states, due, behind, fates, false)
    requires var s := states[|states| - 1];
             d.id < |s.intents| && d.id in s.outbox && RowServed(c, thresholdBps, s, t, d, behind, fates(d.id), ended)
    ensures AllServed(c, thresholdBps, states + [t], due + [d], behind, fates, ended)
  {
    hide RowServed;
  }

  /** How a block is read: how many of its transactions before a read or a write fails, and whether the cursor is moved. */
  datatype Reading = Reading(through: nat, moved: bool)

  predicate ReadsThrough(block: seq<Tx>, reading: Reading) {
    reading.through >= |block| && reading.moved
  }

  class Pipeline {
    const config: Config
    const backingHaltBps: int
    // the database
    var intents: seq<Intent>
    var outbox: map<nat, OutRow>
    var ledger: seq<Booking>
    var halted: bool
    var cursor: nat
    // the world it works in
    var now: int
    var blocks: seq<seq<Tx>>
    var reached: set<Booking>
    // history
    ghost var peak: nat
    ghost var high: nat
    ghost var partial: nat
    ghost var passed: set<nat>
    ghost var sends: map<nat, nat>

    ghost function State(watcher: Watcher, worker: Worker): State
      reads this
    {
      MintPipeline.State(intents, outbox, ledger, halted, now, blocks, peak, reached, cursor, watcher, worker,
                         high, partial, passed, sends)
    }

    constructor (c: Config, backingHaltBps: int)
      ensures config == c && this.backingHaltBps == backingHaltBps && State(Asleep, Resting) == START
    {
      config, this.backingHaltBps := c, backingHaltBps;
      intents, outbox, ledger, halted, cursor, now, blocks, reached := [], map[], [], false, 0, 0, [], {};
      peak, high, partial, passed, sends := 0, 0, 0, {}, map[];
    }

    /** Whether the ledger has this intent: the unique key on its events. */
    method IsBooked(i: nat) returns (found: bool)
      ensures found <==> Booked(ledger, i)
    {
      var a := 0;
      while a < |ledger|
        invariant a <= |ledger| && forall b :: 0 <= b < a ==> ledger[b].intent != i
      {
        if ledger[a].intent == i { return true; }
        a := a + 1;
      }
      return false;
    }

    /** One transaction: the event unless there is one, the intent credited if it was on its way, its row confirmed. */
    method CreditMint(m: Tx)
      requires m.Mint?
      modifies this`intents, this`outbox, this`ledger
      ensures forall watcher, worker :: State(watcher, worker) == Credit(old(State(watcher, worker)), m)
      ensures var i, known := m.ref, m.ref < |old(intents)| && old(intents)[m.ref].status != Credited;
              // the event, once
              && ledger == (if known && forall a :: 0 <= a < |old(ledger)| ==> old(ledger)[a].intent != i
                            then old(ledger) + [Booking(i, old(intents)[i].amount)] else old(ledger))
              // the intent, when it was on its way
              && intents == (if known && (old(intents)[i].status == Submitted || old(intents)[i].status == Approved)
                             then old(intents)[i := old(intents)[i].(status := Credited, updatedAt := now)] else old(intents))
              // and its row
              && outbox == (if known && i in old(outbox) then old(outbox)[i := old(outbox)[i].(status := Confirmed)] else old(outbox))
    {
      var i := m.ref;
      if i < |intents| && intents[i].status != Credited {
        var found := IsBooked(i);
        if !found {
          ledger := ledger + [Booking(i, intents[i].amount)];
        }
        if intents[i].status == Submitted || intents[i].status == Approved {
          intents := intents[i := intents[i].(status := Credited, updatedAt := now)];
        }
        if i in outbox {
          outbox := outbox[i := outbox[i].(status := Confirmed)];
        }
      }
    }

    /** One transaction of the block after the cursor. */
    method WatchOne(bound: nat, k: nat, ghost worker: Worker)
      requires cursor < bound && cursor < |blocks| && k < |blocks[cursor]|
      modifies this`intents, this`outbox, this`ledger, this`high, this`partial
      ensures Step(config, old(State(Scanning(bound, k), worker)), WatchTx) == Some(State(Scanning(bound, k + 1), worker))
    {
      var tx := blocks[cursor][k];
      ghost var beyond := Beyond(State(Scanning(bound, k), worker), cursor, k);
      if tx.Mint? {
        CreditMint(tx);
      }
      // History: how far the watcher has ever been.
      if beyond {
        high, partial := cursor, k + 1;
      }
    }

    lemma StopSteps(bound: nat, k: nat, worker: Worker)
      ensures Step(config, State(Scanning(bound, k), worker), WatcherStops) == Some(State(Asleep, worker))
    {
    }

    /** The transactions of the block, one after another; it stops at number `through`, when there is one. */
    method WatchTxs(bound: nat, through: nat, ghost worker: Worker) returns (finished: bool, ghost es: seq<Event>)
      requires cursor < bound && cursor < |blocks|
      modifies this`intents, this`outbox, this`ledger, this`high, this`partial
      ensures Run(config, old(State(Scanning(bound, 0), worker)), es)
              == Some(State(if finished then Scanning(bound, |blocks[cursor]|) else Asleep, worker))
      ensures finished <==> through >= |blocks[cursor]|
      ensures forall e :: e in es ==> e.WatchTx? || (e.WatcherStops? && !finished)
    {
      hide Step;
      ghost var before := State(Scanning(bound, 0), worker);
      var k := 0;
      es := [];
      while k < |blocks[cursor]|
        invariant k <= |blocks[cursor]| && k <= through
        invariant Run(config, before, es) == Some(State(Scanning(bound, k), worker))
        invariant forall e :: e in es ==> e.WatchTx?
      {
        ghost var here := State(Scanning(bound, k), worker);
        if k == through {
          StopSteps(bound, k, worker);
          OneMore(config, before, es, here, WatcherStops, State(Asleep, worker));
          return false, es + [WatcherStops];
        }
        WatchOne(bound, k, worker);
        OneMore(config, before, es, here, WatchTx, State(Scanning(bound, k + 1), worker));
        es, k := es + [WatchTx], k + 1;
      }
      finished := true;
    }

    /** The cursor moves past a block that was watched whole. */
    method Finish(bound: nat, ghost worker: Worker)
      requires cursor < bound && cursor < |blocks|
      modifies this`cursor, this`high, this`partial
      ensures cursor == old(cursor) + 1
      ensures Step(config, old(State(Scanning(bound, |blocks[cursor]|), worker)), FinishBlock)
              == Some(State(if cursor == bound then Asleep else Scanning(bound, 0), worker))
    {
      cursor := cursor + 1;
      if cursor > high {
        high, partial := cursor, 0;
      }
    }

    /** The whole block, then the cursor: it moves exactly when every transaction was dealt with, and it can be moved. */
    method WatchBlock(bound: nat, reading: Reading, ghost worker: Worker) returns (finished: bool, ghost es: seq<Event>)
      requires cursor < bound && cursor < |blocks|
      modifies this`intents, this`outbox, this`ledger, this`cursor, this`high, this`partial
      ensures Run(config, old(State(Scanning(bound, 0), worker)), es)
              == Some(State(if finished && cursor < bound then Scanning(bound, 0) else Asleep, worker))
      ensures finished <==> ReadsThrough(blocks[old(cursor)], reading)
      ensures cursor == if finished then old(cursor) + 1 else old(cursor)
      ensures forall e :: e in es ==> e.WatchTx? || e.FinishBlock? || (e.WatcherStops? && !finished)
    {
      hide Step;
      ghost var before := State(Scanning(bound, 0), worker);
      finished, es := WatchTxs(bound, reading.through, worker);
      ghost var here := State(Scanning(bound, |blocks[cursor]|), worker);
      if finished && !reading.moved {
        StopSteps(bound, |blocks[cursor]|, worker);
        OneMore(config, before, es, here, WatcherStops, State(Asleep, worker));
        finished, es := false, es + [WatcherStops];
      } else if finished {
        Finish(bound, worker);
        OneMore(config, before, es, here, FinishBlock, State(if cursor == bound then Asleep else Scanning(bound, 0), worker));
        es := es + [FinishBlock];
      }
    }

    /** One poll. It goes from the cursor to what is confirmed, or starts again from the bottom when the chain has
        shrunk beneath the cursor. */
    method PollOnce(head: nat, readings: seq<Reading>, ghost worker: Worker) returns (done: bool, ghost es: seq<Event>)
      requires head <= |blocks| && |readings| == |blocks|
      modifies this`intents, this`outbox, this`ledger, this`cursor, this`high, this`partial
      ensures Run(config, old(State(Asleep, worker)), es) == Some(State(Asleep, worker))
      ensures forall e :: e in es ==> e.Poll? || e.WatchTx? || e.FinishBlock? || (e.WatcherStops? && !done)
      ensures match ProcessRange(old(cursor), head, config.confirmations)
              case UpToDate => done && cursor == old(cursor)
              case ChainShrank => done && cursor == 0
              case Range(_, to) =>
                && old(cursor) <= cursor <= to <= |blocks| && (done <==> cursor == to)
                && (forall h :: old(cursor) <= h < cursor ==> ReadsThrough(blocks[h], readings[h]))
                && (cursor < to ==> !ReadsThrough(blocks[cursor], readings[cursor]))
    {
      hide Step, ReadsThrough;
      ghost var before := State(Asleep, worker);
      var scan := ProcessRange(cursor, head, config.confirmations);
      ghost var start := if scan.Range? then Scanning(scan.to, 0) else Asleep;
      PollSteps(config, before, head);
      if scan.ChainShrank? {
        cursor := 0;
      }
      OneStep(config, before, Poll(head), State(start, worker));
      done, es := true, [Poll(head)];
      if scan.Range? {
        ghost var here, more := State(Scanning(scan.to, 0), worker), [];
        done, more := WatchRange(scan.to, readings, worker);
        RunsJoin(config, before, es, here, more);
        es := es + more;
      }
    }

    /** Block after block, to the first that is not read through. */
    method WatchRange(to: nat, readings: seq<Reading>, ghost worker: Worker) returns (done: bool, ghost es: seq<Event>)
      requires cursor < to <= |blocks| && |readings| == |blocks|
      modifies this`intents, this`outbox, this`ledger, this`cursor, this`high, this`partial
      ensures Run(config, old(State(Scanning(to, 0), worker)), es) == Some(State(Asleep, worker))
      ensures forall e :: e in es ==> e.WatchTx? || e.FinishBlock? || (e.WatcherStops? && !done)
      ensures old(cursor) <= cursor <= to && (done <==> cursor == to)
      ensures forall h :: old(cursor) <= h < cursor ==> ReadsThrough(blocks[h], readings[h])
      ensures cursor < to ==> !ReadsThrough(blocks[cursor], readings[cursor])
    {
      hide Step, ReadsThrough;
      ghost var before := State(Scanning(to, 0), worker);
      done, es := true, [];
      while done && cursor < to
        invariant old(cursor) <= cursor <= to <= |blocks| && (done || cursor < to)
        invariant forall h :: old(cursor) <= h < cursor ==> ReadsThrough(blocks[h], readings[h])
        invariant !done ==> !ReadsThrough(blocks[cursor], readings[cursor])
        invariant Run(config, before, es) == Some(State(if done && cursor < to then Scanning(to, 0) else Asleep, worker))
        invariant forall e :: e in es ==> e.WatchTx? || e.FinishBlock? || (e.WatcherStops? && !done)
        decreases done, to - cursor
      {
        ghost var here, more := State(Scanning(to, 0), worker), [];
        done, more := WatchBlock(to, readings[cursor], worker);
        RunsJoin(config, before, es, here, more);
        es := es + more;
      }
    }

    // ----- the outbox ----------------------------------------------------------------------------

    method SelectStuck(ghost watcher: Watcher, ghost worker: Worker) returns (q: seq<Due>)
      ensures q == StuckRows(State(watcher, worker), |intents|)
    {
      q := [];
      var n := 0;
      while n < |intents|
        invariant n <= |intents| && q == StuckRows(State(watcher, worker), n)
      {
        if n in outbox && outbox[n].status == Sent && intents[n].updatedAt < now - SUBMITTED_TIMEOUT_SECS {
          q := q + [Due(n, outbox[n].attempts)];
        }
        n := n + 1;
      }
    }

    method SelectDueRows(ghost watcher: Watcher, ghost worker: Worker) returns (q: seq<Due>)
      ensures q == DueRows(State(watcher, worker), |intents|)
    {
      q := [];
      var n := 0;
      while n < |intents|
        invariant n <= |intents| && q == DueRows(State(watcher, worker), n)
      {
        if n in outbox && outbox[n].status == Pending && outbox[n].nextAttemptAt <= now {
          q := q + [Due(n, outbox[n].attempts)];
        }
        n := n + 1;
      }
    }

    /** A submission that was never confirmed: queued again, or given up after the last attempt, in two writes, of which
        the second may fail. */
    method RequeueOne(d: Due, fails: bool, ghost queue: seq<Due>, ghost watcher: Watcher) returns (ghost es: seq<Event>)
      requires d.id < |intents| && d.id in outbox
      modifies this`intents, this`outbox
      ensures Run(config, old(State(watcher, Rescuing([d] + queue))), es)
              == Some(State(watcher, if fails && d.attempts >= 10 then GivingUp(d.id, queue) else Rescuing(queue)))
      ensures outbox == if d.attempts >= 10 then old(outbox)[d.id := old(outbox)[d.id].(status := Closed)]
                        else if old(outbox)[d.id].status == Sent then old(outbox)[d.id := OutRow(Pending, d.attempts + 1, now)]
                        else old(outbox)
      ensures intents == if d.attempts >= 10 && !fails
                         then old(intents)[d.id := old(intents)[d.id].(status := NeedsManual, updatedAt := now)] else old(intents)
      ensures forall e :: e in es ==> OfPass(e) && !Deals(e) && !e.WorkerStops?
    {
      hide Step, Run;
      ghost var before := State(watcher, Rescuing([d] + queue));
      assert ([d] + queue)[1..] == queue && ([d] + queue)[0] == d;
      es := [Requeue];
      if d.attempts >= MAX_ATTEMPTS {
        outbox := outbox[d.id := outbox[d.id].(status := Closed)];
        ghost var closed := State(watcher, GivingUp(d.id, queue));
        RequeueSteps(config, before, closed);
        OneStep(config, before, Requeue, closed);
        if !fails {
          intents := intents[d.id := intents[d.id].(status := NeedsManual, updatedAt := now)];
          GiveUpSteps(config, closed, State(watcher, Rescuing(queue)));
          OneMore(config, before, es, closed, GiveUp, State(watcher, Rescuing(queue)));
          es := es + [GiveUp];
        }
      } else {
        if outbox[d.id].status == Sent {
          outbox := outbox[d.id := OutRow(Pending, d.attempts + 1, now)];
        }
        RequeueSteps(config, before, State(watcher, Rescuing(queue)));
        OneStep(config, before, Requeue, State(watcher, Rescuing(queue)));
      }
    }

    /** The breakers' answer. Backing below the threshold halts the treasury. */
    method CheckMint(i: nat, answers: Answers) returns (ok: bool, overPerTxCap: bool)
      requires i < |intents|
      modifies this`halted
      ensures ok <==> !old(halted) && intents[i].amount <= config.perTxCap
                      && MintCap.HeldAgainst(intents, Some(i), now) + intents[i].amount <= config.dailyCap
                      && AllYes(answers, intents[i].amount, backingHaltBps)
      ensures overPerTxCap <==> answers.haltRead && !old(halted) && intents[i].amount > config.perTxCap
      ensures halted <==> old(halted) || (answers.haltRead && intents[i].amount <= config.perTxCap && answers.totalRead
                          && MintCap.HeldAgainst(intents, Some(i), now) + intents[i].amount <= config.dailyCap
                          && answers.books.Some? && Underbacked(answers.books.value, intents[i].amount, backingHaltBps))
      ensures ok || overPerTxCap ==> !halted
    {
      MintCap.DayTotalIsHeld(intents, |intents|, now, Some(i));
      assert intents[..|intents|] == intents;
      if !answers.haltRead || halted { return false, false; }
      if intents[i].amount > config.perTxCap { return false, true; }
      if !answers.totalRead || DayTotal(intents, |intents|, now, Some(i)) + intents[i].amount > config.dailyCap { return false, false; }
      if answers.books.None? { return false, false; }
      if Underbacked(answers.books.value, intents[i].amount, backingHaltBps) {
        halted := true;
        return false, false;
      }
      return answers.reconciled == Fine, false;
    }

    /** Nothing is wrong with the intent: it is tried again in an hour, its attempts untouched. */
    method ParkRow(d: Due, ghost queue: seq<Due>, ghost w: Worker, ghost watcher: Watcher)
      requires d.id < |intents| && d.id in outbox && (w == Passed(d, queue) || w == Draining([d] + queue))
      modifies this`outbox
      ensures Step(config, old(State(watcher, w)), Park) == Some(State(watcher, Draining(queue)))
      ensures outbox == old(outbox)[d.id := old(outbox)[d.id].(nextAttemptAt := now + 3600)]
    {
      SubmitSteps(config, State(watcher, w), Park);
      hide Step;
      assert ([d] + queue)[1..] == queue;
      outbox := outbox[d.id := outbox[d.id].(nextAttemptAt := now + PARK_SECS)];
    }

    /** No retry can pass the per-transaction cap: the row is closed and a person takes over. */
    method NeedsAPerson(d: Due, ghost queue: seq<Due>, ghost watcher: Watcher)
      requires d.id < |intents| && d.id in outbox && !halted && intents[d.id].amount > config.perTxCap
      modifies this`intents, this`outbox
      ensures Step(config, old(State(watcher, Draining([d] + queue))), HandOver) == Some(State(watcher, Draining(queue)))
      ensures outbox == old(outbox)[d.id := old(outbox)[d.id].(status := Closed)]
      ensures intents == if old(intents)[d.id].status == Approved
                         then old(intents)[d.id := old(intents)[d.id].(status := NeedsManual, updatedAt := now)] else old(intents)
    {
      SubmitSteps(config, State(watcher, Draining([d] + queue)), HandOver);
      hide Step;
      assert ([d] + queue)[1..] == queue;
      outbox := outbox[d.id := outbox[d.id].(status := Closed)];
      if intents[d.id].status == Approved {
        intents := intents[d.id := intents[d.id].(status := NeedsManual, updatedAt := now)];
      }
    }

    /** The row's pass went wrong: attempts + 1, and another try later. */
    method BackOff(d: Due, reaches: bool, ghost queue: seq<Due>, ghost w: Worker, ghost watcher: Watcher)
      requires d.id < |intents| && d.id in outbox && d.attempts + 1 < MAX_ATTEMPTS
      requires w == Passed(d, queue) || (w == Draining([d] + queue) && !reaches)
      modifies this`outbox, this`reached
      ensures Step(config, old(State(watcher, w)), Backoff(reaches)) == Some(State(watcher, Draining(queue)))
      ensures outbox == old(outbox)[d.id := old(outbox)[d.id].(attempts := d.attempts + 1, nextAttemptAt := now + BackoffSecs(d.attempts + 1))]
      ensures reached == if reaches then old(reached) + {Booking(d.id, intents[d.id].amount)} else old(reached)
    {
      SubmitSteps(config, State(watcher, w), Backoff(reaches));
      hide Step;
      assert ([d] + queue)[1..] == queue;
      if reaches {
        reached := reached + {Booking(d.id, intents[d.id].amount)};
      }
      outbox := outbox[d.id := outbox[d.id].(attempts := d.attempts + 1, nextAttemptAt := now + BackoffSecs(d.attempts + 1))];
    }

    /** The tenth attempt fails the row for good. */
    method FailRow(d: Due, reaches: bool, ghost queue: seq<Due>, ghost w: Worker, ghost watcher: Watcher)
      requires d.id < |intents| && d.id in outbox && d.attempts + 1 >= MAX_ATTEMPTS
      requires w == Passed(d, queue) || (w == Draining([d] + queue) && !reaches)
      modifies this`intents, this`outbox, this`reached
      ensures Step(config, old(State(watcher, w)), Backoff(reaches)) == Some(State(watcher, Draining(queue)))
      ensures outbox == old(outbox)[d.id := old(outbox)[d.id].(status := Closed, attempts := d.attempts + 1)]
      ensures intents == old(intents)[d.id := old(intents)[d.id].(status := Failed, updatedAt := now)]
      ensures reached == if reaches then old(reached) + {Booking(d.id, old(intents)[d.id].amount)} else old(reached)
    {
      SubmitSteps(config, State(watcher, w), Backoff(reaches));
      hide Step;
      assert ([d] + queue)[1..] == queue;
      if reaches {
        reached := reached + {Booking(d.id, intents[d.id].amount)};
      }
      outbox := outbox[d.id := outbox[d.id].(status := Closed, attempts := d.attempts + 1)];
      intents := intents[d.id := intents[d.id].(status := Failed, updatedAt := now)];
    }

    /** An error costs one attempt and a wait of 5 s doubled each time, at most ten minutes; the tenth fails the row. */
    method FailOrBackoff(d: Due, reaches: bool, ghost queue: seq<Due>, ghost w: Worker, ghost watcher: Watcher)
      requires d.id < |intents| && d.id in outbox
      requires w == Passed(d, queue) || (w == Draining([d] + queue) && !reaches)
      modifies this`intents, this`outbox, this`reached
      ensures Step(config, old(State(watcher, w)), Backoff(reaches)) == Some(State(watcher, Draining(queue)))
      ensures Errored(old(intents), intents, old(outbox), outbox, d, now)
      ensures reached == if reaches then old(reached) + {Booking(d.id, old(intents)[d.id].amount)} else old(reached)
    {
      if d.attempts + 1 >= MAX_ATTEMPTS {
        FailRow(d, reaches, queue, w, watcher);
      } else {
        BackOff(d, reaches, queue, w, watcher);
      }
    }

    /** Refused: over the per-transaction cap, a person's; backed by a deposit, parked; otherwise counted. */
    method Refuse(d: Due, overPerTxCap: bool, ghost queue: seq<Due>, ghost watcher: Watcher) returns (ghost e: Event)
      requires d.id < |intents| && d.id in outbox
      requires overPerTxCap ==> !halted && intents[d.id].amount > config.perTxCap
      modifies this`intents, this`outbox, this`reached
      ensures e == if overPerTxCap then HandOver else if old(intents)[d.id].depositBacked then Park else Backoff(false)
      ensures Refused(old(intents), intents, old(outbox), outbox, d, overPerTxCap, now) && reached == old(reached)
      ensures Step(config, old(State(watcher, Draining([d] + queue))), e) == Some(State(watcher, Draining(queue)))
    {
      hide Step;
      if overPerTxCap {
        e := HandOver;
        NeedsAPerson(d, queue, watcher);
      } else if intents[d.id].depositBacked {
        e := Park;
        ParkRow(d, queue, Draining([d] + queue), watcher);
      } else {
        e := Backoff(false);
        FailOrBackoff(d, false, queue, Draining([d] + queue), watcher);
      }
    }

    /** The mint is given to the node, or the node has it already. */
    method Deliver(d: Due, processed: bool, ghost queue: seq<Due>, ghost watcher: Watcher)
      requires d.id < |intents| && d.id in outbox
      modifies this`reached
      ensures Step(config, old(State(watcher, Passed(d, queue))), if processed then NodeSaysProcessed else NodeTakes)
              == Some(State(watcher, Answered(d, queue)))
      ensures reached == if processed then old(reached) else old(reached) + {Booking(d.id, intents[d.id].amount)}
    {
      SubmitSteps(config, State(watcher, Passed(d, queue)), if processed then NodeSaysProcessed else NodeTakes);
      hide Step;
      if !processed {
        reached := reached + {Booking(d.id, intents[d.id].amount)};
      }
    }

    /** The node took it, or says it has it already: submitted, for the watcher to credit, unless the process stops. */
    method RecordSubmitted(d: Due, stops: bool, ghost queue: seq<Due>, ghost watcher: Watcher) returns (ghost e: Event)
      requires d.id < |intents| && d.id in outbox
      modifies this`intents, this`outbox, this`sends
      ensures e == if stops then WorkerStops else Record
      ensures stops ==> intents == old(intents) && outbox == old(outbox)
      ensures !stops ==> Recorded(old(intents), intents, old(outbox), outbox, d, now)
      ensures Step(config, old(State(watcher, Answered(d, queue))), e)
              == Some(State(watcher, if stops then Resting else Draining(queue)))
    {
      e := if stops then WorkerStops else Record;
      SubmitSteps(config, State(watcher, Answered(d, queue)), e);
      hide Step;
      if !stops {
        intents := intents[d.id := intents[d.id].(status := Submitted, updatedAt := now)];
        outbox := outbox[d.id := outbox[d.id].(status := Sent)];
        sends := sends[d.id := (if d.id in sends then sends[d.id] else 0) + 1];
      }
    }

    /** A mint the breakers let through: parked while signatures are missing, or sent. */
    method Send(d: Due, delivery: Delivery, stops: bool, ghost queue: seq<Due>, ghost watcher: Watcher) returns (ghost es: seq<Event>)
      requires d.id < |intents| && d.id in outbox
      modifies this`intents, this`outbox, this`reached, this`sends
      ensures Run(config, old(State(watcher, Passed(d, queue))), es)
              == Some(State(watcher, if Stops(delivery, stops) then Resting else Draining(queue)))
      ensures Delivered(old(intents), intents, old(outbox), outbox, d, delivery, stops, now)
      ensures reached == if delivery.Taken? || (delivery.Fails? && delivery.reaches)
                         then old(reached) + {Booking(d.id, old(intents)[d.id].amount)} else old(reached)
      ensures es != [] && (forall e :: e in es ==> OfPass(e) && (e.WorkerStops? ==> Stops(delivery, stops)))
      ensures if Stops(delivery, stops) then es[|es| - 1] == WorkerStops else Dealt(es) == 1
    {
      hide Step;
      ghost var before := State(watcher, Passed(d, queue));
      if delivery.SignatureMissing? {
        es := [Park];
        ParkRow(d, queue, Passed(d, queue), watcher);
        OneStep(config, before, Park, State(watcher, Draining(queue)));
        DealtOne(Park);
      } else if delivery.Fails? {
        es := [Backoff(delivery.reaches)];
        FailOrBackoff(d, delivery.reaches, queue, Passed(d, queue), watcher);
        OneStep(config, before, Backoff(delivery.reaches), State(watcher, Draining(queue)));
        DealtOne(es[0]);
      } else {
        ghost var e := if delivery.Processed? then NodeSaysProcessed else NodeTakes;
        Deliver(d, delivery.Processed?, queue, watcher);
        ghost var answered := State(watcher, Answered(d, queue));
        OneStep(config, before, e, answered);
        es := [e];
        DealtOne(e);
        e := RecordSubmitted(d, stops, queue, watcher);
        OneMore(config, before, es, answered, e, State(watcher, if stops then Resting else Draining(queue)));
        DealtOne(e);
        DealtJoins(es, [e]);
        es := es + [e];
      }
    }

    /** The breakers have said yes. */
    method LetThrough(d: Due, ghost queue: seq<Due>, ghost watcher: Watcher)
      requires d.id < |intents| && d.id in outbox && !halted && intents[d.id].amount <= config.perTxCap
      requires MintCap.HeldAgainst(intents, Some(d.id), now) + intents[d.id].amount <= config.dailyCap
      modifies this`passed
      ensures Step(config, old(State(watcher, Draining([d] + queue))), Pass) == Some(State(watcher, Passed(d, queue)))
    {
      MintCap.DayTotalIsHeld(intents, |intents|, now, Some(d.id));
      assert intents[..|intents|] == intents;
      SubmitSteps(config, State(watcher, Draining([d] + queue)), Pass);
      hide Step;
      assert ([d] + queue)[0] == d && ([d] + queue)[1..] == queue;
      passed := passed + {d.id};
    }

    /** The breakers said no. Backing too low has halted the treasury first. */
    method RefuseOne(d: Due, overPerTxCap: bool, ghost wasHalted: bool, ghost queue: seq<Due>, ghost watcher: Watcher) returns (ghost es: seq<Event>)
      requires d.id < |intents| && d.id in outbox && (wasHalted ==> halted)
      requires overPerTxCap ==> !halted && intents[d.id].amount > config.perTxCap
      modifies this`intents, this`outbox, this`reached
      ensures Run(config, old(State(watcher, Draining([d] + queue))).(halted := wasHalted), es) == Some(State(watcher, Draining(queue)))
      ensures Refused(old(intents), intents, old(outbox), outbox, d, overPerTxCap, now) && reached == old(reached)
      ensures es != [] && (forall e :: e in es ==> OfPass(e) && !e.WorkerStops?) && Dealt(es) == 1
    {
      hide Step;
      ghost var here, before := State(watcher, Draining([d] + queue)), State(watcher, Draining([d] + queue)).(halted := wasHalted);
      es := [];
      if halted != wasHalted {
        SetHaltSteps(config, before, here);
        es := [SetHalt(true)];
        OneStep(config, before, SetHalt(true), here);
        DealtOne(SetHalt(true));
      }
      ghost var e := Refuse(d, overPerTxCap, queue, watcher);
      OneMore(config, before, es, here, e, State(watcher, Draining(queue)));
      DealtOne(e);
      DealtJoins(es, [e]);
      es := es + [e];
    }

    /** One due row: the breakers are asked again, whatever was approved, immediately before it is sent. */
    method SubmitOne(d: Due, fate: Fate, ghost queue: seq<Due>, ghost watcher: Watcher)
      returns (ended: bool, ghost es: seq<Event>)
      requires d.id < |intents| && d.id in outbox
      modifies this`intents, this`outbox, this`reached, this`passed, this`sends, this`halted
      ensures Run(config, old(State(watcher, Draining([d] + queue))), es)
              == Some(State(watcher, if ended then Resting else Draining(queue)))
      ensures es != [] && forall e :: e in es ==> OfPass(e) && (e.WorkerStops? ==> ended)
      ensures (if ended then es[|es| - 1] == WorkerStops else Dealt(es) == 1) && (old(halted) ==> halted)
      // what the breakers allow is sent, and nothing else
      ensures var x := old(intents)[d.id];
              var ok := !old(halted) && x.amount <= config.perTxCap
                        && MintCap.HeldAgainst(old(intents), Some(d.id), now) + x.amount <= config.dailyCap
                        && AllYes(fate.answers, x.amount, backingHaltBps);
              if ok then
                && ended == Stops(fate.delivery, fate.stops)
                && Delivered(old(intents), intents, old(outbox), outbox, d, fate.delivery, fate.stops, now)
                && reached == (if fate.delivery.Taken? || (fate.delivery.Fails? && fate.delivery.reaches)
                               then old(reached) + {Booking(d.id, x.amount)} else old(reached))
              else
                && !ended && reached == old(reached)
                && Refused(old(intents), intents, old(outbox), outbox, d,
                           fate.answers.haltRead && !old(halted) && x.amount > config.perTxCap, now)
    {
      hide Step, Delivered, Refused, Dealt, AllYes, MintCap.HeldAgainst;
      ghost var before := State(watcher, Draining([d] + queue));
      ghost var wasHalted := halted;
      var ok, over := CheckMint(d.id, fate.answers);
      if !ok {
        assert State(watcher, Draining([d] + queue)).(halted := wasHalted) == before;
        es := RefuseOne(d, over, wasHalted, queue, watcher);
        return false, es;
      }
      assert State(watcher, Draining([d] + queue)) == before;
      LetThrough(d, queue, watcher);
      ghost var let := State(watcher, Passed(d, queue));
      OneStep(config, before, Pass, let);
      es := Send(d, fate.delivery, fate.stops, queue, watcher);
      RunsJoin(config, before, [Pass], let, es);
      DealtOne(Pass);
      DealtJoins([Pass], es);
      es := [Pass] + es;
      ended := Stops(fate.delivery, fate.stops);
    }

    method StartRescue(ghost watcher: Watcher) returns (q: seq<Due>)
      ensures Step(config, State(watcher, Resting), StartPass) == Some(State(watcher, Rescuing(q)))
      ensures forall k :: 0 <= k < |q| ==> q[k].id < |intents| && q[k].id in outbox
    {
      q := SelectStuck(watcher, Resting);
      StuckAreRows(State(watcher, Resting), |intents|);
      assert forall k :: 0 <= k < |q| ==> q[k] in q;
    }

    /** The rescue, before any new work: every submission that timed out, until a write fails. */
    method RequeueStuck(failing: set<nat>, ghost watcher: Watcher) returns (ghost worker: Worker, ghost es: seq<Event>)
      requires forall i :: i in outbox ==> i < |intents|
      modifies this`intents, this`outbox
      ensures Run(config, old(State(watcher, Resting)), es) == Some(State(watcher, worker)) && (worker.Rescuing? || worker.GivingUp?)
      ensures |intents| == |old(intents)| && outbox.Keys == old(outbox.Keys)
      ensures failing == {} ==> worker == Rescuing([])
      ensures es != [] && es[0] == StartPass && Dealt(es) == 0 && forall e :: e in es ==> OfPass(e) && !e.WorkerStops?
    {
      ghost var before := State(watcher, Resting);
      var q := StartRescue(watcher);
      hide Step;
      worker, es := Rescuing(q), [StartPass];
      OneStep(config, before, StartPass, State(watcher, worker));
      DealtOne(StartPass);
      while q != []
        invariant Run(config, before, es) == Some(State(watcher, worker)) && worker == Rescuing(q)
        invariant |intents| == |old(intents)| && outbox.Keys == old(outbox.Keys)
        invariant forall k :: 0 <= k < |q| ==> q[k].id < |intents| && q[k].id in outbox
        invariant es != [] && es[0] == StartPass && Dealt(es) == 0 && forall e :: e in es ==> OfPass(e) && !e.WorkerStops?
      {
        assert q == [q[0]] + q[1..];
        ghost var here, more := State(watcher, worker), [];
        more := RequeueOne(q[0], q[0].id in failing, q[1..], watcher);
        RunsJoin(config, before, es, here, more);
        NoneDealt(more);
        DealtJoins(es, more);
        es := es + more;
        if q[0].id in failing && q[0].attempts >= MAX_ATTEMPTS {
          worker := GivingUp(q[0].id, q[1..]);
          return;
        }
        q := q[1..];
        worker := Rescuing(q);
      }
    }

    lemma EndSteps(watcher: Watcher)
      ensures Step(config, State(watcher, Draining([])), EndPass) == Some(State(watcher, Resting))
    {
      SubmitSteps(config, State(watcher, Draining([])), EndPass);
      hide Step;
    }

    /** One row of the pass: parked while the node is behind its peers, and submitted otherwise. */
    method Serve(d: Due, behind: bool, fate: Fate, ghost queue: seq<Due>, ghost watcher: Watcher) returns (ended: bool, ghost es: seq<Event>)
      requires d.id < |intents| && d.id in outbox
      modifies this`intents, this`outbox, this`reached, this`passed, this`sends, this`halted
      ensures Run(config, old(State(watcher, Draining([d] + queue))), es)
              == Some(State(watcher, if ended then Resting else Draining(queue)))
      ensures es != [] && forall e :: e in es ==> OfPass(e) && (e.WorkerStops? ==> ended)
      ensures if ended then es[|es| - 1] == WorkerStops else Dealt(es) == 1
      ensures RowServed(config, backingHaltBps, old(State(watcher, Resting)), State(watcher, Resting), d, behind, fate, ended)
    {
      hide Step, Delivered, Refused, AllYes, MintCap.HeldAgainst;
      if behind {
        ghost var before := State(watcher, Draining([d] + queue));
        ended, es := false, [Park];
        ParkRow(d, queue, Draining([d] + queue), watcher);
        OneStep(config, before, Park, State(watcher, Draining(queue)));
        DealtOne(Park);
      } else {
        ended, es := SubmitOne(d, fate, queue, watcher);
      }
      SameRows(old(intents), intents, old(outbox), outbox, d, fate, now);
    }

    /** Row after row, to the first at which the process stops. */
    method ServeEach(due: seq<Due>, behind: bool, fates: nat -> Fate, ghost watcher: Watcher)
      returns (stopped: bool, n: nat, ghost es: seq<Event>, ghost states: seq<State>)
      requires forall k :: 0 <= k < |due| ==> due[k].id < |intents| && due[k].id in outbox
      modifies this`intents, this`outbox, this`reached, this`passed, this`sends, this`halted
      ensures n <= |due| && (!stopped ==> n == |due|)
      ensures Run(config, old(State(watcher, Draining(due))), es) == Some(State(watcher, if stopped then Resting else Draining([])))
      ensures forall e :: e in es ==> OfPass(e) && (e.WorkerStops? ==> stopped)
      ensures if stopped then es != [] && es[|es| - 1] == WorkerStops else Dealt(es) == |due|
      ensures AllServed(config, backingHaltBps, states, due[..n], behind, fates, stopped)
      ensures states != [] && states[0] == old(State(watcher, Resting)) && states[|states| - 1] == State(watcher, Resting)
    {
      hide Step, AllServed, Dealt, Run;
      ghost var before := State(watcher, Draining(due));
      n, stopped := 0, false;
      es, states := [], [State(watcher, Resting)];
      NoneServed(config, backingHaltBps, states[0], behind, fates);
      assert due[0..] == due && due[..0] == [];
      NothingRun(config, before);
      while n < |due| && !stopped
        invariant n <= |due|
        invariant Run(config, before, es) == Some(State(watcher, if stopped then Resting else Draining(due[n..])))
        invariant forall e :: e in es ==> OfPass(e) && (e.WorkerStops? ==> stopped)
        invariant if stopped then es != [] && es[|es| - 1] == WorkerStops else Dealt(es) == n
        invariant AllServed(config, backingHaltBps, states, due[..n], behind, fates, stopped)
        invariant states != [] && states[0] == old(State(watcher, Resting)) && states[|states| - 1] == State(watcher, Resting)
        invariant |intents| == |old(intents)| && outbox.Keys == old(outbox.Keys)
        decreases |due| - n
      {
        ghost var here, more := State(watcher, Draining(due[n..])), [];
        stopped, more, states := ServeNext(due, n, behind, fates, states, watcher);
        RunsJoin(config, before, es, here, more);
        DealtJoins(es, more);
        es, n := es + more, n + 1;
      }
      if !stopped {
        assert due[n..] == [];
      }
    }

    /** Every selected row in turn. `states` are the tables before and after each. */
    method SubmitAll(due: seq<Due>, behind: bool, fates: nat -> Fate, ghost watcher: Watcher)
      returns (ghost es: seq<Event>, ghost states: seq<State>, ghost ended: bool)
      requires forall k :: 0 <= k < |due| ==> due[k].id < |intents| && due[k].id in outbox
      modifies this`intents, this`outbox, this`reached, this`passed, this`sends, this`halted
      ensures Run(config, old(State(watcher, Draining(due))), es) == Some(State(watcher, Resting))
      ensures es != [] && forall e :: e in es ==> OfPass(e) && (e.WorkerStops? ==> ended)
      ensures if ended then es[|es| - 1] == WorkerStops else Dealt(es) == |due|
      ensures AllServed(config, backingHaltBps, states, due, behind, fates, ended)
      ensures states != [] && states[0] == old(State(watcher, Resting)) && states[|states| - 1] == State(watcher, Resting)
      ensures old(halted) || behind ==> reached == old(reached)
    {
      hide Step, AllServed, Dealt, Run;
      ghost var before := State(watcher, Draining(due));
      var stopped, n;
      stopped, n, es, states := ServeEach(due, behind, fates, watcher);
      ended := stopped;
      if stopped {
        ServedPart(config, backingHaltBps, states, due, n, behind, fates);
      } else {
        assert due[..n] == due;
        EndSteps(watcher);
        OneMore(config, before, es, State(watcher, Draining([])), EndPass, State(watcher, Resting));
        DealtOne(EndPass);
        DealtJoins(es, [EndPass]);
        es := es + [EndPass];
      }
      if behind || states[0].halted {
        NothingIsSent(config, backingHaltBps, states, due, behind, fates, ended);
      }
    }

    method ServeNext(due: seq<Due>, n: nat, behind: bool, fates: nat -> Fate, ghost served: seq<State>, ghost watcher: Watcher)
      returns (stopped: bool, ghost es: seq<Event>, ghost states: seq<State>)
      requires n < |due| && due[n].id < |intents| && due[n].id in outbox
      requires AllServed(config, backingHaltBps, served, due[..n], behind, fates, false) && served[|served| - 1] == State(watcher, Resting)
      modifies this`intents, this`outbox, this`reached, this`passed, this`sends, this`halted
      ensures Run(config, old(State(watcher, Draining(due[n..]))), es)
              == Some(State(watcher, if stopped then Resting else Draining(due[n + 1..])))
      ensures es != [] && forall e :: e in es ==> OfPass(e) && (e.WorkerStops? ==> stopped)
      ensures if stopped then es[|es| - 1] == WorkerStops else Dealt(es) == 1
      ensures AllServed(config, backingHaltBps, states, due[..n + 1], behind, fates, stopped)
      ensures states == served + [State(watcher, Resting)]
      ensures |intents| == |old(intents)| && outbox.Keys == old(outbox.Keys)
    {
      hide Step, RowServed, AllServed, Dealt;
      var d := due[n];
      assert due[n..] == [d] + due[n + 1..] && due[..n + 1] == due[..n] + [d];
      ghost var was := State(watcher, Resting);
      stopped, es := Serve(d, behind, fates(d.id), due[n + 1..], watcher);
      ServedKeepsRows(config, backingHaltBps, was, State(watcher, Resting), d, behind, fates(d.id), stopped);
      OneMoreServed(config, backingHaltBps, served, State(watcher, Resting), due[..n], d, behind, fates, stopped);
      states := served + [State(watcher, Resting)];
    }

    /** One pass of the outbox: the rescue, then every due row in turn, to the first at which the process stops. `failing`
        are the submissions whose giving up the database does not take. */
    method DrainOnce(failing: set<nat>, behind: bool, fates: nat -> Fate, ghost watcher: Watcher)
      returns (ghost es: seq<Event>, ghost k: nat, ghost rescued: State, ghost states: seq<State>, ghost ended: bool)
      requires forall i :: i in outbox ==> i < |intents|
      modifies this`intents, this`outbox, this`reached, this`passed, this`sends, this`halted
      ensures Run(config, old(State(watcher, Resting)), es) == Some(State(watcher, Resting))
      ensures es != [] && es[0] == StartPass && forall e :: e in es ==> OfPass(e) && (e.WorkerStops? ==> ended)
      ensures old(halted) || behind ==> reached == old(reached)
      // the rescue comes first, and leaves `rescued`
      ensures k < |es| && es[k] == SelectDue && Run(config, old(State(watcher, Resting)), es[..k]) == Some(rescued)
      ensures failing == {} ==> rescued.worker == Rescuing([])
      // then every row found due is served as its fate has it
      ensures AllServed(config, backingHaltBps, states, DueRows(rescued, |rescued.intents|), behind, fates, ended)
      ensures states != [] && states[0] == rescued.(worker := Resting) && states[|states| - 1] == State(watcher, Resting)
      ensures if ended then es[|es| - 1] == WorkerStops else Dealt(es) == |DueRows(rescued, |rescued.intents|)|
    {
      hide Step, Dealt, DueRows, AllServed, Run;
      ghost var before, more := State(watcher, Resting), [];
      ghost var worker;
      worker, es := RequeueStuck(failing, watcher);
      rescued, k := State(watcher, worker), |es|;
      ghost var opening := es;
      var q := SelectDueRows(watcher, worker);
      DueAreRows(rescued, |intents|);
      assert forall k :: 0 <= k < |q| ==> q[k] in q;
      ghost var draining := State(watcher, Draining(q));
      SelectSteps(config, rescued, draining);
      OneMore(config, before, es, rescued, SelectDue, draining);
      DealtOne(SelectDue);
      DealtJoins(es, [SelectDue]);
      es := es + [SelectDue];
      more, states, ended := SubmitAll(q, behind, fates, watcher);
      RunsJoin(config, before, es, draining, more);
      DealtJoins(es, more);
      es := es + more;
      assert es[..k] == opening;
    }
  }

  lemma NothingRun(c: Config, s: State)
    ensures Run(c, s, []) == Some(s) && Dealt([]) == 0
  {
  }

  lemma NoneServed(c: Config, thresholdBps: int, s: State, behind: bool, fates: nat -> Fate)
    ensures AllServed(c, thresholdBps, [s], [], behind, fates, false)
  {
  }

  lemma ServedKeepsRows(c: Config, thresholdBps: int, s: State, t: State, d: Due, behind: bool, fate: Fate, ended: bool)
    requires d.id < |s.intents| && d.id in s.outbox && RowServed(c, thresholdBps, s, t, d, behind, fate, ended)
    ensures |t.intents| == |s.intents| && t.outbox.Keys == s.outbox.Keys
  {
  }

  /** A pass that ended among the first `n` rows. */
  lemma ServedPart(c: Config, thresholdBps: int, states: seq<State>, due: seq<Due>, n: nat, behind: bool, fates: nat -> Fate)
    requires n <= |due| && AllServed(c, thresholdBps, states, due[..n], behind, fates, true)
    ensures AllServed(c, thresholdBps, states, due, behind, fates, true)
  {
    hide RowServed;
    assert forall k :: 0 <= k < n ==> due[..n][k] == due[k];
  }

  /** No row comes or goes. */
  lemma SameRows(was: seq<Intent>, now: seq<Intent>, rows: map<nat, OutRow>, after: map<nat, OutRow>, d: Due, fate: Fate, time: int)
    requires d.id < |was| && d.id in rows
    ensures Parked(was, now, rows, after, d, time) || (exists over :: Refused(was, now, rows, after, d, over, time))
            || Delivered(was, now, rows, after, d, fate.delivery, fate.stops, time) ==>
              |now| == |was| && after.Keys == rows.Keys
  {
  }

  lemma AllButLast(c: Config, thresholdBps: int, states: seq<State>, due: seq<Due>, behind: bool, fates: nat -> Fate, ended: bool)
    requires AllServed(c, thresholdBps, states, due, behind, fates, ended) && |states| > 1
    ensures AllServed(c, thresholdBps, states[..|states| - 1], due[..|states| - 2], behind, fates, false)
  {
    hide RowServed;
  }

  /** A treasury that is halted, or whose node is behind its peers, sends nothing in a pass. */
  lemma {:induction false} NothingIsSent(c: Config, thresholdBps: int, states: seq<State>, due: seq<Due>, behind: bool, fates: nat -> Fate, ended: bool)
    requires AllServed(c, thresholdBps, states, due, behind, fates, ended) && (behind || states[0].halted)
    ensures states[|states| - 1].reached == states[0].reached && (states[0].halted ==> states[|states| - 1].halted)
    decreases |states|
  {
    var n := |states| - 1;
    if n > 0 {
      assert RowServed(c, thresholdBps, states[n - 1], states[n], due[n - 1], behind, fates(due[n - 1].id), ended && n - 1 == |states| - 2);
      AllButLast(c, thresholdBps, states, due, behind, fates, ended);
      NothingIsSent(c, thresholdBps, states[..n], due[..n - 1], behind, fates, false);
    }
  }
}
