/**
 The three passes of the payout worker, as it makes them: a drain, then the two confirmations.

 Each pass changes the rows of the database in place and talks to a signer, a relay and a chain that may
 answer anything they can, late or not at all. What a pass does is a run of the protocol, so everything proved
 of runs holds of any sequence of passes.
 */
module PayoutPasses {
  import opened Basics
  import opened Payouts

  /** What the signer answers, or that it did not. */
  datatype PayoutReply =
    | Paid(tx: string)
    | Submitted(traceId: nat, nonce: nat, deadline: int)
    | RelayRefused(nonce: nat, deadline: int)
    | FloatNotActive
    | NotSent
    | Ambiguous

  datatype ClaimOutcome = Claimed | Taken | Errored

  /** The pass takes exactly the due redemptions, each once, oldest first. */
  lemma {:induction false} DueIds(rows: seq<Row>)
    ensures forall i: nat :: i in PendingIds(rows) <==> i < |rows| && rows[i].status == Pending
    ensures forall a, b :: 0 <= a < b < |PendingIds(rows)| ==> PendingIds(rows)[a] < PendingIds(rows)[b]
  {
    if rows != [] {
      DueIds(rows[..|rows| - 1]);
      assert forall a :: 0 <= a < |PendingIds(rows[..|rows| - 1])| ==> PendingIds(rows)[a] in PendingIds(rows[..|rows| - 1]);
    }
  }

  /** What goes on around a pass: time, requests, burns, people, the relay, the float, and calls given up earlier. */
  predicate OfWorld(e: Event) {
    || e.Tick? || e.Request? || e.BurnConfirmed? || e.BurnMismatched? || e.SetHalt? || e.SignerSigns? || e.SignerSends?
    || e.RelayRuns? || e.FloatSpends?
  }

  /** The events of a drain pass and of everything around it. */
  predicate OfDrain(e: Event) {
    || OfWorld(e) || e.Crash? || e.StartDrain? || e.SkipOverCap? || e.StopAtCap? || e.SkipTaken? || e.Claim? || e.ClaimErrors? || e.EndPass?
    || e.ReplySubmitted? || e.ReplyRelayRefused? || e.ReplyNotActive? || e.ReplyUnsigned? || e.ReplyPaid? || e.ReplyAmbiguous?
  }

  /** A redemption at the head of the queue is dealt with. */
  predicate Heads(e: Event) {
    e.SkipOverCap? || e.StopAtCap? || e.SkipTaken? || e.Claim? || e.ClaimErrors?
  }

  /** How many were. */
  function Served(es: seq<Event>): nat {
    if es == [] then 0 else Served(es[..|es| - 1]) + (if Heads(es[|es| - 1]) then 1 else 0)
  }

  lemma {:induction false} ServedJoins(es: seq<Event>, more: seq<Event>)
    ensures Served(es + more) == Served(es) + Served(more)
  {
    if more == [] {
      assert es + more == es;
    } else {
      var n := |more| - 1;
      ServedJoins(es, more[..n]);
      assert (es + more)[..|es| + n] == es + more[..n];
    }
  }

  lemma {:induction false} NoneServed(es: seq<Event>)
    requires forall e :: e in es ==> !Heads(e)
    ensures Served(es) == 0
  {
    if es != [] { NoneServed(es[..|es| - 1]); }
  }

  /** After this the pass ends before its queue does: the cap, a permit signed or in doubt, a float not there yet, or a
      stop of the process. */
  predicate Ends(c: Config, e: Event) {
    || e.StopAtCap? || e.ReplySubmitted? || e.ReplyRelayRefused? || e.ReplyNotActive? || (e.ReplyAmbiguous? && c.gasfree)
    || e.Crash?
  }

  /** The reply is an honest account of what the signer did. */
  predicate Honest(c: Config, permits: seq<Permit>, act: Act, reply: PayoutReply) {
    match reply
    case Paid(tx) => act == Sent(tx)
    case Submitted(_, n, d) => act.Signed? && act.permit < |permits| && permits[act.permit].nonce == n && permits[act.permit].deadline == d
    case RelayRefused(n, d) => act.Signed? && act.permit < |permits| && permits[act.permit].nonce == n && permits[act.permit].deadline == d
    case FloatNotActive => c.gasfree && act.NotYet?
    case NotSent => act.NotYet?
    case Ambiguous => true
  }

  /** Whether the signer can give this answer, and act on it. */
  predicate CanSay(c: Config, nonce: nat, now: int, hashes: set<string>, answer: PayoutReply) {
    match answer
    case Paid(tx) => !c.gasfree && tx == Lower(tx) && tx !in hashes
    case Submitted(_, n, d) => c.gasfree && n <= nonce && d <= now + LONGEST_PERMIT_SECS
    case RelayRefused(n, d) => c.gasfree && n <= nonce && d <= now + LONGEST_PERMIT_SECS
    case FloatNotActive => c.gasfree
    case NotSent => true
    case Ambiguous => false
  }

  /** What meets a redemption in a pass: whether the process stops before it is looked at; whether the database answers the
      claim, and takes it when it does not; what the signer would answer, whether that is heard, and whether a transfer it
      sends moves anything; whether the process stops before the reply is recorded, and whether the database takes that. */
  datatype Fate = Fate(
    stopsFirst: bool, errors: bool, committed: bool,
    answer: PayoutReply, heard: bool, succeeds: bool,
    stops: bool, written: bool)

  /** What the worker hears of a call made in `s`. */
  function Heard(c: Config, s: State, fate: Fate): PayoutReply {
    if fate.heard && CanSay(c, s.nonce, s.now, s.hashes, fate.answer) then fate.answer else Ambiguous
  }

  function ReplyEvent(reply: PayoutReply, written: bool): Event {
    match reply
    case Paid(_) => ReplyPaid(written)
    case Submitted(trace, _, _) => ReplySubmitted(trace, written)
    case RelayRefused(_, _) => ReplyRelayRefused(written)
    case FloatNotActive => ReplyNotActive(written)
    case NotSent => ReplyUnsigned(written)
    case Ambiguous => ReplyAmbiguous(written)
  }

  /** The pass goes on after it. */
  predicate GoesOn(c: Config, reply: PayoutReply) {
    reply.Paid? || reply.NotSent? || (reply.Ambiguous? && !c.gasfree)
  }

  /** One redemption of a pass: the world goes on from `start`, the row comes up in `found`, the signer acts in `asked`, and
      the row is done with in `after`. */
  datatype Serving = Serving(start: State, lead: seq<Event>, found: State, asked: State, after: State, es: seq<Event>)

  ghost predicate PassesThrough(c: Config, s: State, es: seq<Event>, t: State) {
    exists k :: 0 <= k <= |es| && Run(c, s, es[..k]) == Some(t)
  }

  /** What is claimed, asked for and recorded, and what it charges the day, all follow from what is found and its fate. */
  ghost predicate PaidRight(c: Config, found: State, asked: State, after: State, es: seq<Event>, fate: Fate, goesOn: bool)
    requires found.worker.Draining? && found.worker.queue != [] && found.worker.queue[0] < |found.rows|
  {
    var queue, spent, row := found.worker.queue[1..], found.worker.dayTotal, found.rows[found.worker.queue[0]];
    var reply := Heard(c, asked, fate);
    if fate.stopsFirst then !goesOn && es == [Crash]
    else if row.amountClt > c.cap then goesOn && es == [SkipOverCap] && after.worker == Draining(queue, spent)
    else if spent + row.amountClt > c.cap then !goesOn && es == [StopAtCap]
    else if fate.errors then goesOn && es == [ClaimErrors(fate.committed)] && after.worker == Draining(queue, spent)
    else if row.status != Pending then goesOn && es == [SkipTaken] && after.worker == Draining(queue, spent)
    else
      && |es| > 1 && es[0] == Claim && PassesThrough(c, found, es, asked)
      && if fate.stops then !goesOn && es[|es| - 1] == Crash
         else
           && es[|es| - 1] == ReplyEvent(reply, fate.written) && (goesOn <==> GoesOn(c, reply))
           && (goesOn ==> after.worker == Draining(queue, spent + if reply.Paid? || reply.Ambiguous? then row.amountClt else 0))
  }

  ghost predicate ServedRight(c: Config, v: Serving, queue: seq<nat>, fate: Fate, goesOn: bool) {
    && (forall e :: e in v.lead ==> OfWorld(e)) && Run(c, v.start, v.lead) == Some(v.found) && Run(c, v.found, v.es) == Some(v.after)
    && v.found.worker.Draining? && v.found.worker.queue == queue && queue != [] && queue[0] < |v.found.rows|
    && PaidRight(c, v.found, v.asked, v.after, v.es, fate, goesOn)
  }

  /** The first redemptions of a pass one after another, each from where the one before left off. */
  ghost predicate AllServed(c: Config, servings: seq<Serving>, queue: seq<nat>, fates: nat -> Fate, ended: bool) {
    && |servings| <= |queue| && (ended ==> servings != [])
    && (forall k :: 0 <= k < |servings| - 1 ==> servings[k + 1].start == servings[k].after)
    && forall k :: 0 <= k < |servings| ==>
         ServedRight(c, servings[k], queue[k..], fates(queue[k]), !(ended && k == |servings| - 1))
  }

  /** The world acts on the database and the chain, not on the worker, unless it is the call the worker waits on. */
  lemma WorldLeavesWorker(c: Config, s: State, e: Event, w: Worker, settlements: seq<Settlement>)
    requires OfWorld(e) && s.worker == Idle
    requires (e.SignerSigns? || e.SignerSends?) && w.Waiting? ==> w.row != e.row
    ensures Around(c, s.(worker := w, settlements := settlements), e)
            == match Around(c, s, e)
               case None => None
               case Some(t) => Some(t.(worker := w, settlements := settlements))
    ensures Around(c, s, e).Some? ==> Around(c, s, e).value.worker == Idle
  {
  }

  lemma AroundSteps(c: Config, s: State, e: Event)
    requires Around(c, s, e).Some?
    ensures Step(c, s, e) == Around(c, s, e)
  {
    hide Around;
  }

  /** And leaves what a pass has read of the rows and permits, and the call it waits on. */
  ghost predicate Meanwhile(s: State, t: State, waiting: Option<nat>) {
    && |s.rows| <= |t.rows| && |s.permits| <= |t.permits| && s.now <= t.now
    && (forall i :: 0 <= i < |s.rows| ==> t.rows[i].amountClt == s.rows[i].amountClt)
    && (forall k :: 0 <= k < |s.permits| ==>
          t.permits[k].nonce == s.permits[k].nonce && t.permits[k].deadline == s.permits[k].deadline)
    && (waiting.Some? && waiting.value in s.calls ==>
          waiting.value in t.calls && t.calls[waiting.value] == s.calls[waiting.value])
  }

  lemma NothingMeanwhile(s: State, waiting: Option<nat>)
    ensures Meanwhile(s, s, waiting)
  {
  }

  lemma WorldIsMeanwhile(c: Config, s: State, e: Event, waiting: Option<nat>)
    requires OfWorld(e) && Around(c, s, e).Some?
    requires (e.SignerSigns? || e.SignerSends?) ==> waiting != Some(e.row)
    ensures Meanwhile(s, Around(c, s, e).value, waiting)
  {
  }

  /** So it is a step of the protocol wherever the worker is. */
  lemma WorldSteps(c: Config, s: State, e: Event, w: Worker, settlements: seq<Settlement>, waiting: Option<nat>)
    requires OfWorld(e) && s.worker == Idle && Around(c, s, e).Some? && (w.Waiting? ==> waiting == Some(w.row))
    requires (e.SignerSigns? || e.SignerSends?) ==> waiting != Some(e.row)
    ensures var before := s.(worker := w, settlements := settlements);
            var after := Around(c, s, e).value.(worker := w, settlements := settlements);
            Step(c, before, e) == Some(after) && Meanwhile(before, after, waiting)
  {
    hide Around, Step;
    var before := s.(worker := w, settlements := settlements);
    WorldLeavesWorker(c, s, e, w, settlements);
    AroundSteps(c, before, e);
    WorldIsMeanwhile(c, before, e, waiting);
  }

  /** What a confirmation pass makes of a row: paid, if its transfer is on the chain and can be read. */
  ghost function Confirmed(r: Row, transfers: seq<Transfer>, fails: bool): Row {
    if r.status == Status.Submitted && r.payoutRef.Some? && !fails
       && (exists x :: 0 <= x < |transfers| && transfers[x].tx == r.payoutRef.value)
    then r.(status := Status.Paid) else r
  }

  /** The chain's history shows what the relay names paying redemption `r`: its hash in any case, from the float to the
      address, of exactly the quote, and no earlier than ten minutes before the claim. */
  ghost predicate Shown(r: Row, transfers: seq<Transfer>, named: Option<string>) {
    && r.traceId.Some? && named.Some?
    && exists x :: 0 <= x < |transfers| && Lower(transfers[x].tx) == Lower(named.value) && transfers[x].to == r.to
                   && transfers[x].amount == r.quote && transfers[x].at >= r.submittedAt - 600
  }

  /** Where a permit that was not paid is past its time: back to be paid when the nonce has not moved past it, and to a
      person otherwise. */
  function Decided(r: Row, seen: nat): Row
    requires r.permitNonce.Some?
  {
    if seen <= r.permitNonce.value then r.(status := Pending, traceId := None, permitNonce := None, permitDeadline := None)
    else r.(permitNonce := None)
  }

  function Settled(r: Row, paid: bool, named: Option<string>, now: int, seen: Option<nat>): Row
    requires r.permitNonce.Some? && r.permitDeadline.Some?
  {
    if paid then r.(status := Status.Paid, payoutRef := named)
    else if now > r.permitDeadline.value + 300 && seen.Some? then Decided(r, seen.value)
    else r
  }

  /** Redemption `i` takes what the relay names in a pass from `before` to `after`: the chain shows it, and neither an
      earlier one has it by then nor a later one had it before. */
  ghost predicate PaysThis(before: seq<Row>, after: seq<Row>, transfers: seq<Transfer>, i: nat, named: Option<string>)
    requires i < |before| == |after|
  {
    && Shown(before[i], transfers, named)
    && (forall j :: 0 <= j < i ==> after[j].payoutRef != named)
    && (forall j :: i < j < |before| ==> before[j].payoutRef != named)
  }

  /** What the relay names for a redemption, and the nonce read for it; `None` where it names none or the read fails. */
  function Answer<T>(m: map<nat, T>, i: nat): Option<T> {
    if i in m then Some(m[i]) else None
  }

  /** The pass from `before` has been over the first `n` redemptions. */
  ghost predicate Swept(before: State, rows: seq<Row>, withdrawals: map<nat, int>, n: nat,
                        named: map<nat, string>, nonces: map<nat, nat>, failing: set<nat>)
    requires before.worker == Idle
  {
    && |rows| == |before.rows|
    && (forall i: nat :: n <= i < |rows| ==> rows[i] == before.rows[i])
    && (forall i: nat :: i < |rows| && (i in failing || !Settling(before, i)) ==> rows[i] == before.rows[i])
    && (forall i: nat :: i < n && Settling(before, i) && i !in failing ==>
          rows[i] == Settled(before.rows[i], PaysThis(before.rows, rows, before.transfers, i, Answer(named, i)),
                             Answer(named, i), before.now, Answer(nonces, i)))
    && (forall i: nat :: i in withdrawals <==>
          i in before.withdrawals
          || (i < n && Settling(before, i) && i !in failing && PaysThis(before.rows, rows, before.transfers, i, Answer(named, i))))
  }

  lemma NothingSwept(before: State, named: map<nat, string>, nonces: map<nat, nat>, failing: set<nat>)
    requires before.worker == Idle
    ensures Swept(before, before.rows, before.withdrawals, 0, named, nonces, failing)
  {
  }

  lemma SweptSoFar(before: State, s: State, n: nat, named: map<nat, string>, nonces: map<nat, nat>, failing: set<nat>)
    requires before.worker == s.worker == Idle && Swept(before, s.rows, s.withdrawals, n, named, nonces, failing) && n < |s.rows|
    ensures s.rows[n] == before.rows[n] && (Settling(before, n) <==> Settling(s, n))
  {
  }

  /** One more: what the earlier ones took does not depend on it. */
  lemma OneMoreSwept(before: State, s: State, t: State, n: nat, named: map<nat, string>, nonces: map<nat, nat>, failing: set<nat>)
    requires before.worker == s.worker == Idle && Swept(before, s.rows, s.withdrawals, n, named, nonces, failing) && n < |s.rows|
    requires s.transfers == before.transfers && s.now == before.now
    requires if n in failing || !Settling(s, n) then t == s
             else
               var paid := Shown(s.rows[n], s.transfers, Answer(named, n)) && forall j :: 0 <= j < |s.rows| && j != n ==> s.rows[j].payoutRef != Answer(named, n);
               && t.rows == s.rows[n := Settled(s.rows[n], paid, Answer(named, n), s.now, Answer(nonces, n))]
               && t.withdrawals == if paid && n !in s.withdrawals then s.withdrawals[n := t.rows[n].quote] else s.withdrawals
    ensures Swept(before, t.rows, t.withdrawals, n + 1, named, nonces, failing)
  {
    forall i: nat | i < |t.rows| && i <= n
      ensures PaysThis(before.rows, t.rows, before.transfers, i, Answer(named, i)) <==> PaysThis(before.rows, s.rows, before.transfers, i, Answer(named, i))
    {
      assert forall j :: 0 <= j < i ==> t.rows[j] == s.rows[j];
    }
    assert PaysThis(before.rows, s.rows, before.transfers, n, Answer(named, n))
           <==> Shown(s.rows[n], s.transfers, Answer(named, n)) && forall j :: 0 <= j < |s.rows| && j != n ==> s.rows[j].payoutRef != Answer(named, n);
  }

  lemma SweptAll(before: State, rows: seq<Row>, withdrawals: map<nat, int>, named: map<nat, string>, nonces: map<nat, nat>, failing: set<nat>)
    requires before.worker == Idle && Swept(before, rows, withdrawals, |rows|, named, nonces, failing)
    ensures |rows| == |before.rows|
    ensures forall i: nat :: i < |rows| && (i in failing || !Settling(before, i)) ==> rows[i] == before.rows[i]
    ensures forall i: nat :: Settling(before, i) && i !in failing ==>
              rows[i] == Settled(before.rows[i], PaysThis(before.rows, rows, before.transfers, i, Answer(named, i)),
                                 Answer(named, i), before.now, Answer(nonces, i))
    ensures forall i: nat :: i in withdrawals <==>
              i in before.withdrawals
              || (Settling(before, i) && i !in failing && PaysThis(before.rows, rows, before.transfers, i, Answer(named, i)))
  {
  }

  /** The controller's nonce has passed every permit it ran. */
  ghost predicate NonceAhead(s: State) {
    forall k :: 0 <= k < |s.permits| && s.permits[k].ran ==> s.permits[k].nonce < s.nonce
  }

  lemma WorkerLeavesNonce(c: Config, s: State, e: Event)
    requires Step(c, s, e).Some? && Around(c, s, e).None?
    ensures Step(c, s, e).value.permits == s.permits && Step(c, s, e).value.nonce == s.nonce
  {
    hide Around;
  }

  lemma StepKeepsNonceAhead(c: Config, s: State, e: Event)
    requires NonceAhead(s) && Step(c, s, e).Some?
    ensures NonceAhead(Step(c, s, e).value)
  {
    if Around(c, s, e).Some? {
      hide Drain, Reply, Settle;
      AroundSteps(c, s, e);
    } else {
      hide Around, Step;
      WorkerLeavesNonce(c, s, e);
    }
  }

  /** Whatever happens: a run from the start has it, and so has every run from a state that has it. */
  lemma {:induction false} RunKeepsNonceAhead(c: Config, s: State, events: seq<Event>)
    requires NonceAhead(s) && Run(c, s, events).Some?
    ensures NonceAhead(Run(c, s, events).value)
    ensures NonceAhead(START)
  {
    hide Step;
    if events != [] {
      var n := |events| - 1;
      RunKeepsNonceAhead(c, s, events[..n]);
      StepKeepsNonceAhead(c, Run(c, s, events[..n]).value, events[n]);
    }
  }

  lemma NothingRun(c: Config, s: State)
    ensures Run(c, s, []) == Some(s)
  {
  }

  /** What a run passes through, every longer one does. */
  lemma ThroughStill(c: Config, s: State, es: seq<Event>, more: seq<Event>, t: State)
    requires PassesThrough(c, s, es, t)
    ensures PassesThrough(c, s, es + more, t)
  {
    hide Run;
    var k :| 0 <= k <= |es| && Run(c, s, es[..k]) == Some(t);
    assert (es + more)[..k] == es[..k];
  }

  lemma ThroughFurther(c: Config, s: State, es: seq<Event>, t: State, more: seq<Event>, u: State)
    requires Run(c, s, es) == Some(t) && PassesThrough(c, t, more, u)
    ensures PassesThrough(c, s, es + more, u)
  {
    hide Run;
    var k :| 0 <= k <= |more| && Run(c, t, more[..k]) == Some(u);
    RunsJoin(c, s, es, t, more[..k]);
    assert (es + more)[..|es| + k] == es + more[..k];
  }

  lemma NothingServed(c: Config, due: seq<nat>, fates: nat -> Fate)
    ensures AllServed(c, [], due, fates, false)
  {
  }

  lemma EndIsOfDrain()
    ensures OfDrain(EndPass) && Served([EndPass]) == 0
  {
    NoneServed([EndPass]);
  }

  lemma OneMoreServed(c: Config, servings: seq<Serving>, v: Serving, due: seq<nat>, fates: nat -> Fate, ended: bool)
    requires AllServed(c, servings, due, fates, false) && |servings| < |due|
    requires ServedRight(c, v, due[|servings|..], fates(due[|servings|]), !ended)
    requires servings != [] ==> v.start == servings[|servings| - 1].after
    ensures AllServed(c, servings + [v], due, fates, ended)
  {
    hide ServedRight;
  }

  class Treasury {
    const config: Config
    // the database
    var rows: seq<Row>
    var withdrawals: map<nat, int>
    var halted: bool
    // the world it works in
    var now: int
    var nonce: nat
    var permits: seq<Permit>
    var transfers: seq<Transfer>
    var hashes: set<string>
    var calls: map<nat, Option<int>>
    ghost var settlements: seq<Settlement>

    ghost function State(w: Worker): State
      reads this
    {
      Payouts.State(rows, withdrawals, halted, now, nonce, permits, transfers, hashes, calls, w, settlements)
    }

    ghost predicate NonceIsAhead()
      reads this
    {
      NonceAhead(State(Idle))
    }

    constructor (c: Config)
      ensures config == c && State(Idle) == START && NonceIsAhead()
    {
      config := c;
      rows, withdrawals, halted, now, nonce, permits, transfers, hashes := [], map[], false, 0, 0, [], [], {};
      calls, settlements := map[], [];
    }

    /** The claim: committed before the signer is called. `errors` and `committed` are what the database does. */
    method ClaimRow(i: nat, errors: bool, committed: bool, ghost queue: seq<nat>, ghost spent: int)
      returns (outcome: ClaimOutcome, ghost e: Event)
      requires i < |rows| && rows[i].amountClt <= config.cap && spent + rows[i].amountClt <= config.cap
      modifies this`rows, this`calls
      ensures outcome == if errors then Errored else if old(rows[i].status) == Pending then Claimed else Taken
      ensures e == if errors then ClaimErrors(committed) else if old(rows[i].status) == Pending then Claim else SkipTaken
      ensures rows == if old(rows[i].status) == Pending && (errors ==> committed)
                      then old(rows)[i := old(rows[i]).(status := Status.Submitted, submittedAt := now)] else old(rows)
      ensures outcome.Claimed? ==> i in calls && calls[i] == None
      ensures Step(config, old(State(Draining([i] + queue, spent))), e)
              == Some(State(if outcome.Claimed? then Waiting(i, queue, spent, NotYet) else Draining(queue, spent)))
    {
      assert ([i] + queue)[1..] == queue;
      if errors {
        outcome, e := Errored, ClaimErrors(committed);
        if committed && rows[i].status == Pending {
          rows := rows[i := rows[i].(status := Status.Submitted, submittedAt := now)];
        }
      } else if rows[i].status == Pending {
        outcome, e := Claimed, Claim;
        rows := rows[i := rows[i].(status := Status.Submitted, submittedAt := now)];
        calls := calls[i := None];
      } else {
        outcome, e := Taken, SkipTaken;
      }
    }

    /** The signer signs a permit for a call it has not acted on. */
    method Sign(i: nat, nonce: nat, deadline: int, ghost queue: seq<nat>, ghost spent: int) returns (ghost act: Act)
      requires i < |rows| && i in calls && config.gasfree && nonce <= this.nonce && deadline <= now + LONGEST_PERMIT_SECS
      modifies this`permits, this`calls
      ensures act == Signed(|old(permits)|) && |permits| == |old(permits)| + 1
      ensures permits[|old(permits)|].nonce == nonce && permits[|old(permits)|].deadline == deadline
      ensures Step(config, old(State(Waiting(i, queue, spent, NotYet))), SignerSigns(i, nonce, deadline))
              == Some(State(Waiting(i, queue, spent, act)))
    {
      act := Signed(|permits|);
      permits := permits + [Permit(i, rows[i].to, rows[i].quote, nonce, deadline, false)];
      calls := calls - {i};
    }

    /** Or sends the transfer itself, which may move nothing. */
    method SendItself(i: nat, tx: string, succeeds: bool, ghost queue: seq<nat>, ghost spent: int) returns (ghost act: Act)
      requires i < |rows| && i in calls && !config.gasfree && tx == Lower(tx) && tx !in hashes
      modifies this`transfers, this`hashes, this`calls
      ensures act == Sent(tx)
      ensures Step(config, old(State(Waiting(i, queue, spent, NotYet))), SignerSends(i, tx, succeeds))
              == Some(State(Waiting(i, queue, spent, act)))
    {
      act := Sent(tx);
      if succeeds {
        transfers := transfers + [Transfer(tx, rows[i].to, rows[i].quote, now, Some(i), None)];
      }
      hashes := hashes + {tx};
      calls := calls - {i};
    }

    /** Something happens around the pass, if it can. */
    method Happen(e: Event, waiting: Option<nat>, ghost w: Worker) returns (happened: bool)
      requires OfWorld(e) && (w.Waiting? ==> waiting == Some(w.row))
      modifies this
      ensures happened ==> Step(config, old(State(w)), e) == Some(State(w))
      ensures !happened ==> State(w) == old(State(w))
      ensures Meanwhile(old(State(w)), State(w), waiting)
    {
      hide Around, Step, Meanwhile;
      var s := Payouts.State(rows, withdrawals, halted, now, nonce, permits, transfers, hashes, calls, Idle, []);
      var t := Around(config, s, e);
      happened := t.Some? && ((e.SignerSigns? || e.SignerSends?) ==> waiting != Some(e.row));
      if happened {
        WorldSteps(config, s, e, w, settlements, waiting);
        var u := t.value;
        rows, withdrawals, halted, now, nonce := u.rows, u.withdrawals, u.halted, u.now, u.nonce;
        permits, transfers, hashes, calls := u.permits, u.transfers, u.hashes, u.calls;
      } else {
        NothingMeanwhile(State(w), waiting);
      }
    }

    /** Any number of things happen. */
    method Pause(waiting: Option<nat>, ghost w: Worker) returns (ghost es: seq<Event>)
      requires w.Waiting? ==> waiting == Some(w.row)
      modifies this
      ensures Run(config, old(State(w)), es) == Some(State(w))
      ensures forall e :: e in es ==> OfWorld(e)
      ensures Meanwhile(old(State(w)), State(w), waiting)
    {
      hide Step;
      ghost var before := State(w);
      es := [];
      var many: nat := *;
      while many > 0
        invariant Run(config, before, es) == Some(State(w))
        invariant (forall e :: e in es ==> OfWorld(e)) && Meanwhile(before, State(w), waiting)
      {
        var e: Event := *;
        ghost var here := State(w);
        if OfWorld(e) {
          var happened := Happen(e, waiting, w);
          if happened {
            OneMore(config, before, es, here, e, State(w));
            es := es + [e];
          }
        }
        many := many - 1;
      }
    }

    /** The process stops while it waits on the signer. */
    method Die(i: nat, ghost w: Worker)
      requires w.Waiting? && w.row == i
      modifies this`calls
      ensures Step(config, old(State(w)), Crash) == Some(State(Idle))
    {
      if i in calls {
        calls := calls[i := Some(now)];
      }
    }

    /** The signer: it acts and answers, acts and is not heard, or does neither; whatever it says is so. */
    method SignerActs(i: nat, fate: Fate, ghost queue: seq<nat>, ghost spent: int)
      returns (reply: PayoutReply, ghost act: Act, ghost es: seq<Event>)
      requires i < |rows| && i in calls && calls[i] == None
      modifies this`permits, this`transfers, this`hashes, this`calls
      ensures Run(config, old(State(Waiting(i, queue, spent, NotYet))), es) == Some(State(Waiting(i, queue, spent, act)))
      ensures Honest(config, permits, act, reply)
      ensures reply == if fate.heard && CanSay(config, nonce, now, old(hashes), fate.answer) then fate.answer else Ambiguous
      ensures forall e :: e in es ==> OfDrain(e) && !e.Crash? && !Heads(e)
    {
      hide Step;
      ghost var before := State(Waiting(i, queue, spent, NotYet));
      act, es := NotYet, [];
      var answer, can := fate.answer, CanSay(config, nonce, now, hashes, fate.answer);
      reply := if fate.heard && can then answer else Ambiguous;
      if can && (answer.Submitted? || answer.RelayRefused?) {
        act := Sign(i, answer.nonce, answer.deadline, queue, spent);
        es := [SignerSigns(i, answer.nonce, answer.deadline)];
        OneStep(config, before, es[0], State(Waiting(i, queue, spent, act)));
      } else if can && answer.Paid? {
        act := SendItself(i, answer.tx, fate.succeeds, queue, spent);
        es := [SignerSends(i, answer.tx, fate.succeeds)];
        OneStep(config, before, es[0], State(Waiting(i, queue, spent, act)));
      }
    }

    /** The call, and what happens around it before the signer acts, in `asked`, and before its answer comes. */
    method CallSigner(i: nat, fate: Fate, ghost queue: seq<nat>, ghost spent: int)
      returns (reply: PayoutReply, ghost act: Act, ghost es: seq<Event>, ghost asked: State)
      requires i < |rows| && i in calls && calls[i] == None
      modifies this
      ensures Run(config, old(State(Waiting(i, queue, spent, NotYet))), es) == Some(State(Waiting(i, queue, spent, act)))
      ensures Honest(config, permits, act, reply) && |rows| >= |old(rows)| && rows[i].amountClt == old(rows[i].amountClt)
      ensures reply == Heard(config, asked, fate) && PassesThrough(config, old(State(Waiting(i, queue, spent, NotYet))), es, asked)
      ensures forall e :: e in es ==> OfDrain(e) && !e.Crash? && !Heads(e)
    {
      hide Step, Run;
      ghost var more;
      ghost var before := State(Waiting(i, queue, spent, NotYet));
      es := Pause(Some(i), Waiting(i, queue, spent, NotYet));
      asked := State(Waiting(i, queue, spent, NotYet));
      ghost var first := es;
      reply, act, more := SignerActs(i, fate, queue, spent);
      RunsJoin(config, before, es, asked, more);
      es := es + more;
      ghost var here := State(Waiting(i, queue, spent, act));
      more := Pause(Some(i), Waiting(i, queue, spent, act));
      RunsJoin(config, before, es, here, more);
      es := es + more;
      assert es[..|first|] == first;
    }

    /** A permit was signed: its nonce and deadline go on the row, and the pass ends. */
    method RecordPermit(i: nat, written: bool, ghost queue: seq<nat>, ghost spent: int, ghost act: Act, reply: PayoutReply)
      returns (ghost e: Event)
      requires i < |rows| && Honest(config, permits, act, reply) && (reply.Submitted? || reply.RelayRefused?)
      modifies this`rows
      ensures e == if reply.Submitted? then ReplySubmitted(reply.traceId, written) else ReplyRelayRefused(written)
      ensures rows == if !written then old(rows)
                      else old(rows)[i := old(rows[i]).(traceId := if reply.Submitted? then Some(reply.traceId) else None,
                                                        permitNonce := Some(reply.nonce), permitDeadline := Some(reply.deadline))]
      ensures Step(config, old(State(Waiting(i, queue, spent, act))), e) == Some(State(Idle))
    {
      var traceId := if reply.Submitted? then Some(reply.traceId) else None;
      e := if reply.Submitted? then ReplySubmitted(reply.traceId, written) else ReplyRelayRefused(written);
      if written {
        rows := rows[i := rows[i].(traceId := traceId, permitNonce := Some(reply.nonce), permitDeadline := Some(reply.deadline))];
      }
    }

    /** Nothing was signed: the row goes back to be paid by a later pass. */
    method ReturnRow(i: nat, written: bool, ghost queue: seq<nat>, ghost spent: int, reply: PayoutReply) returns (ghost e: Event)
      requires i < |rows| && Honest(config, permits, NotYet, reply) && (reply.FloatNotActive? || reply.NotSent?)
      modifies this`rows, this`calls
      ensures e == if reply.NotSent? then ReplyUnsigned(written) else ReplyNotActive(written)
      ensures rows == if written && old(rows[i].status) == Status.Submitted
                      then old(rows)[i := old(rows[i]).(status := Pending)] else old(rows)
      ensures Step(config, old(State(Waiting(i, queue, spent, NotYet))), e)
              == Some(State(if reply.NotSent? then Draining(queue, spent) else Idle))
    {
      e := if reply.NotSent? then ReplyUnsigned(written) else ReplyNotActive(written);
      calls := calls - {i};
      if written && rows[i].status == Status.Submitted {
        rows := rows[i := rows[i].(status := Pending)];
      }
    }

    /** No answer, or none that can be trusted: the row stays claimed, and on the GasFree rail it holds the float. */
    method HoldRow(i: nat, written: bool, ghost queue: seq<nat>, ghost spent: int, ghost act: Act) returns (ghost e: Event)
      requires i < |rows|
      modifies this`rows, this`calls
      ensures e == ReplyAmbiguous(written)
      ensures rows == if config.gasfree && written then old(rows)[i := old(rows[i]).(permitDeadline := Some(now + 900))] else old(rows)
      ensures Step(config, old(State(Waiting(i, queue, spent, act))), e)
              == Some(State(if config.gasfree then Idle else Draining(queue, spent + rows[i].amountClt)))
    {
      e := ReplyAmbiguous(written);
      if i in calls { calls := calls[i := Some(now)]; }
      if config.gasfree && written {
        rows := rows[i := rows[i].(permitDeadline := Some(now + LONGEST_PERMIT_SECS + DEADLINE_GRACE_SECS))];
      }
    }

    /** The signer sent the transfer: its hash goes on the row. */
    method RecordTransfer(i: nat, written: bool, ghost queue: seq<nat>, ghost spent: int, tx: string) returns (ghost e: Event)
      requires i < |rows|
      modifies this`rows
      ensures e == ReplyPaid(written)
      ensures rows == if written then old(rows)[i := old(rows[i]).(payoutRef := Some(tx))] else old(rows)
      ensures Step(config, old(State(Waiting(i, queue, spent, Sent(tx)))), e)
              == Some(State(Draining(queue, spent + rows[i].amountClt)))
    {
      e := ReplyPaid(written);
      if written { rows := rows[i := rows[i].(payoutRef := Some(tx))]; }
    }

    /** What each reply leads to, what it charges the day's budget, and whether the pass goes on. `written` is whether
        the database takes the outcome. */
    method RecordReply(i: nat, written: bool, ghost queue: seq<nat>, spent: int, ghost act: Act, reply: PayoutReply)
      returns (goesOn: bool, charged: int, ghost e: Event)
      requires i < |rows| && Honest(config, permits, act, reply)
      modifies this`rows, this`calls
      ensures OfDrain(e) && !Heads(e) && (!goesOn ==> Ends(config, e)) && !e.Crash?
      ensures Step(config, old(State(Waiting(i, queue, spent, act))), e)
              == Some(State(if goesOn then Draining(queue, charged) else Idle))
      ensures goesOn <==> reply.Paid? || reply.NotSent? || (reply.Ambiguous? && !config.gasfree)
      ensures e == ReplyEvent(reply, written)
      ensures charged == spent + if reply.Paid? || reply.Ambiguous? then old(rows[i].amountClt) else 0
      // the row
      ensures !written ==> rows == old(rows)
      ensures written ==>
                var was := old(rows[i]);
                rows == old(rows)[i := match reply
                                       case Paid(tx) => was.(payoutRef := Some(tx))
                                       case Submitted(trace, n, d) => was.(traceId := Some(trace), permitNonce := Some(n), permitDeadline := Some(d))
                                       case RelayRefused(n, d) => was.(traceId := None, permitNonce := Some(n), permitDeadline := Some(d))
                                       case FloatNotActive => if was.status == Status.Submitted then was.(status := Pending) else was
                                       case NotSent => if was.status == Status.Submitted then was.(status := Pending) else was
                                       case Ambiguous => if config.gasfree then was.(permitDeadline := Some(now + 900)) else was]
    {
      hide Step;
      goesOn, charged := true, spent;
      if reply.Paid? {
        charged := spent + rows[i].amountClt;
        e := RecordTransfer(i, written, queue, spent, reply.tx);
      } else if reply.Submitted? || reply.RelayRefused? {
        e := RecordPermit(i, written, queue, spent, act, reply);
        goesOn := false;
      } else if reply.Ambiguous? {
        charged, goesOn := spent + rows[i].amountClt, !config.gasfree;
        e := HoldRow(i, written, queue, spent, act);
      } else {
        e := ReturnRow(i, written, queue, spent, reply);
        goesOn := reply.NotSent?;
      }
    }

    /** Claim, call, record: one redemption of a pass. The process may stop while it waits. */
    method PayRow(i: nat, fate: Fate, ghost queue: seq<nat>, spent: int)
      returns (goesOn: bool, charged: int, ghost es: seq<Event>, ghost asked: State)
      requires i < |rows| && rows[i].amountClt <= config.cap && spent + rows[i].amountClt <= config.cap && !fate.stopsFirst
      modifies this
      ensures |rows| >= |old(rows)| && forall e :: e in es ==> OfDrain(e)
      ensures es != [] && Served(es) == 1 && (!goesOn ==> Ends(config, es[|es| - 1]))
      ensures Run(config, old(State(Draining([i] + queue, spent))), es)
              == Some(State(if goesOn then Draining(queue, charged) else Idle))
      ensures PaidRight(config, old(State(Draining([i] + queue, spent))), asked,
                        State(if goesOn then Draining(queue, charged) else Idle), es, fate, goesOn)
    {
      hide Step, Run;
      ghost var before := State(Draining([i] + queue, spent));
      assert ([i] + queue)[0] == i && ([i] + queue)[1..] == queue;
      ghost var e;
      var outcome;
      goesOn, charged, asked := true, spent, before;
      outcome, e := ClaimRow(i, fate.errors, fate.committed, queue, spent);
      es := [e];
      assert es[..0] == [] && Served(es) == 1;
      OneStep(config, before, e, State(if outcome.Claimed? then Waiting(i, queue, spent, NotYet) else Draining(queue, spent)));
      if outcome.Claimed? {
        ghost var claimed, more := State(Waiting(i, queue, spent, NotYet)), [];
        goesOn, charged, more, asked := AskSigner(i, fate, queue, spent);
        RunsJoin(config, before, es, claimed, more);
        ThroughFurther(config, before, es, claimed, more, asked);
        NoneServed(more);
        ServedJoins(es, more);
        es := es + more;
      }
    }

    /** The call, and what its reply leads to. */
    method AskSigner(i: nat, fate: Fate, ghost queue: seq<nat>, spent: int)
      returns (goesOn: bool, charged: int, ghost es: seq<Event>, ghost asked: State)
      requires i < |rows| && i in calls && calls[i] == None
      modifies this
      ensures |rows| >= |old(rows)| && forall e :: e in es ==> OfDrain(e) && !Heads(e)
      ensures es != [] && (!goesOn ==> Ends(config, es[|es| - 1]))
      ensures Run(config, old(State(Waiting(i, queue, spent, NotYet))), es)
              == Some(State(if goesOn then Draining(queue, charged) else Idle))
      ensures PassesThrough(config, old(State(Waiting(i, queue, spent, NotYet))), es, asked)
      ensures es[|es| - 1] == if fate.stops then Crash else ReplyEvent(Heard(config, asked, fate), fate.written)
      ensures goesOn <==> !fate.stops && GoesOn(config, Heard(config, asked, fate))
      ensures goesOn ==>
                var reply := Heard(config, asked, fate);
                charged == spent + if reply.Paid? || reply.Ambiguous? then old(rows[i].amountClt) else 0
    {
      hide Step, Run, Heard;
      ghost var before, act, e := State(Waiting(i, queue, spent, NotYet)), NotYet, Crash;
      var reply;
      reply, act, es, asked := CallSigner(i, fate, queue, spent);
      ghost var answered := State(Waiting(i, queue, spent, act));
      ghost var called := es;
      if fate.stops {
        Die(i, Waiting(i, queue, spent, act));
        goesOn, charged := false, spent;
      } else {
        goesOn, charged, e := RecordReply(i, fate.written, queue, spent, act, reply);
      }
      OneMore(config, before, es, answered, e, State(if goesOn then Draining(queue, charged) else Idle));
      ThroughStill(config, before, es, [e], asked);
      es := es + [e];
    }

    /** The gate: the pass starts unless the treasury is halted or some permit is in doubt. */
    method StartPass() returns (starts: bool, queue: seq<nat>, spent: int)
      ensures starts <==> !halted && forall i :: 0 <= i < |rows| ==> !InDoubt(rows[i], now)
      ensures starts ==> Step(config, State(Idle), StartDrain) == Some(State(Draining(queue, spent)))
      ensures starts ==> queue == PendingIds(rows) && spent == DayTotal(rows, now)
      ensures forall k :: 0 <= k < |queue| ==> queue[k] < |rows|
    {
      starts, queue, spent := false, [], 0;
      if halted { return; }
      var n := 0;
      while n < |rows|
        invariant n <= |rows| && forall i :: 0 <= i < n ==> !InDoubt(rows[i], now)
      {
        if InDoubt(rows[n], now) { return; }
        n := n + 1;
      }
      starts, queue, spent := true, PendingIds(rows), DayTotal(rows, now);
      DueIds(rows);
      assert forall k :: 0 <= k < |queue| ==> queue[k] in queue;
    }

    /** The head of the queue is past what may be paid. */
    lemma CapSteps(queue: seq<nat>, spent: int)
      requires queue != [] && queue[0] < |rows|
      ensures rows[queue[0]].amountClt > config.cap ==>
                Step(config, State(Draining(queue, spent)), SkipOverCap) == Some(State(Draining(queue[1..], spent)))
      ensures rows[queue[0]].amountClt <= config.cap < spent + rows[queue[0]].amountClt ==>
                Step(config, State(Draining(queue, spent)), StopAtCap) == Some(State(Idle))
    {
    }

    lemma LastStep(w: Worker, last: Event)
      requires !w.Waiting? && (last.Crash? || (last.EndPass? && w.Draining? && w.queue == []))
      ensures Step(config, State(w), last) == Some(State(Idle))
    {
    }

    /** The head of the queue: past a cap, or paid. */
    method TakeHead(queue: seq<nat>, spent: int, fate: Fate) returns (goesOn: bool, charged: int, ghost es: seq<Event>, ghost asked: State)
      requires queue != [] && queue[0] < |rows| && !fate.stopsFirst
      modifies this
      ensures |rows| >= |old(rows)| && forall e :: e in es ==> OfDrain(e)
      ensures es != [] && Served(es) == 1 && (!goesOn ==> Ends(config, es[|es| - 1]))
      ensures Run(config, old(State(Draining(queue, spent))), es)
              == Some(State(if goesOn then Draining(queue[1..], charged) else Idle))
      ensures PaidRight(config, old(State(Draining(queue, spent))), asked,
                        State(if goesOn then Draining(queue[1..], charged) else Idle), es, fate, goesOn)
    {
      hide Step, Run;
      ghost var before := State(Draining(queue, spent));
      var i := queue[0];
      goesOn, charged, asked := true, spent, before;
      CapSteps(queue, spent);
      if rows[i].amountClt > config.cap {
        es := [SkipOverCap];
        assert es[..0] == [];
        OneStep(config, before, SkipOverCap, State(Draining(queue[1..], spent)));
      } else if spent + rows[i].amountClt > config.cap {
        goesOn, es := false, [StopAtCap];
        assert es[..0] == [];
        OneStep(config, before, StopAtCap, State(Idle));
      } else {
        hide PaidRight;
        assert queue == [i] + queue[1..];
        goesOn, charged, es, asked := PayRow(i, fate, queue[1..], spent);
      }
    }

    /** One redemption of the pass and what happens around it before. */
    method ServeNext(queue: seq<nat>, spent: int, fate: Fate) returns (goesOn: bool, charged: int, ghost v: Serving)
      requires queue != [] && forall k :: 0 <= k < |queue| ==> queue[k] < |rows|
      modifies this
      ensures |rows| >= |old(rows)| && v.es != [] && forall e :: e in v.lead + v.es ==> OfDrain(e)
      ensures if goesOn then Served(v.lead + v.es) == 1 else Ends(config, v.es[|v.es| - 1])
      ensures Run(config, old(State(Draining(queue, spent))), v.lead + v.es) == Some(State(if goesOn then Draining(queue[1..], charged) else Idle))
      ensures v.start == old(State(Draining(queue, spent))) && v.after == State(if goesOn then Draining(queue[1..], charged) else Idle)
      ensures ServedRight(config, v, queue, fate, goesOn)
    {
      hide Step, Run;
      ghost var before := State(Draining(queue, spent));
      ghost var lead := Pause(None, Draining(queue, spent));
      ghost var found, asked, es := State(Draining(queue, spent)), before, [Crash];
      NoneServed(lead);
      if fate.stopsFirst {
        LastStep(Draining(queue, spent), Crash);
        goesOn, charged := false, spent;
        OneStep(config, found, Crash, State(Idle));
      } else {
        hide PaidRight;
        goesOn, charged, es, asked := TakeHead(queue, spent, fate);
      }
      v := Serving(before, lead, found, asked, State(if goesOn then Draining(queue[1..], charged) else Idle), es);
      RunsJoin(config, before, lead, found, es);
      ServedJoins(lead, es);
    }

    /** One pass over the due redemptions, oldest first. It does nothing when the treasury is halted or a permit
        is in doubt, and otherwise runs the protocol from the start of a pass to its end, with anything happening
        around it at any point, or to wherever the process stops. Every due redemption is served in its turn, as its fate
        has it, unless something ends the pass before. */
    method DrainOnce(fates: nat -> Fate) returns (ghost es: seq<Event>, ghost servings: seq<Serving>, ghost ended: bool)
      modifies this
      ensures Run(config, old(State(Idle)), es) == Some(State(Idle)) && forall e :: e in es ==> OfDrain(e)
      ensures if old(halted || exists i :: 0 <= i < |rows| && InDoubt(rows[i], now)) then es == [] && servings == []
              else
                && es != [] && es[0] == StartDrain
                && AllServed(config, servings, old(PendingIds(rows)), fates, ended)
                && (!ended ==> |servings| == |old(PendingIds(rows))|)
                && (servings != [] ==> servings[0].start == old(State(Draining(PendingIds(rows), DayTotal(rows, now)))))
                && (if ended then Ends(config, es[|es| - 1]) else Served(es) == |old(PendingIds(rows))|)
      ensures old(NonceIsAhead()) ==> NonceIsAhead()
    {
      hide Step, NonceAhead, Run;
      ghost var before := State(Idle);
      var starts, queue: seq<nat>, spent := StartPass();
      es, servings, ended := [], [], false;
      NothingRun(config, before);
      if !starts { return; }
      OneStep(config, before, StartDrain, State(Draining(queue, spent)));
      NoneServed([StartDrain]);
      var stopped;
      stopped, es, servings := ServeEach(queue, spent, fates);
      ended := stopped;
      RunsJoin(config, before, [StartDrain], before.(worker := Draining(queue, spent)), es);
      ServedJoins([StartDrain], es);
      es := [StartDrain] + es;
      if old(NonceIsAhead()) {
        RunKeepsNonceAhead(config, before, es);
      }
    }

    /** Redemption after redemption, to the first that ends the pass. */
    method ServeEach(due: seq<nat>, total: int, fates: nat -> Fate) returns (stopped: bool, ghost es: seq<Event>, ghost servings: seq<Serving>)
      requires forall k :: 0 <= k < |due| ==> due[k] < |rows|
      modifies this
      ensures Run(config, old(State(Draining(due, total))), es) == Some(State(Idle)) && forall e :: e in es ==> OfDrain(e)
      ensures AllServed(config, servings, due, fates, stopped) && (!stopped ==> |servings| == |due|)
      ensures servings != [] ==> servings[0].start == old(State(Draining(due, total)))
      ensures es != [] && if stopped then Ends(config, es[|es| - 1]) else Served(es) == |due|
    {
      hide Step, Run, ServedRight, AllServed, Served, Ends, OfDrain;
      ghost var before := State(Draining(due, total));
      var n, spent := 0, total;
      stopped, es, servings := false, [], [];
      NothingRun(config, before);
      NoneServed(es);
      NothingServed(config, due, fates);
      assert due[0..] == due;
      while n < |due| && !stopped
        invariant n <= |due| && n == |servings| && (stopped ==> es != [])
        invariant Run(config, before, es) == Some(State(if stopped then Idle else Draining(due[n..], spent)))
        invariant forall e :: e in es ==> OfDrain(e)
        invariant if stopped then Ends(config, es[|es| - 1]) else Served(es) == n
        invariant AllServed(config, servings, due, fates, stopped)
        invariant if n == 0 then State(Draining(due, total)) == before && spent == total && !stopped
                  else servings[0].start == before && servings[n - 1].after == State(if stopped then Idle else Draining(due[n..], spent))
        invariant forall k :: 0 <= k < |due| ==> due[k] < |rows|
        decreases |due| - n
      {
        ghost var here, v := State(Draining(due[n..], spent)), *;
        var goesOn;
        goesOn, spent, v := ServeNext(due[n..], spent, fates(due[n]));
        stopped := !goesOn;
        assert due[n..][1..] == due[n + 1..];
        RunsJoin(config, before, es, here, v.lead + v.es);
        ServedJoins(es, v.lead + v.es);
        OneMoreServed(config, servings, v, due, fates, stopped);
        es, servings, n := es + (v.lead + v.es), servings + [v], n + 1;
      }
      if !stopped {
        assert due[n..] == [];
        LastStep(Draining([], spent), EndPass);
        OneMore(config, before, es, State(Draining([], spent)), EndPass, State(Idle));
        EndIsOfDrain();
        ServedJoins(es, [EndPass]);
        es := es + [EndPass];
      }
    }

    /** One transaction: the withdrawal, at most one per redemption, and the status. */
    method Pay(i: nat, x: nat, ref: string)
      requires i < |rows| && x < |transfers|
      modifies this`rows, this`withdrawals, this`settlements
      ensures State(Idle) == PayIntent(old(State(Idle)), i, x, ref)
    {
      if i !in withdrawals {
        withdrawals := withdrawals[i := rows[i].quote];
      }
      rows := rows[i := rows[i].(status := Status.Paid, payoutRef := Some(ref))];
      settlements := settlements + [Settlement(i, x)];
    }

    /** Whether another redemption has this transaction for its payment, written as it is here. */
    method PaidByAnother(i: nat, hash: string) returns (taken: bool)
      ensures taken <==> exists j :: 0 <= j < |rows| && j != i && rows[j].payoutRef == Some(hash)
    {
      var j := 0;
      while j < |rows|
        invariant j <= |rows| && forall m :: 0 <= m < j && m != i ==> rows[m].payoutRef != Some(hash)
      {
        if j != i && rows[j].payoutRef == Some(hash) { return true; }
        j := j + 1;
      }
      return false;
    }

    /** What the relay names, or that it names nothing, or could not be asked. It counts only when the chain's own history
        shows it paying this redemption, and no other has it. */
    method TakePayment(i: nat, named: Option<string>) returns (paid: bool, ghost e: Event)
      requires Settling(State(Idle), i)
      modifies this`rows, this`withdrawals, this`settlements
      ensures paid <==> old(Shown(rows[i], transfers, named)) && forall j :: 0 <= j < |old(rows)| && j != i ==> old(rows)[j].payoutRef != named
      ensures paid ==> rows == old(rows)[i := old(rows[i]).(status := Status.Paid, payoutRef := named)]
      ensures paid ==> i in withdrawals && withdrawals == if i in old(withdrawals) then old(withdrawals) else old(withdrawals)[i := rows[i].quote]
      ensures !paid ==> State(Idle) == old(State(Idle))
      ensures paid ==> e.SettlePaid? && Step(config, old(State(Idle)), e) == Some(State(Idle))
    {
      paid, e := false, EndPass;
      if rows[i].traceId.Some? && named.Some? {
        var x := Find(transfers, rows[i], named.value);
        if x < |transfers| {
          assert Confirms(transfers[x], rows[i], named.value);
          var taken := PaidByAnother(i, named.value);
          if !taken {
            Pay(i, x, named.value);
            paid, e := true, SettlePaid(i, named.value);
          }
        }
      }
    }

    /** Past the deadline and the grace, the float's nonce says whether the permit can have run. `seen` is the nonce read. */
    method DecideByNonce(i: nat, seen: nat) returns (ghost e: Event)
      requires Settling(State(Idle), i) && now > rows[i].permitDeadline.value + DEADLINE_GRACE_SECS && ReadsNonce(State(Idle), seen)
      modifies this`rows
      ensures rows == old(rows)[i := Decided(old(rows[i]), seen)]
      ensures (e.SettleReturned? || e.SettleHandedOver?) && Step(config, old(State(Idle)), e) == Some(State(Idle))
    {
      if seen <= rows[i].permitNonce.value {
        e := SettleReturned(i, seen);
        rows := rows[i := rows[i].(status := Pending, traceId := None, permitNonce := None, permitDeadline := None)];
      } else {
        e := SettleHandedOver(i, seen);
        rows := rows[i := rows[i].(permitNonce := None)];
      }
    }

    /** Settles one permit, if it can be: by the transfer the relay names, or else, past the deadline and the grace, by
        the nonce, if that could be read. */
    method SettleRow(i: nat, named: Option<string>, seen: Option<nat>) returns (ghost es: seq<Event>)
      requires Settling(State(Idle), i) && (seen.Some? ==> ReadsNonce(State(Idle), seen.value))
      modifies this`rows, this`withdrawals, this`settlements
      ensures Run(config, old(State(Idle)), es) == Some(State(Idle))
      ensures var paid := old(Shown(rows[i], transfers, named)) && forall j :: 0 <= j < |old(rows)| && j != i ==> old(rows)[j].payoutRef != named;
              && rows == old(rows)[i := Settled(old(rows[i]), paid, named, now, seen)]
              && withdrawals == if paid && i !in old(withdrawals) then old(withdrawals)[i := rows[i].quote] else old(withdrawals)
      ensures forall e :: e in es ==> e.SettlePaid? || e.SettleReturned? || e.SettleHandedOver?
    {
      hide Step;
      ghost var before := State(Idle);
      var paid;
      ghost var e;
      paid, e := TakePayment(i, named);
      if !paid {
        if now <= rows[i].permitDeadline.value + DEADLINE_GRACE_SECS || seen.None? { return []; }
        e := DecideByNonce(i, seen.value);
      }
      OneStep(config, before, e, State(Idle));
      es := [e];
    }

    /** One pass over the permits. `named` is what the relay names and `nonces` the nonces read for the redemptions it
        comes to. A redemption whose reads or writes fail otherwise, one of `failing`, is left for the next pass. */
    method ConfirmGasFreeOnce(named: map<nat, string>, nonces: map<nat, nat>, failing: set<nat>) returns (ghost es: seq<Event>)
      requires forall i :: i in nonces ==> ReadsNonce(State(Idle), nonces[i])
      modifies this`rows, this`withdrawals, this`settlements
      ensures Run(config, old(State(Idle)), es) == Some(State(Idle)) && |rows| == |old(rows)|
      ensures forall e :: e in es ==> e.SettlePaid? || e.SettleReturned? || e.SettleHandedOver?
      // what is not a permit to settle, or fails, stays
      ensures forall i: nat :: i < |rows| && (i in failing || !old(Settling(State(Idle), i))) ==> rows[i] == old(rows[i])
      // every other is paid exactly when the chain shows what the relay names and no other redemption has it, and is
      // otherwise decided by the nonce when its time has come
      ensures forall i: nat :: old(Settling(State(Idle), i)) && i !in failing ==>
                rows[i] == Settled(old(rows[i]), PaysThis(old(rows), rows, transfers, i, Answer(named, i)), Answer(named, i), now, Answer(nonces, i))
      ensures forall i: nat :: i in withdrawals <==>
                i in old(withdrawals) || (old(Settling(State(Idle), i)) && i !in failing
                                          && PaysThis(old(rows), rows, transfers, i, Answer(named, i)))
    {
      hide Step, Run, Swept, PaysThis, Settled, Shown;
      ghost var before := State(Idle);
      es := [];
      NothingRun(config, before);
      var n := 0;
      NothingSwept(before, named, nonces, failing);
      while n < |rows|
        invariant n <= |rows| == |before.rows|
        invariant Run(config, before, es) == Some(State(Idle))
        invariant forall e :: e in es ==> e.SettlePaid? || e.SettleReturned? || e.SettleHandedOver?
        invariant Swept(before, rows, withdrawals, n, named, nonces, failing)
      {
        ghost var here, more := State(Idle), [];
        SweptSoFar(before, here, n, named, nonces, failing);
        if n !in failing && rows[n].status == Status.Submitted && rows[n].payoutRef == None
           && rows[n].permitNonce.Some? && rows[n].permitDeadline.Some? {
          more := SettleRow(n, Answer(named, n), Answer(nonces, n));
          RunsJoin(config, before, es, here, more);
          es := es + more;
        }
        OneMoreSwept(before, here, State(Idle), n, named, nonces, failing);
        n := n + 1;
      }
      SweptAll(before, rows, withdrawals, named, nonces, failing);
    }

    /** Records redemption `i` as paid when the chain shows the transfer it was sent moved value. */
    method ConfirmRow(i: nat) returns (paid: bool)
      requires i < |rows| && rows[i].status == Status.Submitted && rows[i].payoutRef.Some?
      modifies this`rows, this`withdrawals, this`settlements
      ensures paid <==> exists x :: 0 <= x < |transfers| && transfers[x].tx == old(rows[i].payoutRef).value
      ensures paid ==> Step(config, old(State(Idle)), ConfirmSent(i)) == Some(State(Idle))
      ensures rows == if paid then old(rows)[i := old(rows[i]).(status := Status.Paid)] else old(rows)
      ensures !paid ==> State(Idle) == old(State(Idle))
      ensures withdrawals == if paid && i !in old(withdrawals) then old(withdrawals)[i := rows[i].quote] else old(withdrawals)
    {
      var ref := rows[i].payoutRef.value;
      var x := FindTx(transfers, ref);
      paid := x < |transfers|;
      if paid {
        assert transfers[x].tx == ref;
        Pay(i, x, ref);
      }
    }

    /** One pass over what the signer sent: a transfer the chain shows to have moved value is recorded as paid, and
        every other redemption is left as it is. */
    method ConfirmPayoutsOnce(failing: set<nat>) returns (ghost es: seq<Event>)
      modifies this`rows, this`withdrawals, this`settlements
      ensures Run(config, old(State(Idle)), es) == Some(State(Idle)) && |rows| == |old(rows)|
      ensures forall e :: e in es ==> e.ConfirmSent?
      ensures forall i :: 0 <= i < |rows| ==> rows[i] == Confirmed(old(rows[i]), transfers, i in failing)
      // paid exactly when the transfer it was sent is on the chain, and booked as a withdrawal then
      ensures forall i: nat :: i < |rows| && old(rows[i].status) == Status.Submitted && old(rows[i].payoutRef).Some? && i !in failing ==>
                (rows[i].status == Status.Paid <==> exists x :: 0 <= x < |transfers| && transfers[x].tx == old(rows[i].payoutRef).value)
      ensures forall i: nat :: i < |rows| && rows[i].status == Status.Paid && rows[i] != old(rows[i]) ==> i in withdrawals
    {
      hide Step;
      ghost var before := State(Idle);
      es := [];
      var n := 0;
      while n < |rows|
        invariant n <= |rows| == |before.rows|
        invariant Run(config, before, es) == Some(State(Idle))
        invariant forall e :: e in es ==> e.ConfirmSent?
        invariant forall i :: n <= i < |rows| ==> rows[i] == before.rows[i]
        invariant forall i :: 0 <= i < n ==> rows[i] == Confirmed(before.rows[i], transfers, i in failing)
        invariant forall i: nat :: i < n && rows[i] != before.rows[i] ==> i in withdrawals
      {
        if n !in failing && rows[n].status == Status.Submitted && rows[n].payoutRef.Some? {
          ghost var here := State(Idle);
          var paid := ConfirmRow(n);
          if paid {
            OneMore(config, before, es, here, ConfirmSent(n), State(Idle));
            es := es + [ConfirmSent(n)];
          }
        }
        n := n + 1;
      }
    }
  }
}
