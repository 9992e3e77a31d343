/**
 The redemption payout protocol: a treasury database, a signer that may answer late or not at all, an untrusted
 relay, and a chain controller that runs a permit only at its exact nonce and before its deadline.

 Over every run of it no burn is paid twice.
 */
module Payouts {
  import opened Basics

  /** The signer refuses a longer permit. */
  const LONGEST_PERMIT_SECS := 600
  /** How long past a deadline the float's nonce is believed. */
  const DEADLINE_GRACE_SECS := 300
  const CLOCK_SKEW_SECS := 600
  const DAY_SECS := 86400

  // ----- the database ----------------------------------------------------------------------------

  datatype Status = Created | Pending | Submitted | Paid | Failed

  /** One redemption. Rows are numbered in the order they were created. */
  datatype Row = Row(
    to: string,
    amountClt: int,
    quote: int,
    status: Status,
    submittedAt: int,
    payoutRef: Option<string>,
    traceId: Option<nat>,
    permitNonce: Option<nat>,
    permitDeadline: Option<int>)

  // ----- the signer and the chain ----------------------------------------------------------------

  /** A permit the signer has signed for redemption `row`. `ran` is whether the controller ran it. */
  datatype Permit = Permit(row: nat, to: string, amount: int, nonce: nat, deadline: int, ran: bool)

  /** A confirmed transfer out of the float. `paysFor` is the redemption the signer sent it for, and `permit`
      the permit that carried it. */
  datatype Transfer = Transfer(tx: string, to: string, amount: int, at: int, paysFor: Option<nat>, permit: Option<nat>)

  /** Redemption `row` was recorded as paid by transfer number `transfer`. */
  datatype Settlement = Settlement(row: nat, transfer: nat)

  /** What the signer has done about the call the worker waits on. */
  datatype Act = NotYet | Signed(permit: nat) | Sent(tx: string)

  /** Where the one payout worker is. */
  datatype Worker =
    | Idle
    | Draining(queue: seq<nat>, dayTotal: int)
    | Waiting(row: nat, queue: seq<nat>, dayTotal: int, act: Act)

  /** `calls` holds the signer calls not acted on yet: `None` while the worker waits, otherwise when it
      gave up. A call given up may still be acted on. `hashes` are the transaction hashes used so far, and
      `settlements` the history of what was recorded as paid by what. */
  datatype State = State(
    rows: seq<Row>,
    withdrawals: map<nat, int>,
    halted: bool,
    now: int,
    nonce: nat,
    permits: seq<Permit>,
    transfers: seq<Transfer>,
    hashes: set<string>,
    calls: map<nat, Option<int>>,
    worker: Worker,
    settlements: seq<Settlement>)

  /** `gasfree`: payouts leave by GasFree permit rather than by a transfer the signer sends itself. */
  datatype Config = Config(gasfree: bool, cap: nat)

  const START := State([], map[], false, 0, 0, [], [], {}, map[], Idle, [])

  // ----- events ----------------------------------------------------------------------------------

  datatype Event =
    // the world around the treasury
    | Tick(to: int)
    | Request(payTo: string, amountClt: int, quote: int)
    | BurnConfirmed(row: nat)
    | BurnMismatched(row: nat)
    | SetHalt(halt: bool)
    | SignerSigns(row: nat, nonce: nat, deadline: int)
    | SignerSends(row: nat, tx: string, succeeds: bool)
    | RelayRuns(permit: nat, tx: string)
    | FloatSpends(payTo: string, amount: int, tx: string)
    // one drain pass
    | StartDrain
    | SkipOverCap
    | StopAtCap
    | SkipTaken
    | Claim
    | ClaimErrors(committed: bool)
    | ReplySubmitted(traceId: nat, recorded: bool)
    | ReplyRelayRefused(recorded: bool)
    | ReplyNotActive(recorded: bool)
    | ReplyUnsigned(recorded: bool)
    | ReplyPaid(recorded: bool)
    | ReplyAmbiguous(recorded: bool)
    | EndPass
    | Crash
    // settlement
    | SettlePaid(row: nat, hash: string)
    | SettleReturned(row: nat, seen: nat)
    | SettleHandedOver(row: nat, seen: nat)
    | ConfirmSent(row: nat)

  // ----- helper predicates and functions ---------------------------------------------------------

  /** Two spellings of one transaction hash. */
  predicate SameHash(a: string, b: string) {
    Lower(a) == Lower(b)
  }

  /** A permit may still run, or run unseen, for this row: nothing is signed meanwhile. */
  predicate InDoubt(r: Row, now: int) {
    r.status == Submitted && r.payoutRef == None
    && (r.permitNonce.Some? || (r.permitDeadline.Some? && r.permitDeadline.value > now))
  }

  function PendingIds(rows: seq<Row>): seq<nat> {
    if rows == [] then []
    else
      var n := |rows| - 1;
      PendingIds(rows[..n]) + (if rows[n].status == Pending then [n] else [])
  }

  /** What a row takes out of the rolling 24-hour budget. */
  function Weight(r: Row, now: int): int {
    if (r.status == Submitted || r.status == Paid) && r.submittedAt > now - DAY_SECS then r.amountClt else 0
  }

  function DayTotal(rows: seq<Row>, now: int): int {
    if rows == [] then 0
    else DayTotal(rows[..|rows| - 1], now) + Weight(rows[|rows| - 1], now)
  }

  /** Transfer `x` pays row `r`, as the chain's history shows it and the treasury looks it up. */
  predicate Confirms(t: Transfer, r: Row, hash: string) {
    && SameHash(t.tx, hash)
    && t.to == r.to
    && t.amount == r.quote
    && t.at >= r.submittedAt - CLOCK_SKEW_SECS
  }

  /** A nonce read made now: it may lag, but never behind a permit whose deadline and grace have passed. */
  predicate ReadsNonce(s: State, seen: nat) {
    && seen <= s.nonce
    && forall k :: 0 <= k < |s.permits| && s.permits[k].ran && s.permits[k].deadline + DEADLINE_GRACE_SECS < s.now
                   ==> s.permits[k].nonce < seen
  }

  predicate FreshTx(s: State, tx: string) {
    tx == Lower(tx) && tx !in s.hashes
  }

  /** The head of the queue passes both cap tests. */
  predicate Affordable(c: Config, s: State) {
    && s.worker.Draining? && s.worker.queue != [] && s.worker.queue[0] < |s.rows|
    && s.rows[s.worker.queue[0]].amountClt <= c.cap
    && s.worker.dayTotal + s.rows[s.worker.queue[0]].amountClt <= c.cap
  }

  predicate Settling(s: State, i: nat) {
    && s.worker.Idle? && i < |s.rows|
    && s.rows[i].status == Submitted && s.rows[i].payoutRef == None
    && s.rows[i].permitNonce.Some? && s.rows[i].permitDeadline.Some?
  }

  predicate WaitingOn(s: State) {
    s.worker.Waiting? && s.worker.row < |s.rows|
  }

  function SetRow(s: State, i: nat, r: Row): State
    requires i < |s.rows|
  {
    s.(rows := s.rows[i := r])
  }

  function Pop(w: Worker): Worker
    requires w.Draining? && w.queue != []
  {
    Draining(w.queue[1..], w.dayTotal)
  }

  function GiveUp(s: State, i: nat): State {
    if i in s.calls then s.(calls := s.calls[i := Some(s.now)]) else s
  }

  /** The first transfer that confirms row `r` under this hash; past the end when there is none. */
  function Find(ts: seq<Transfer>, r: Row, hash: string): (x: nat)
    ensures x <= |ts|
    ensures x < |ts| ==> Confirms(ts[x], r, hash)
    ensures x == |ts| ==> forall y :: 0 <= y < |ts| ==> !Confirms(ts[y], r, hash)
  {
    if ts == [] then 0
    else
      var n := |ts| - 1;
      var x := Find(ts[..n], r, hash);
      if x < n then x else if Confirms(ts[n], r, hash) then n else n + 1
  }

  /** The transaction of this hash among the transfers that moved value; past the end when there is none. */
  function FindTx(ts: seq<Transfer>, hash: string): (x: nat)
    ensures x <= |ts|
    ensures x < |ts| ==> ts[x].tx == hash
    ensures x == |ts| ==> forall y :: 0 <= y < |ts| ==> ts[y].tx != hash
  {
    if ts == [] then 0
    else
      var n := |ts| - 1;
      var x := FindTx(ts[..n], hash);
      if x < n then x else if ts[n].tx == hash then n else n + 1
  }

  /** One transaction: the ledger event (at most one per redemption) and the status, together. */
  function PayIntent(s: State, i: nat, x: nat, ref: string): State
    requires i < |s.rows| && x < |s.transfers|
  {
    s.(rows := s.rows[i := s.rows[i].(status := Paid, payoutRef := Some(ref))],
       withdrawals := if i in s.withdrawals then s.withdrawals else s.withdrawals[i := s.rows[i].quote],
       settlements := s.settlements + [Settlement(i, x)])
  }

  // ----- one step --------------------------------------------------------------------------------

  function Around(c: Config, s: State, e: Event): Option<State> {
    match e
    case Tick(t) => if t >= s.now then Some(s.(now := t)) else None
    case Request(payTo, amount, quote) =>
      if amount > 0 then
        Some(s.(rows := s.rows + [Row(payTo, amount, quote, Created, 0, None, None, None, None)]))
      else None
    case BurnConfirmed(i) =>
      if i < |s.rows| && s.rows[i].status == Created then Some(SetRow(s, i, s.rows[i].(status := Pending))) else None
    case BurnMismatched(i) =>
      if i < |s.rows| && s.rows[i].status == Created then Some(SetRow(s, i, s.rows[i].(status := Failed))) else None
    case SetHalt(halt) => Some(s.(halted := halt))
    case SignerSigns(i, nonce, deadline) =>
      if c.gasfree && i < |s.rows| && i in s.calls && nonce <= s.nonce && deadline <= s.now + LONGEST_PERMIT_SECS then
        var k := |s.permits|;
        Some(s.(permits := s.permits + [Permit(i, s.rows[i].to, s.rows[i].quote, nonce, deadline, false)],
                calls := s.calls - {i},
                worker := if s.worker.Waiting? && s.worker.row == i then Waiting(i, s.worker.queue, s.worker.dayTotal, Signed(k)) else s.worker))
      else None
    case SignerSends(i, tx, succeeds) =>
      if !c.gasfree && i < |s.rows| && i in s.calls && FreshTx(s, tx) then
        Some(s.(transfers := if succeeds
                             then s.transfers + [Transfer(tx, s.rows[i].to, s.rows[i].quote, s.now, Some(i), None)]
                             else s.transfers,
                hashes := s.hashes + {tx},
                calls := s.calls - {i},
                worker := if s.worker.Waiting? && s.worker.row == i then Waiting(i, s.worker.queue, s.worker.dayTotal, Sent(tx)) else s.worker))
      else None
    case RelayRuns(k, tx) =>
      if k < |s.permits| && !s.permits[k].ran && s.permits[k].nonce == s.nonce && s.now <= s.permits[k].deadline
         && FreshTx(s, tx) then
        var p := s.permits[k];
        Some(s.(permits := s.permits[k := p.(ran := true)],
                transfers := s.transfers + [Transfer(tx, p.to, p.amount, s.now, Some(p.row), Some(k))],
                hashes := s.hashes + {tx},
                nonce := s.nonce + 1))
      else None
    case FloatSpends(payTo, amount, tx) =>
      if FreshTx(s, tx) then
        Some(s.(transfers := s.transfers + [Transfer(tx, payTo, amount, s.now, None, None)],
                hashes := s.hashes + {tx}, nonce := s.nonce + 1))
      else None
    case _ => None
  }

  function Drain(c: Config, s: State, e: Event): Option<State> {
    match e
    case StartDrain =>
      if s.worker.Idle? && !s.halted && (forall i :: 0 <= i < |s.rows| ==> !InDoubt(s.rows[i], s.now)) then
        Some(s.(worker := Draining(PendingIds(s.rows), DayTotal(s.rows, s.now))))
      else None
    case SkipOverCap =>
      if s.worker.Draining? && s.worker.queue != [] && s.worker.queue[0] < |s.rows|
         && s.rows[s.worker.queue[0]].amountClt > c.cap then
        Some(s.(worker := Pop(s.worker)))
      else None
    case StopAtCap =>
      if s.worker.Draining? && s.worker.queue != [] && s.worker.queue[0] < |s.rows|
         && s.rows[s.worker.queue[0]].amountClt <= c.cap
         && s.worker.dayTotal + s.rows[s.worker.queue[0]].amountClt > c.cap then
        Some(s.(worker := Idle))
      else None
    case SkipTaken =>
      if Affordable(c, s) && s.rows[s.worker.queue[0]].status != Pending then Some(s.(worker := Pop(s.worker))) else None
    case Claim =>
      if Affordable(c, s) && s.rows[s.worker.queue[0]].status == Pending then
        var i := s.worker.queue[0];
        Some(SetRow(s, i, s.rows[i].(status := Submitted, submittedAt := s.now))
               .(calls := s.calls[i := None], worker := Waiting(i, s.worker.queue[1..], s.worker.dayTotal, NotYet)))
      else None
    case ClaimErrors(committed) =>
      if Affordable(c, s) then
        var i := s.worker.queue[0];
        var t := s.(worker := Pop(s.worker));
        Some(if committed && s.rows[i].status == Pending
             then SetRow(t, i, s.rows[i].(status := Submitted, submittedAt := s.now)) else t)
      else None
    case EndPass => if s.worker.Draining? && s.worker.queue == [] then Some(s.(worker := Idle)) else None
    case Crash => Some((if s.worker.Waiting? then GiveUp(s, s.worker.row) else s).(worker := Idle))
    case _ => None
  }

  function Reply(c: Config, s: State, e: Event): Option<State> {
    if !WaitingOn(s) then None else
    var i, r := s.worker.row, s.rows[s.worker.row];
    match e
    case ReplySubmitted(traceId, recorded) =>
      if s.worker.act.Signed? && s.worker.act.permit < |s.permits| then
        var p := s.permits[s.worker.act.permit];
        var t := s.(worker := Idle);
        Some(if recorded
             then SetRow(t, i, r.(traceId := Some(traceId), permitNonce := Some(p.nonce), permitDeadline := Some(p.deadline)))
             else t)
      else None
    case ReplyRelayRefused(recorded) =>
      if s.worker.act.Signed? && s.worker.act.permit < |s.permits| then
        var p := s.permits[s.worker.act.permit];
        var t := s.(worker := Idle);
        Some(if recorded
             then SetRow(t, i, r.(traceId := None, permitNonce := Some(p.nonce), permitDeadline := Some(p.deadline)))
             else t)
      else None
    case ReplyNotActive(recorded) =>
      if c.gasfree && s.worker.act.NotYet? then
        var t := s.(worker := Idle, calls := s.calls - {i});
        Some(if recorded && r.status == Submitted then SetRow(t, i, r.(status := Pending)) else t)
      else None
    case ReplyUnsigned(recorded) =>
      if s.worker.act.NotYet? then
        var t := s.(worker := Draining(s.worker.queue, s.worker.dayTotal), calls := s.calls - {i});
        Some(if recorded && r.status == Submitted then SetRow(t, i, r.(status := Pending)) else t)
      else None
    case ReplyPaid(recorded) =>
      if s.worker.act.Sent? then
        var t := s.(worker := Draining(s.worker.queue, s.worker.dayTotal + r.amountClt));
        Some(if recorded then SetRow(t, i, r.(payoutRef := Some(s.worker.act.tx))) else t)
      else None
    case ReplyAmbiguous(recorded) =>
      var t := GiveUp(s, i);
      if c.gasfree then
        var u := t.(worker := Idle);
        Some(if recorded
             then SetRow(u, i, r.(permitDeadline := Some(s.now + LONGEST_PERMIT_SECS + DEADLINE_GRACE_SECS)))
             else u)
      else
        Some(t.(worker := Draining(s.worker.queue, s.worker.dayTotal + r.amountClt)))
    case _ => None
  }

  function Settle(c: Config, s: State, e: Event): Option<State> {
    match e
    case SettlePaid(i, hash) =>
      if Settling(s, i) && s.rows[i].traceId.Some? && Find(s.transfers, s.rows[i], hash) < |s.transfers|
         && (forall j :: 0 <= j < |s.rows| && j != i ==> s.rows[j].payoutRef != Some(hash)) then
        Some(PayIntent(s, i, Find(s.transfers, s.rows[i], hash), hash))
      else None
    case SettleReturned(i, seen) =>
      if Settling(s, i) && s.now > s.rows[i].permitDeadline.value + DEADLINE_GRACE_SECS && ReadsNonce(s, seen)
         && seen <= s.rows[i].permitNonce.value then
        Some(SetRow(s, i, s.rows[i].(status := Pending, traceId := None, permitNonce := None, permitDeadline := None)))
      else None
    case SettleHandedOver(i, seen) =>
      if Settling(s, i) && s.now > s.rows[i].permitDeadline.value + DEADLINE_GRACE_SECS && ReadsNonce(s, seen)
         && seen > s.rows[i].permitNonce.value then
        Some(SetRow(s, i, s.rows[i].(permitNonce := None)))
      else None
    case ConfirmSent(i) =>
      if s.worker.Idle? && i < |s.rows| && s.rows[i].status == Submitted && s.rows[i].payoutRef.Some? then
        var x := FindTx(s.transfers, s.rows[i].payoutRef.value);
        if x < |s.transfers| then Some(PayIntent(s, i, x, s.rows[i].payoutRef.value)) else None
      else None
    case _ => None
  }

  /** One step, or `None` when the event cannot happen in `s`. */
  function Step(c: Config, s: State, e: Event): Option<State> {
    var around := Around(c, s, e);
    if around.Some? then around else
    var drain := Drain(c, s, e);
    if drain.Some? then drain else
    var reply := Reply(c, s, e);
    if reply.Some? then reply else Settle(c, s, e)
  }

  function Run(c: Config, s: State, events: seq<Event>): Option<State> {
    if events == [] then Some(s)
    else
      var before := Run(c, s, events[..|events| - 1]);
      if before == None then None else Step(c, before.value, events[|events| - 1])
  }

  /** One more step at the end of a run from any state. */
  lemma OneMore(c: Config, s: State, events: seq<Event>, t: State, e: Event, u: State)
    requires Run(c, s, events) == Some(t) && Step(c, t, e) == Some(u)
    ensures Run(c, s, events + [e]) == Some(u)
  {
    assert (events + [e])[..|events|] == events;
  }

  lemma OneStep(c: Config, s: State, e: Event, t: State)
    requires Step(c, s, e) == Some(t)
    ensures Run(c, s, [e]) == Some(t)
  {
    OneMore(c, s, [], s, e, t);
    assert [] + [e] == [e];
  }

  /** Passes one after another make one run. */
  lemma {:induction false} RunsJoin(c: Config, s: State, events: seq<Event>, t: State, more: seq<Event>)
    requires Run(c, s, events) == Some(t)
    ensures Run(c, s, events + more) == Run(c, t, more)
  {
    hide Step;
    if more == [] {
      assert events + more == events;
    } else {
      var n := |more| - 1;
      RunsJoin(c, s, events, t, more[..n]);
      assert (events + more)[..|events| + n] == events + more[..n];
    }
  }

  /** What a pass over one or two rows takes, and what they have spent. */
  lemma TwoRows(r: Row, q: Row, now: int)
    ensures DayTotal([r], now) == Weight(r, now) && DayTotal([r, q], now) == Weight(r, now) + Weight(q, now)
    ensures PendingIds([r, q]) == (if r.status == Pending then [0] else []) + (if q.status == Pending then [1] else [])
  {
    var one, two := [r], [r, q];
    assert two[..1] == one && one[..0] == [];
    assert DayTotal(one, now) == DayTotal(one[..0], now) + Weight(one[0], now);
    assert PendingIds(one) == PendingIds(one[..0]) + (if r.status == Pending then [0] else []);
  }

  /** Two redemptions of one amount to one address, their burns confirmed: where the example runs start. */
  function TwoDue(amount: int): seq<Event> {
    [Request("a", amount, amount), Request("a", amount, amount), BurnConfirmed(0), BurnConfirmed(1)]
  }

  function Due(amount: int): Row {
    Row("a", amount, amount, Pending, 0, None, None, None, None)
  }

  function Asked(amount: int): Row {
    Due(amount).(status := Created)
  }

  lemma TwoAsked(c: Config, amount: int)
    requires amount > 0
    ensures Run(c, START, TwoDue(amount)[..2]) == Some(START.(rows := [Asked(amount), Asked(amount)]))
  {
    var n, ask := Asked(amount), Request("a", amount, amount);
    assert [] + [n] == [n] && [n] + [n] == [n, n];
    OneMore(c, START, [], START, ask, START.(rows := [n]));
    OneMore(c, START, [] + [ask], START.(rows := [n]), ask, START.(rows := [n, n]));
    assert [] + [ask] + [ask] == TwoDue(amount)[..2];
  }

  lemma TwoDueRun(c: Config, amount: int)
    requires amount > 0
    ensures Run(c, START, TwoDue(amount)) == Some(START.(rows := [Due(amount), Due(amount)]))
  {
    var d, n, es := Due(amount), Asked(amount), TwoDue(amount)[..2];
    assert [n, n][0 := d] == [d, n] && [d, n][1 := d] == [d, d];
    TwoAsked(c, amount);
    OneMore(c, START, es, START.(rows := [n, n]), BurnConfirmed(0), START.(rows := [d, n]));
    OneMore(c, START, es + [BurnConfirmed(0)], START.(rows := [d, n]), BurnConfirmed(1), START.(rows := [d, d]));
    assert es + [BurnConfirmed(0)] + [BurnConfirmed(1)] == TwoDue(amount);
  }

  /** A pass over both. */
  lemma PassStarted(c: Config, amount: nat)
    requires amount > 0
    ensures Run(c, START, TwoDue(amount) + [StartDrain]) == Some(START.(rows := [Due(amount), Due(amount)], worker := Draining([0, 1], 0)))
  {
    var d := Due(amount);
    TwoDueRun(c, amount);
    TwoRows(d, d, 0);
    assert [0] + [1] == [0, 1];
    OneMore(c, START, TwoDue(amount), START.(rows := [d, d]), StartDrain, START.(rows := [d, d], worker := Draining([0, 1], 0)));
  }

  /** Waiting on the signer for the first. */
  lemma FirstClaimed(c: Config, amount: nat)
    requires 0 < amount <= c.cap
    ensures Run(c, START, TwoDue(amount) + [StartDrain] + [Claim])
            == Some(START.(rows := [Due(amount).(status := Submitted), Due(amount)], calls := map[0 := None],
                           worker := Waiting(0, [1], 0, NotYet)))
  {
    var es, d := TwoDue(amount), Due(amount);
    PassStarted(c, amount);
    assert [d, d][0 := d.(status := Submitted)] == [d.(status := Submitted), d] && [0, 1][1..] == [1];
    OneMore(c, START, es + [StartDrain], START.(rows := [d, d], worker := Draining([0, 1], 0)), Claim,
         START.(rows := [d.(status := Submitted), d], calls := map[0 := None], worker := Waiting(0, [1], 0, NotYet)));
  }

  // ----- what is known about one redemption's payments -------------------------------------------

  /** Not run, and past its deadline: it never will. */
  predicate Dead(p: Permit, now: int) {
    !p.ran && p.deadline < now
  }

  predicate Mine(permits: seq<Permit>, i: nat, k: nat) {
    k < |permits| && permits[k].row == i
  }

  /** Every permit of redemption `i`, other than number `j`, is dead. */
  ghost predicate AllDeadBut(permits: seq<Permit>, now: int, i: nat, j: int) {
    forall k: nat :: Mine(permits, i, k) && k != j ==> Dead(permits[k], now)
  }

  ghost predicate AllDead(permits: seq<Permit>, now: int, i: nat) {
    forall k: nat :: Mine(permits, i, k) ==> Dead(permits[k], now)
  }

  predicate Pays(transfers: seq<Transfer>, i: nat, x: nat) {
    x < |transfers| && transfers[x].paysFor == Some(i)
  }

  ghost predicate NoTransfer(transfers: seq<Transfer>, i: nat) {
    forall x: nat :: !Pays(transfers, i, x)
  }

  ghost predicate OneTransfer(transfers: seq<Transfer>, i: nat) {
    forall x: nat, y: nat :: Pays(transfers, i, x) && Pays(transfers, i, y) ==> x == y
  }

  /** The two permit columns of row `i` describe permit `k`, the only one that is not dead. */
  ghost predicate Recorded(permits: seq<Permit>, now: int, i: nat, r: Row, k: nat) {
    && Mine(permits, i, k)
    && r.permitNonce == Some(permits[k].nonce)
    && r.permitDeadline == Some(permits[k].deadline)
    && AllDeadBut(permits, now, i, k)
  }

  ghost predicate RowOk(i: nat, r: Row, called: bool, permits: seq<Permit>, transfers: seq<Transfer>, now: int) {
    && OneTransfer(transfers, i)
    && (r.status != Submitted && r.status != Paid ==>
          !called && AllDead(permits, now, i) && NoTransfer(transfers, i) && r.payoutRef == None)
    && (called ==> AllDead(permits, now, i) && NoTransfer(transfers, i) && r.permitNonce == None && r.payoutRef == None)
    && (exists j :: AllDeadBut(permits, now, i, j))
    && (r.permitNonce.Some? ==> exists k: nat :: Recorded(permits, now, i, r, k))
    && (r.permitNonce.Some? ==> r.status == Submitted || r.status == Paid)
  }

  /** Every transfer that pays a redemption was carried by its own permit, or sent on the TRX rail. */
  ghost predicate LinksOk(c: Config, permits: seq<Permit>, transfers: seq<Transfer>) {
    && (!c.gasfree ==> permits == [])
    && (forall x :: 0 <= x < |transfers| ==>
          match transfers[x].permit
          case Some(k) => k < |permits| && permits[k].ran && transfers[x].paysFor == Some(permits[k].row)
          case None => transfers[x].paysFor.Some? ==> !c.gasfree)
  }

  ghost predicate WorkerOk(s: State) {
    s.worker.Waiting? ==>
      var i := s.worker.row;
      && i < |s.rows| && s.rows[i].status == Submitted && s.rows[i].permitNonce == None && s.rows[i].payoutRef == None
      && match s.worker.act
         case NotYet => i in s.calls
         case Signed(k) => i !in s.calls && Mine(s.permits, i, k) && AllDeadBut(s.permits, s.now, i, k)
         case Sent(_) => i !in s.calls
  }

  ghost predicate Good(c: Config, s: State) {
    && (forall i :: i in s.calls ==> i < |s.rows|)
    && (forall k :: 0 <= k < |s.permits| ==> s.permits[k].row < |s.rows|)
    && (forall i :: 0 <= i < |s.rows| ==> RowOk(i, s.rows[i], i in s.calls, s.permits, s.transfers, s.now))
    && (forall x: nat :: x < |s.transfers| && s.transfers[x].paysFor.Some? ==> s.transfers[x].paysFor.value < |s.rows|)
    && LinksOk(c, s.permits, s.transfers)
    && WorkerOk(s)
  }

  // ----- every step keeps it ---------------------------------------------------------------------

  /** Rows that do not change keep what is known about them while only other rows, and time, move. */
  lemma OtherRows(c: Config, s: State, t: State, i: nat)
    requires Good(c, s) && t.permits == s.permits && t.transfers == s.transfers && s.now <= t.now
    requires |t.rows| == |s.rows|
    requires forall j :: 0 <= j < |s.rows| && j != i ==> t.rows[j] == s.rows[j] && (j in t.calls <==> j in s.calls)
    ensures forall j :: 0 <= j < |s.rows| && j != i ==> RowOk(j, t.rows[j], j in t.calls, t.permits, t.transfers, t.now)
  {
    forall j | 0 <= j < |s.rows| && j != i
      ensures RowOk(j, t.rows[j], j in t.calls, t.permits, t.transfers, t.now)
    {
      Later(j, s.rows[j], j in s.calls, s.permits, s.transfers, s.now, t.now);
    }
  }

  lemma Later(i: nat, r: Row, called: bool, permits: seq<Permit>, transfers: seq<Transfer>, now: int, later: int)
    requires RowOk(i, r, called, permits, transfers, now) && now <= later
    ensures RowOk(i, r, called, permits, transfers, later)
  {
    var j :| AllDeadBut(permits, now, i, j);
    assert AllDeadBut(permits, later, i, j);
    if r.permitNonce.Some? {
      var k: nat :| Recorded(permits, now, i, r, k);
      assert Recorded(permits, later, i, r, k);
    }
  }

  lemma TickKeeps(c: Config, s: State, e: Event)
    requires Good(c, s) && Around(c, s, e).Some? && (e.Tick? || e.SetHalt?)
    ensures Good(c, Around(c, s, e).value)
  {
    var t := Around(c, s, e).value;
    forall i | 0 <= i < |s.rows| ensures RowOk(i, t.rows[i], i in t.calls, t.permits, t.transfers, t.now) {
      Later(i, s.rows[i], i in s.calls, s.permits, s.transfers, s.now, t.now);
    }
  }

  lemma RequestKeeps(c: Config, s: State, e: Event)
    requires Good(c, s) && Around(c, s, e).Some? && e.Request?
    ensures Good(c, Around(c, s, e).value)
  {
    var t, i := Around(c, s, e).value, |s.rows|;
    assert AllDeadBut(t.permits, t.now, i, 0);
    assert NoTransfer(t.transfers, i);
    assert RowOk(i, t.rows[i], false, t.permits, t.transfers, t.now);
  }

  lemma BurnKeeps(c: Config, s: State, e: Event)
    requires Good(c, s) && Around(c, s, e).Some? && (e.BurnConfirmed? || e.BurnMismatched?)
    ensures Good(c, Around(c, s, e).value)
  {
    var t, i := Around(c, s, e).value, e.row;
    assert RowOk(i, s.rows[i], i in s.calls, s.permits, s.transfers, s.now);
    assert RowOk(i, t.rows[i], i in t.calls, t.permits, t.transfers, t.now);
    OtherRows(c, s, t, i);
  }

  /** A permit is signed for a call that had not been acted on. */
  lemma SignKeeps(c: Config, s: State, e: Event)
    requires Good(c, s) && e.SignerSigns? && Around(c, s, e).Some?
    ensures Good(c, Around(c, s, e).value)
  {
    var t := Around(c, s, e).value;
    var i, n := e.row, |s.permits|;
    assert RowOk(i, s.rows[i], true, s.permits, s.transfers, s.now);
    assert AllDeadBut(t.permits, t.now, i, n);
    assert RowOk(i, t.rows[i], false, t.permits, t.transfers, t.now);
    forall j | 0 <= j < |t.rows| && j != i ensures RowOk(j, t.rows[j], j in t.calls, t.permits, t.transfers, t.now) {
      assert RowOk(j, s.rows[j], j in s.calls, s.permits, s.transfers, s.now);
      forall k: nat | Mine(t.permits, j, k) ensures Mine(s.permits, j, k) && t.permits[k] == s.permits[k] {}
      var d :| AllDeadBut(s.permits, s.now, j, d);
      assert AllDeadBut(t.permits, t.now, j, d);
      if s.rows[j].permitNonce.Some? {
        var k: nat :| Recorded(s.permits, s.now, j, s.rows[j], k);
        assert Recorded(t.permits, t.now, j, t.rows[j], k);
      }
    }
    if s.worker.Waiting? && s.worker.row != i && s.worker.act.Signed? {
      assert forall k: nat :: Mine(t.permits, s.worker.row, k) ==> Mine(s.permits, s.worker.row, k);
    }
  }

  /** A transfer that pays no redemption. */
  lemma SpendKeeps(c: Config, s: State, e: Event)
    requires Good(c, s) && e.FloatSpends? && Around(c, s, e).Some?
    ensures Good(c, Around(c, s, e).value)
  {
    var t := Around(c, s, e).value;
    forall i | 0 <= i < |t.rows| ensures RowOk(i, t.rows[i], i in t.calls, t.permits, t.transfers, t.now) {
      assert RowOk(i, s.rows[i], i in s.calls, s.permits, s.transfers, s.now);
      assert forall x: nat :: Pays(t.transfers, i, x) ==> Pays(s.transfers, i, x);
    }
  }

  lemma SendKeepsRow(c: Config, s: State, e: Event, j: nat)
    requires Good(c, s) && e.SignerSends? && Around(c, s, e).Some? && j < |s.rows|
    ensures var t := Around(c, s, e).value; RowOk(j, t.rows[j], j in t.calls, t.permits, t.transfers, t.now)
  {
    var t := Around(c, s, e).value;
    assert RowOk(e.row, s.rows[e.row], true, s.permits, s.transfers, s.now);
    assert RowOk(j, s.rows[j], j in s.calls, s.permits, s.transfers, s.now);
    assert forall x: nat :: Pays(t.transfers, j, x) && x < |s.transfers| ==> Pays(s.transfers, j, x);
  }

  lemma SendKeeps(c: Config, s: State, e: Event)
    requires Good(c, s) && e.SignerSends? && Around(c, s, e).Some?
    ensures Good(c, Around(c, s, e).value)
  {
    hide RowOk;
    var t := Around(c, s, e).value;
    forall j | 0 <= j < |t.rows| ensures RowOk(j, t.rows[j], j in t.calls, t.permits, t.transfers, t.now) {
      SendKeepsRow(c, s, e, j);
    }
  }

  /** A permit runs: it was its redemption's only one that was not dead, and nothing had paid it. */
  lemma RelayKeeps(c: Config, s: State, e: Event)
    requires Good(c, s) && e.RelayRuns? && Around(c, s, e).Some?
    ensures Good(c, Around(c, s, e).value)
  {
    var t := Around(c, s, e).value;
    var k, i := e.permit, s.permits[e.permit].row;
    assert Mine(s.permits, i, k);
    NothingPaidYet(c, s, k);
    forall j | 0 <= j < |t.rows| ensures RowOk(j, t.rows[j], j in t.calls, t.permits, t.transfers, t.now) {
      RelayKeepsRow(c, s, e, j);
    }
    if s.worker.Waiting? && s.worker.act.Signed? {
      var w, d := s.worker.row, s.worker.act.permit;
      assert AllDeadBut(s.permits, s.now, w, d);
      assert Mine(t.permits, w, d);
      forall m: nat | Mine(t.permits, w, m) && m != d ensures Dead(t.permits[m], t.now) {
        assert Mine(s.permits, w, m);
      }
    }
  }

  lemma NothingPaidYet(c: Config, s: State, k: nat)
    requires Good(c, s) && k < |s.permits| && !s.permits[k].ran && s.now <= s.permits[k].deadline
    ensures NoTransfer(s.transfers, s.permits[k].row)
    ensures AllDeadBut(s.permits, s.now, s.permits[k].row, k)
    ensures s.permits[k].row !in s.calls
    ensures s.rows[s.permits[k].row].status in {Submitted, Paid}
  {
    var i := s.permits[k].row;
    assert Mine(s.permits, i, k) && !Dead(s.permits[k], s.now);
    assert RowOk(i, s.rows[i], i in s.calls, s.permits, s.transfers, s.now);
    var d :| AllDeadBut(s.permits, s.now, i, d);
    assert d == k;
    forall x: nat ensures !Pays(s.transfers, i, x) {
      if Pays(s.transfers, i, x) {
        var m := s.transfers[x].permit.value;
        assert Mine(s.permits, i, m);
      }
    }
  }

  lemma RelayKeepsRow(c: Config, s: State, e: Event, j: nat)
    requires Good(c, s) && e.RelayRuns? && Around(c, s, e).Some? && j < |s.rows|
    ensures var t := Around(c, s, e).value; RowOk(j, t.rows[j], j in t.calls, t.permits, t.transfers, t.now)
  {
    var t := Around(c, s, e).value;
    var k, i := e.permit, s.permits[e.permit].row;
    NothingPaidYet(c, s, k);
    assert RowOk(j, s.rows[j], j in s.calls, s.permits, s.transfers, s.now);
    assert forall m: nat :: Mine(t.permits, j, m) <==> Mine(s.permits, j, m);
    assert forall x: nat :: Pays(t.transfers, j, x) && x < |s.transfers| ==> Pays(s.transfers, j, x);
    if j == i {
      assert AllDeadBut(t.permits, t.now, i, k);
      if s.rows[i].permitNonce.Some? {
        var m: nat :| Recorded(s.permits, s.now, i, s.rows[i], m);
        assert Mine(s.permits, i, k);
        assert m == k;
        assert Recorded(t.permits, t.now, i, t.rows[i], k);
      }
    } else {
      assert forall x: nat :: Pays(t.transfers, j, x) ==> Pays(s.transfers, j, x);
      var d :| AllDeadBut(s.permits, s.now, j, d);
      assert AllDeadBut(t.permits, t.now, j, d);
      if s.rows[j].permitNonce.Some? {
        var m: nat :| Recorded(s.permits, s.now, j, s.rows[j], m);
        assert Recorded(t.permits, t.now, j, t.rows[j], m);
      }
    }
  }

  lemma ClaimKeeps(c: Config, s: State, e: Event)
    requires Good(c, s) && Drain(c, s, e).Some? && (e.Claim? || e.ClaimErrors?)
    ensures Good(c, Drain(c, s, e).value)
  {
    var t := Drain(c, s, e).value;
    var i := s.worker.queue[0];
    assert RowOk(i, s.rows[i], i in s.calls, s.permits, s.transfers, s.now);
    assert RowOk(i, t.rows[i], i in t.calls, t.permits, t.transfers, t.now);
    OtherRows(c, s, t, i);
  }

  lemma PassKeeps(c: Config, s: State, e: Event)
    requires Good(c, s) && Drain(c, s, e).Some? && !e.Claim? && !e.ClaimErrors?
    ensures Good(c, Drain(c, s, e).value)
  {
    OtherRows(c, s, Drain(c, s, e).value, |s.rows|);
  }

  lemma DrainKeeps(c: Config, s: State, e: Event)
    requires Good(c, s) && Drain(c, s, e).Some?
    ensures Good(c, Drain(c, s, e).value)
  {
    if e.Claim? || e.ClaimErrors? {
      ClaimKeeps(c, s, e);
    } else {
      PassKeeps(c, s, e);
    }
  }

  /** The signer's honest account of a permit it signed, recorded or lost. */
  lemma SignedReplyKeeps(c: Config, s: State, e: Event)
    requires Good(c, s) && (e.ReplySubmitted? || e.ReplyRelayRefused?) && Reply(c, s, e).Some?
    ensures Good(c, Reply(c, s, e).value)
  {
    var t := Reply(c, s, e).value;
    var i, k := s.worker.row, s.worker.act.permit;
    assert RowOk(i, s.rows[i], i in s.calls, s.permits, s.transfers, s.now);
    if t.rows[i].permitNonce.Some? {
      assert Recorded(t.permits, t.now, i, t.rows[i], k);
    }
    assert RowOk(i, t.rows[i], i in t.calls, t.permits, t.transfers, t.now);
    OtherRows(c, s, t, i);
  }

  lemma UnsignedReplyKeeps(c: Config, s: State, e: Event)
    requires Good(c, s) && (e.ReplyNotActive? || e.ReplyUnsigned?) && Reply(c, s, e).Some?
    ensures Good(c, Reply(c, s, e).value)
  {
    var t := Reply(c, s, e).value;
    var i := s.worker.row;
    assert RowOk(i, s.rows[i], true, s.permits, s.transfers, s.now);
    assert RowOk(i, t.rows[i], i in t.calls, t.permits, t.transfers, t.now);
    OtherRows(c, s, t, i);
  }

  lemma PaidReplyKeeps(c: Config, s: State, e: Event)
    requires Good(c, s) && e.ReplyPaid? && Reply(c, s, e).Some?
    ensures Good(c, Reply(c, s, e).value)
  {
    var t := Reply(c, s, e).value;
    var i := s.worker.row;
    assert RowOk(i, s.rows[i], i in s.calls, s.permits, s.transfers, s.now);
    assert RowOk(i, t.rows[i], i in t.calls, t.permits, t.transfers, t.now);
    OtherRows(c, s, t, i);
  }

  lemma UnclearReplyKeeps(c: Config, s: State, e: Event)
    requires Good(c, s) && e.ReplyAmbiguous? && Reply(c, s, e).Some?
    ensures Good(c, Reply(c, s, e).value)
  {
    var t := Reply(c, s, e).value;
    var i := s.worker.row;
    assert RowOk(i, s.rows[i], i in s.calls, s.permits, s.transfers, s.now);
    assert RowOk(i, t.rows[i], i in t.calls, t.permits, t.transfers, t.now);
    OtherRows(c, s, t, i);
  }

  lemma SettleKeeps(c: Config, s: State, e: Event)
    requires Good(c, s) && Settle(c, s, e).Some?
    ensures Good(c, Settle(c, s, e).value)
  {
    var t := Settle(c, s, e).value;
    var i := e.row;
    assert RowOk(i, s.rows[i], i in s.calls, s.permits, s.transfers, s.now);
    if e.SettleReturned? {
      ReturnedIsDead(c, s, i, e.seen);
    }
    if t.rows[i].permitNonce.Some? {
      var k: nat :| Recorded(s.permits, s.now, i, s.rows[i], k);
      assert Recorded(t.permits, t.now, i, t.rows[i], k);
    }
    assert RowOk(i, t.rows[i], i in t.calls, t.permits, t.transfers, t.now);
    OtherRows(c, s, t, i);
  }

  /** The one decision that pays a burn again: its permit has not run, and never will. */
  lemma ReturnedIsDead(c: Config, s: State, i: nat, seen: nat)
    requires Good(c, s) && Settling(s, i) && s.now > s.rows[i].permitDeadline.value + DEADLINE_GRACE_SECS
    requires ReadsNonce(s, seen) && seen <= s.rows[i].permitNonce.value
    ensures AllDead(s.permits, s.now, i) && NoTransfer(s.transfers, i) && i !in s.calls
  {
    assert RowOk(i, s.rows[i], i in s.calls, s.permits, s.transfers, s.now);
    var k: nat :| Recorded(s.permits, s.now, i, s.rows[i], k);
    assert Dead(s.permits[k], s.now);
    forall x: nat ensures !Pays(s.transfers, i, x) {
      if Pays(s.transfers, i, x) {
        assert Mine(s.permits, i, s.transfers[x].permit.value);
      }
    }
  }

  lemma AroundKeeps(c: Config, s: State, e: Event)
    requires Good(c, s) && Around(c, s, e).Some?
    ensures Good(c, Around(c, s, e).value)
  {
    if e.Tick? || e.SetHalt? {
      TickKeeps(c, s, e);
    } else if e.Request? {
      RequestKeeps(c, s, e);
    } else if e.BurnConfirmed? || e.BurnMismatched? {
      BurnKeeps(c, s, e);
    } else if e.SignerSigns? {
      SignKeeps(c, s, e);
    } else if e.SignerSends? {
      SendKeeps(c, s, e);
    } else if e.RelayRuns? {
      RelayKeeps(c, s, e);
    } else {
      SpendKeeps(c, s, e);
    }
  }

  lemma ReplyKeeps(c: Config, s: State, e: Event)
    requires Good(c, s) && Reply(c, s, e).Some?
    ensures Good(c, Reply(c, s, e).value)
  {
    if e.ReplySubmitted? || e.ReplyRelayRefused? {
      SignedReplyKeeps(c, s, e);
    } else if e.ReplyNotActive? || e.ReplyUnsigned? {
      UnsignedReplyKeeps(c, s, e);
    } else if e.ReplyPaid? {
      PaidReplyKeeps(c, s, e);
    } else {
      UnclearReplyKeeps(c, s, e);
    }
  }

  lemma StepKeepsGood(c: Config, s: State, e: Event)
    requires Good(c, s) && Step(c, s, e).Some?
    ensures Good(c, Step(c, s, e).value)
  {
    hide Around;
    hide Drain;
    hide Reply;
    hide Settle;
    if Around(c, s, e).Some? {
      AroundKeeps(c, s, e);
    } else if Drain(c, s, e).Some? {
      DrainKeeps(c, s, e);
    } else if Reply(c, s, e).Some? {
      ReplyKeeps(c, s, e);
    } else {
      SettleKeeps(c, s, e);
    }
  }

  lemma {:induction false} RunKeepsGood(c: Config, s: State, events: seq<Event>)
    requires Good(c, s) && Run(c, s, events).Some?
    ensures Good(c, Run(c, s, events).value)
  {
    if events != [] {
      var n := |events| - 1;
      RunKeepsGood(c, s, events[..n]);
      StepKeepsGood(c, Run(c, s, events[..n]).value, events[n]);
    }
  }

  // ----- no burn is paid twice -------------------------------------------------------------------

  lemma PaidOnce(c: Config, s: State, x: nat, y: nat)
    requires Good(c, s) && x < y < |s.transfers| && s.transfers[x].paysFor.Some?
    ensures s.transfers[x].paysFor != s.transfers[y].paysFor
  {
    var i := s.transfers[x].paysFor.value;
    assert RowOk(i, s.rows[i], i in s.calls, s.permits, s.transfers, s.now);
    assert Pays(s.transfers, i, x);
    assert Pays(s.transfers, i, y) ==> x == y;
  }

  /** Over every run, at most one transfer was ever sent for a redemption. */
  lemma NoBurnIsPaidTwice(c: Config, events: seq<Event>)
    requires Run(c, START, events).Some?
    ensures var s := Run(c, START, events).value;
            forall x: nat, y: nat :: x < y < |s.transfers| && s.transfers[x].paysFor.Some?
                                     ==> s.transfers[x].paysFor != s.transfers[y].paysFor
  {
    RunKeepsGood(c, START, events);
    var s := Run(c, START, events).value;
    forall x: nat, y: nat | x < y < |s.transfers| && s.transfers[x].paysFor.Some?
      ensures s.transfers[x].paysFor != s.transfers[y].paysFor
    {
      PaidOnce(c, s, x, y);
    }
  }

  /** Over every run, a redemption waiting to be paid has not been paid, and none of its permits can pay it
      in any continuation: each stays unrun for good. */
  lemma WaitingMeansUnpaidForGood(c: Config, events: seq<Event>, s: State, more: seq<Event>, i: nat, k: nat)
    requires Run(c, START, events) == Some(s) && Run(c, s, more).Some?
    requires i < |s.rows| && s.rows[i].status == Pending && Mine(s.permits, i, k)
    ensures NoTransfer(s.transfers, i)
    ensures k < |Run(c, s, more).value.permits| && !Run(c, s, more).value.permits[k].ran
  {
    RunKeepsGood(c, START, events);
    assert RowOk(i, s.rows[i], i in s.calls, s.permits, s.transfers, s.now);
    DeadForGood(c, s, more, k);
  }

  lemma AroundKeepsDead(c: Config, s: State, e: Event, k: nat)
    requires k < |s.permits| && Dead(s.permits[k], s.now) && Around(c, s, e).Some?
    ensures var t := Around(c, s, e).value; k < |t.permits| && Dead(t.permits[k], t.now)
  {
  }

  /** The worker signs nothing itself. */
  lemma WorkerLeavesPermits(c: Config, s: State, e: Event)
    requires Step(c, s, e).Some? && Around(c, s, e).None?
    ensures Step(c, s, e).value.permits == s.permits && Step(c, s, e).value.now == s.now
  {
    hide Around;
  }

  lemma StepKeepsDead(c: Config, s: State, e: Event, k: nat)
    requires k < |s.permits| && Dead(s.permits[k], s.now) && Step(c, s, e).Some?
    ensures var t := Step(c, s, e).value; k < |t.permits| && Dead(t.permits[k], t.now)
  {
    if Around(c, s, e).Some? {
      AroundKeepsDead(c, s, e, k);
    } else {
      WorkerLeavesPermits(c, s, e);
    }
  }

  lemma {:induction false} DeadForGood(c: Config, s: State, events: seq<Event>, k: nat)
    requires k < |s.permits| && Dead(s.permits[k], s.now) && Run(c, s, events).Some?
    ensures var t := Run(c, s, events).value; k < |t.permits| && Dead(t.permits[k], t.now)
  {
    if events != [] {
      var n := |events| - 1;
      DeadForGood(c, s, events[..n], k);
      StepKeepsDead(c, Run(c, s, events[..n]).value, events[n], k);
    }
  }
}
