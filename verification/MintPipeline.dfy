/**
 The mint pipeline: an outbox that submits at least once, a chain that mints a `credit_ref` at most once, and a
 watcher that books what the chain did.

 Responses are lost, submissions time out and are queued again, people approve again, and the watcher stops and
 starts at any point. This module states the protocol as steps; `MintLedger`, `MintCap` and `MintRetries` prove
 what holds over every run of it.
 */
module MintPipeline {
  import opened Basics

  const MAX_ATTEMPTS := 10
  const SUBMITTED_TIMEOUT_SECS := 600
  const PARK_SECS := 3600
  const DAY_SECS := 86400

  // ----- the database ----------------------------------------------------------------------------

  datatype Status = Created | Approved | Submitted | Credited | Failed | Rejected | NeedsManual

  /** One mint. `credit_ref` is derived from the intent, so an intent's number stands for it. */
  datatype Intent = Intent(amount: int, depositBacked: bool, status: Status, createdAt: int, updatedAt: int)

  datatype OutStatus = Pending | Sent | Confirmed | Closed

  datatype OutRow = OutRow(status: OutStatus, attempts: nat, nextAttemptAt: int)

  /** A `mint_executed` event. */
  datatype Booking = Booking(intent: nat, amount: int)

  // ----- the chain -------------------------------------------------------------------------------

  datatype Tx = Mint(ref: nat, amount: int) | Other

  // ----- the two workers -------------------------------------------------------------------------

  /** A row as a pass selected it. */
  datatype Due = Due(id: nat, attempts: nat)

  datatype Worker =
    | Resting
    | Rescuing(queue: seq<Due>)
    | GivingUp(id: nat, queue: seq<Due>)
    | Draining(queue: seq<Due>)
    | Passed(head: Due, queue: seq<Due>)
    | Answered(head: Due, queue: seq<Due>)

  datatype Watcher = Asleep | Scanning(bound: nat, next: nat)

  datatype Scan = Range(from: nat, to: nat) | UpToDate | ChainShrank

  /** `blocks[k]` is the block of height `k + 1`. `peak` is the greatest height the chain has had, and `reached`
      what the node has been given to mint. The last four fields are history: how far the watcher ever got,
      which intents the breakers let through, and how many sends were recorded since the last approval. */
  datatype State = State(
    intents: seq<Intent>,
    outbox: map<nat, OutRow>,
    ledger: seq<Booking>,
    halted: bool,
    now: int,
    blocks: seq<seq<Tx>>,
    peak: nat,
    reached: set<Booking>,
    cursor: nat,
    watcher: Watcher,
    worker: Worker,
    high: nat,
    partial: nat,
    passed: set<nat>,
    sends: map<nat, nat>)

  datatype Config = Config(perTxCap: int, dailyCap: nat, confirmations: nat)

  const START := State([], map[], [], false, 0, [], 0, {}, 0, Asleep, Resting, 0, 0, {}, map[])

  datatype Event =
    // people, the verifier and the clock
    | Tick(to: int)
    | SetHalt(halt: bool)
    | Create(amount: int, depositBacked: bool)
    | VerifierApproves(id: nat, user: int, fee: int)
    | VerifierHolds(id: nat)
    | VerifierRejects(id: nat)
    | HumanApproves(id: nat)
    // the chain
    | Mine(block: seq<Tx>)
    | Reorg(height: nat)
    | Reset(chain: seq<seq<Tx>>)
    // the watcher; the node may answer with an older height than the chain has
    | Poll(head: nat)
    | WatchTx
    | FinishBlock
    | WatcherStops
    // one pass of the outbox
    | StartPass
    | Requeue
    | GiveUp
    | SelectDue
    | Park
    | HandOver
    | Backoff(reaches: bool)
    | Pass
    | NodeTakes
    | NodeSaysProcessed
    | Record
    | EndPass
    | WorkerStops

  // ----- rules -----------------------------------------------------------------------------------

  /** The three answers of the height comparison: heights from the cursor to what is confirmed. */
  function ProcessRange(cursor: nat, head: nat, confirmations: nat): (scan: Scan)
    ensures scan.ChainShrank? <==> cursor > head
    ensures scan.Range? <==> cursor + confirmations < head
    ensures scan.Range? ==> scan.from == cursor + 1 && scan.to + confirmations == head && scan.from <= scan.to
  {
    if cursor > head then ChainShrank
    else
      var bound := if head >= confirmations then head - confirmations else 0;
      if bound <= cursor then UpToDate else Range(cursor + 1, bound)
  }

  predicate Counts(s: Status) {
    s == Approved || s == Submitted || s == Credited
  }

  function Weight(i: Intent, now: int): int {
    if Counts(i.status) && i.createdAt > now - DAY_SECS then i.amount else 0
  }

  /** The rolling 24-hour mint total, of the first `n` intents but `except`. */
  function DayTotal(intents: seq<Intent>, n: nat, now: int, except: Option<nat>): int
    requires n <= |intents|
  {
    if n == 0 then 0
    else DayTotal(intents, n - 1, now, except) + (if except == Some(n - 1) then 0 else Weight(intents[n - 1], now))
  }

  /** The breakers that a mint's amount decides: halt, size and day. (The backing and reconciliation breakers
      only refuse more.) */
  predicate MayMint(c: Config, s: State, amount: int, except: Option<nat>) {
    && !s.halted && amount <= c.perTxCap
    && DayTotal(s.intents, |s.intents|, s.now, except) + amount <= c.dailyCap
  }

  function DueRows(s: State, n: nat): seq<Due> {
    if n == 0 then []
    else
      DueRows(s, n - 1)
      + (if n - 1 in s.outbox && s.outbox[n - 1].status == Pending && s.outbox[n - 1].nextAttemptAt <= s.now
         then [Due(n - 1, s.outbox[n - 1].attempts)] else [])
  }

  function StuckRows(s: State, n: nat): seq<Due>
    requires n <= |s.intents|
  {
    if n == 0 then []
    else
      StuckRows(s, n - 1)
      + (if n - 1 in s.outbox && s.outbox[n - 1].status == Sent && s.intents[n - 1].updatedAt < s.now - SUBMITTED_TIMEOUT_SECS
         then [Due(n - 1, s.outbox[n - 1].attempts)] else [])
  }

  /** 5 s doubled per attempt, at most ten minutes. */
  function BackoffSecs(attempts: nat): (secs: int)
    ensures attempts < 7 ==> secs == [5, 10, 20, 40, 80, 160, 320][attempts]
    ensures attempts >= 7 ==> secs == 600
  {
    DoubledGrows(7, Min(attempts, 20));
    Min(5 * Doubled(Min(attempts, 20)), 600)
  }

  function Doubled(n: nat): nat {
    if n == 0 then 1 else 2 * Doubled(n - 1)
  }

  lemma {:induction false} DoubledGrows(m: nat, n: nat)
    ensures Doubled(0) == 1 && Doubled(1) == 2 && Doubled(2) == 4 && Doubled(3) == 8 && Doubled(4) == 16
    ensures Doubled(5) == 32 && Doubled(6) == 64 && Doubled(7) == 128
    ensures m <= n ==> Doubled(m) <= Doubled(n)
  {
    assert Doubled(2) == 4 && Doubled(4) == 4 * Doubled(2) && Doubled(6) == 4 * Doubled(4);
    if m < n {
      DoubledGrows(m, n - 1);
    }
  }

  function MintsOf(txs: seq<Tx>): seq<Booking> {
    if txs == [] then []
    else
      var n := |txs| - 1;
      MintsOf(txs[..n]) + (if txs[n].Mint? then [Booking(txs[n].ref, txs[n].amount)] else [])
  }

  /** The mints of a chain, in order. */
  function ChainMints(blocks: seq<seq<Tx>>): seq<Booking> {
    if blocks == [] then [] else ChainMints(blocks[..|blocks| - 1]) + MintsOf(blocks[|blocks| - 1])
  }

  predicate Booked(ledger: seq<Booking>, id: nat) {
    exists a :: 0 <= a < |ledger| && ledger[a].intent == id
  }

  predicate OnceEach(ledger: seq<Booking>) {
    forall a, b :: 0 <= a < b < |ledger| ==> ledger[a].intent != ledger[b].intent
  }

  /** The chain mints only what was submitted to it, each reference once. */
  predicate ChainOk(blocks: seq<seq<Tx>>, reached: set<Booking>) {
    OnceEach(ChainMints(blocks)) && forall m :: m in ChainMints(blocks) ==> m in reached
  }

  function SetStatus(s: State, i: nat, status: Status): State
    requires i < |s.intents|
  {
    s.(intents := s.intents[i := s.intents[i].(status := status, updatedAt := s.now)])
  }

  function SetOut(s: State, i: nat, r: OutRow): State {
    s.(outbox := s.outbox[i := r])
  }

  // ----- one step --------------------------------------------------------------------------------

  function People(c: Config, s: State, e: Event): Option<State> {
    match e
    case Tick(t) => if t >= s.now then Some(s.(now := t)) else None
    case SetHalt(halt) => Some(s.(halted := halt))
    case Create(amount, depositBacked) =>
      if amount > 0 then Some(s.(intents := s.intents + [Intent(amount, depositBacked, Created, s.now, s.now)])) else None
    case VerifierApproves(i, user, fee) =>
      if i < |s.intents| && s.intents[i].status == Created && 0 < user && 0 <= fee && user + fee <= s.intents[i].amount then
        var n := |s.intents|;
        var approved := s.intents[i := s.intents[i].(amount := user, status := Approved, updatedAt := s.now)];
        var t := s.(intents := approved, outbox := s.outbox[i := OutRow(Pending, 0, s.now)], sends := s.sends[i := 0]);
        Some(if fee == 0 then t
             else t.(intents := approved + [Intent(fee, false, Approved, s.now, s.now)],
                     outbox := t.outbox[n := OutRow(Pending, 0, s.now)], sends := t.sends[n := 0]))
      else None
    case VerifierHolds(i) =>
      if i < |s.intents| && s.intents[i].status == Created then Some(SetStatus(s, i, NeedsManual)) else None
    case VerifierRejects(i) =>
      if i < |s.intents| && s.intents[i].status == Created then Some(SetStatus(s, i, Rejected)) else None
    case HumanApproves(i) =>
      if i < |s.intents| && (s.intents[i].status == Created || s.intents[i].status == NeedsManual)
         && MayMint(c, s, s.intents[i].amount, None) then
        Some(SetOut(SetStatus(s, i, Approved), i, OutRow(Pending, 0, s.now)).(sends := s.sends[i := 0]))
      else None
    case _ => None
  }

  function Chain(c: Config, s: State, e: Event): Option<State> {
    match e
    case Mine(block) =>
      var blocks := s.blocks + [block];
      if ChainOk(blocks, s.reached) then Some(s.(blocks := blocks, peak := Max(s.peak, |blocks|))) else None
    case Reorg(n) =>
      // Confirmed blocks stay.
      if n <= |s.blocks| && s.peak <= n + c.confirmations then Some(s.(blocks := s.blocks[..n])) else None
    case Reset(chain) =>
      if ChainOk(chain, s.reached) then Some(s.(blocks := chain, peak := |chain|)) else None
    case _ => None
  }

  /** Whether position `(b, k)` of the chain is past what the watcher has ever processed. */
  predicate Beyond(s: State, b: nat, k: nat) {
    b > s.high || (b == s.high && k >= s.partial)
  }

  /** What the watcher does with a confirmed mint of intent `m.ref`. */
  function Credit(s: State, m: Tx): State
    requires m.Mint?
  {
    var i := m.ref;
    if i >= |s.intents| || s.intents[i].status == Credited then s
    else
      s.(ledger := if Booked(s.ledger, i) then s.ledger else s.ledger + [Booking(i, s.intents[i].amount)],
         intents := if s.intents[i].status == Submitted || s.intents[i].status == Approved
                    then s.intents[i := s.intents[i].(status := Credited, updatedAt := s.now)] else s.intents,
         outbox := if i in s.outbox then s.outbox[i := s.outbox[i].(status := Confirmed)] else s.outbox)
  }

  function Watch(c: Config, s: State, e: Event): Option<State> {
    match e
    case Poll(head) =>
      if !s.watcher.Asleep? || head > |s.blocks| then None
      else
        var scan := ProcessRange(s.cursor, head, c.confirmations);
        Some(match scan
             case Range(_, to) => s.(watcher := Scanning(to, 0))
             case UpToDate => s
             case ChainShrank => s.(cursor := 0))
    case WatchTx =>
      if s.watcher.Scanning? && s.cursor < s.watcher.bound && s.cursor < |s.blocks| && s.watcher.next < |s.blocks[s.cursor]| then
        var k, tx := s.watcher.next, s.blocks[s.cursor][s.watcher.next];
        var t := if tx.Mint? then Credit(s, tx) else s;
        var w := Scanning(s.watcher.bound, k + 1);
        Some(if Beyond(s, s.cursor, k) then t.(watcher := w, high := s.cursor, partial := k + 1) else t.(watcher := w))
      else None
    case FinishBlock =>
      if s.watcher.Scanning? && s.cursor < s.watcher.bound && s.cursor < |s.blocks| && s.watcher.next == |s.blocks[s.cursor]| then
        var h := s.cursor + 1;
        var t := s.(cursor := h, watcher := if h == s.watcher.bound then Asleep else Scanning(s.watcher.bound, 0));
        Some(if h > s.high then t.(high := h, partial := 0) else t)
      else None
    case WatcherStops => Some(s.(watcher := Asleep))
    case _ => None
  }

  /** Before the due rows are selected: submissions never confirmed are queued again, or given up. */
  function Rescue(c: Config, s: State, e: Event): Option<State> {
    match e
    case StartPass => if s.worker.Resting? then Some(s.(worker := Rescuing(StuckRows(s, |s.intents|)))) else None
    case Requeue =>
      if s.worker.Rescuing? && s.worker.queue != [] && s.worker.queue[0].id in s.outbox then
        var d, rest := s.worker.queue[0], s.worker.queue[1..];
        var row := s.outbox[d.id];
        if d.attempts >= MAX_ATTEMPTS then
          Some(SetOut(s, d.id, row.(status := Closed)).(worker := GivingUp(d.id, rest)))
        else
          Some((if row.status == Sent then SetOut(s, d.id, OutRow(Pending, d.attempts + 1, s.now)) else s).(worker := Rescuing(rest)))
      else None
    case GiveUp =>
      if s.worker.GivingUp? && s.worker.id < |s.intents| then
        Some(SetStatus(s, s.worker.id, NeedsManual).(worker := Rescuing(s.worker.queue)))
      else None
    // An error while rescuing must not stop the drain.
    case SelectDue =>
      if s.worker.Rescuing? || s.worker.GivingUp? then Some(s.(worker := Draining(DueRows(s, |s.intents|)))) else None
    case _ => None
  }

  predicate AtRow(s: State) {
    s.worker.Draining? && s.worker.queue != [] && s.worker.queue[0].id < |s.intents| && s.worker.queue[0].id in s.outbox
  }

  /** The row the pass is at: the head of the queue, or the one the breakers have just let through. */
  predicate Working(s: State) {
    AtRow(s) || (s.worker.Passed? && s.worker.head.id < |s.intents| && s.worker.head.id in s.outbox)
  }

  function Current(s: State): Due
    requires Working(s)
  {
    if s.worker.Passed? then s.worker.head else s.worker.queue[0]
  }

  function Rest(s: State): seq<Due>
    requires Working(s)
  {
    if s.worker.Passed? then s.worker.queue else s.worker.queue[1..]
  }

  function Submit(c: Config, s: State, e: Event): Option<State> {
    match e
    // The node is behind, a deposit-backed mint is refused, or approval signatures are still missing.
    case Park =>
      if Working(s) then
        var i := Current(s).id;
        Some(SetOut(s, i, s.outbox[i].(nextAttemptAt := s.now + PARK_SECS)).(worker := Draining(Rest(s))))
      else None
    case HandOver =>
      if AtRow(s) && !s.halted && s.intents[Current(s).id].amount > c.perTxCap then
        var i := Current(s).id;
        var t := SetOut(s, i, s.outbox[i].(status := Closed));
        Some((if s.intents[i].status == Approved then SetStatus(t, i, NeedsManual) else t).(worker := Draining(Rest(s))))
      else None
    // Refused, or an error from the node, which may have taken the mint all the same.
    case Backoff(reaches) =>
      if Working(s) && (reaches ==> s.worker.Passed?) then
        var i, attempts := Current(s).id, Current(s).attempts + 1;
        var given := if reaches then s.reached + {Booking(i, s.intents[i].amount)} else s.reached;
        var t := s.(reached := given, worker := Draining(Rest(s)));
        Some(if attempts >= MAX_ATTEMPTS
             then SetOut(SetStatus(t, i, Failed), i, s.outbox[i].(status := Closed, attempts := attempts))
             else SetOut(t, i, s.outbox[i].(attempts := attempts, nextAttemptAt := s.now + BackoffSecs(attempts))))
      else None
    case Pass =>
      if AtRow(s) && MayMint(c, s, s.intents[Current(s).id].amount, Some(Current(s).id)) then
        Some(s.(worker := Passed(Current(s), Rest(s)), passed := s.passed + {Current(s).id}))
      else None
    case NodeTakes =>
      if s.worker.Passed? && Working(s) then
        Some(s.(worker := Answered(s.worker.head, s.worker.queue),
                reached := s.reached + {Booking(s.worker.head.id, s.intents[s.worker.head.id].amount)}))
      else None
    case NodeSaysProcessed =>
      if s.worker.Passed? && Working(s) then Some(s.(worker := Answered(s.worker.head, s.worker.queue))) else None
    case Record =>
      if s.worker.Answered? && s.worker.head.id < |s.intents| && s.worker.head.id in s.outbox then
        var i := s.worker.head.id;
        Some(SetOut(SetStatus(s, i, Submitted), i, s.outbox[i].(status := Sent))
               .(worker := Draining(s.worker.queue), sends := s.sends[i := (if i in s.sends then s.sends[i] else 0) + 1]))
      else None
    case EndPass => if s.worker.Draining? && s.worker.queue == [] then Some(s.(worker := Resting)) else None
    case WorkerStops => Some(s.(worker := Resting))
    case _ => None
  }

  /** One step, or `None` when the event cannot happen in `s`. */
  function Step(c: Config, s: State, e: Event): Option<State> {
    var people := People(c, s, e);
    if people.Some? then people else
    var chain := Chain(c, s, e);
    if chain.Some? then chain else
    var watch := Watch(c, s, e);
    if watch.Some? then watch else
    var rescue := Rescue(c, s, e);
    if rescue.Some? then rescue else Submit(c, s, e)
  }

  function Run(c: Config, s: State, events: seq<Event>): Option<State> {
    if events == [] then Some(s)
    else
      var before := Run(c, s, events[..|events| - 1]);
      if before == None then None else Step(c, before.value, events[|events| - 1])
  }

  /** One more step at the end of a run. */
  lemma OneMore(c: Config, s: State, events: seq<Event>, t: State, e: Event, u: State)
    requires Run(c, s, events) == Some(t) && Step(c, t, e) == Some(u)
    ensures Run(c, s, events + [e]) == Some(u)
  {
    assert (events + [e])[..|events|] == events;
  }

  lemma {:induction false} RunsJoin(c: Config, s: State, events: seq<Event>, t: State, more: seq<Event>)
    requires Run(c, s, events) == Some(t)
    ensures Run(c, s, events + more) == Run(c, t, more)
  {
    hide Step;
    if more == [] {
      assert events + more == events;
    } else {
      var n := |more| - 1;
      RunsJoin(c, s, events, t, more[..n]);
      assert (events + more)[..|events| + n] == events + more[..n];
    }
  }

  lemma MineSteps(c: Config, s: State, block: seq<Tx>)
    requires ChainOk(s.blocks + [block], s.reached)
    ensures Step(c, s, Mine(block)) == Some(s.(blocks := s.blocks + [block], peak := Max(s.peak, |s.blocks| + 1)))
  {
    hide ChainOk;
  }

  lemma PollSteps(c: Config, s: State, head: nat)
    requires s.watcher.Asleep? && head <= |s.blocks|
    ensures var scan := ProcessRange(s.cursor, head, c.confirmations);
            Step(c, s, Poll(head)) == Some(match scan
                                           case Range(_, to) => s.(watcher := Scanning(to, 0))
                                           case UpToDate => s
                                           case ChainShrank => s.(cursor := 0))
  {
  }

  lemma OneStep(c: Config, s: State, e: Event, t: State)
    requires Step(c, s, e) == Some(t)
    ensures Run(c, s, [e]) == Some(t)
  {
    OneMore(c, s, [], s, e, t);
    assert [] + [e] == [e];
  }

  lemma FourSteps(c: Config, s0: State, e0: Event, s1: State, e1: Event, s2: State, e2: Event, s3: State, e3: Event, s4: State)
    requires Step(c, s0, e0) == Some(s1) && Step(c, s1, e1) == Some(s2) && Step(c, s2, e2) == Some(s3) && Step(c, s3, e3) == Some(s4)
    ensures Run(c, s0, [e0, e1, e2, e3]) == Some(s4)
  {
    hide Step;
    OneStep(c, s0, e0, s1);
    OneMore(c, s0, [e0], s1, e1, s2);
    assert [e0] + [e1] == [e0, e1];
    OneMore(c, s0, [e0, e1], s2, e2, s3);
    assert [e0, e1] + [e2] == [e0, e1, e2];
    OneMore(c, s0, [e0, e1, e2], s3, e3, s4);
    assert [e0, e1, e2] + [e3] == [e0, e1, e2, e3];
  }

  /** Which part of a step an event belongs to. */
  predicate OfSubmit(e: Event) {
    || e.Park? || e.HandOver? || e.Backoff? || e.Pass? || e.NodeTakes? || e.NodeSaysProcessed? || e.Record? || e.EndPass?
    || e.WorkerStops?
  }

  lemma SubmitSteps(c: Config, s: State, e: Event)
    requires OfSubmit(e)
    ensures Step(c, s, e) == Submit(c, s, e)
  {
    hide Submit;
  }

  // ----- what every run keeps of the two tables --------------------------------------------------

  function Holding(w: Worker): seq<Due> {
    match w
    case Resting => []
    case Rescuing(q) => q
    case GivingUp(_, q) => q
    case Draining(q) => q
    case Passed(h, q) => [h] + q
    case Answered(h, q) => [h] + q
  }

  /** A row a pass holds is of an intent that counts; nobody else takes it out of the tables. */
  predicate HeldOk(s: State, d: Due) {
    && d.id < |s.intents| && d.id in s.outbox
    && Counts(s.intents[d.id].status)
    && s.outbox[d.id].attempts == d.attempts
    && d.attempts <= MAX_ATTEMPTS
  }

  predicate IntentOk(s: State, i: nat)
    requires i < |s.intents|
  {
    && s.intents[i].amount > 0
    && (s.intents[i].status == Created ==> i !in s.outbox && i !in s.passed)
    && (s.intents[i].status == Submitted || s.intents[i].status == Credited ==> i in s.passed)
    && (i in s.outbox && (s.outbox[i].status == Pending || s.outbox[i].status == Sent) ==> 
          Counts(s.intents[i].status) && s.outbox[i].attempts <= MAX_ATTEMPTS)
    && (s.intents[i].status == Credited ==> Booked(s.ledger, i))
  }

  ghost predicate IntentsOk(s: State) {
    && (forall i: nat :: i < |s.intents| ==> IntentOk(s, i))
    && (forall i :: i in s.outbox ==> i < |s.intents|)
    && (forall i :: i in s.passed ==> i < |s.intents|)
  }

  /** What the node was given is what the breakers let through, at its amount. */
  predicate GivenOk(s: State, m: Booking) {
    && m.intent < |s.intents| && m.intent in s.passed
    && s.intents[m.intent].status != Created && m.amount == s.intents[m.intent].amount
  }

  ghost predicate ReachedOk(s: State) {
    forall m :: m in s.reached ==> GivenOk(s, m)
  }

  ghost predicate QueueOk(s: State, q: seq<Due>) {
    && (forall k :: 0 <= k < |q| ==> HeldOk(s, q[k]))
    && (forall j, k :: 0 <= j < k < |q| ==> q[j].id != q[k].id)
  }

  predicate Absent(q: seq<Due>, i: nat) {
    forall k :: 0 <= k < |q| ==> q[k].id != i
  }

  ghost predicate WorkerOk(s: State) {
    && QueueOk(s, Holding(s.worker))
    && (s.worker.GivingUp? ==>
          && s.worker.id < |s.intents| && s.worker.id in s.outbox && Counts(s.intents[s.worker.id].status)
          && (s.outbox[s.worker.id].status == Closed || s.outbox[s.worker.id].status == Confirmed)
          && Absent(s.worker.queue, s.worker.id))
    && (s.worker.Passed? || s.worker.Answered? ==> s.worker.head.id in s.passed)
  }

  ghost predicate Good(s: State) {
    IntentsOk(s) && ReachedOk(s) && ChainOk(s.blocks, s.reached) && WorkerOk(s)
  }

  // ----- every step keeps it ---------------------------------------------------------------------

  /** Only intent `i` and its row move; the ledger may grow. */
  ghost predicate Touches(s: State, t: State, i: nat) {
    && i < |s.intents| == |t.intents| && s.ledger <= t.ledger
    && (forall j :: 0 <= j < |s.intents| && j != i ==> t.intents[j] == s.intents[j])
    && (forall j :: j != i ==> (j in t.outbox <==> j in s.outbox) && (j in s.outbox ==> t.outbox[j] == s.outbox[j]))
    && (forall j :: j != i ==> (j in t.passed <==> j in s.passed))
    && (i in s.passed ==> i in t.passed)
    && (s.intents[i].status != Created ==> t.intents[i].status != Created && t.intents[i].amount == s.intents[i].amount)
  }

  lemma BookedGrows(s: seq<Booking>, t: seq<Booking>, i: nat)
    requires s <= t && Booked(s, i)
    ensures Booked(t, i)
  {
    var a :| 0 <= a < |s| && s[a].intent == i;
    assert t[a] == s[a];
  }

  lemma TouchKeepsIntents(s: State, t: State, i: nat)
    requires IntentsOk(s) && Touches(s, t, i) && IntentOk(t, i)
    ensures IntentsOk(t)
  {
    forall j: nat | j < |t.intents| ensures IntentOk(t, j) {
      if j != i {
        assert IntentOk(s, j);
        if s.intents[j].status == Credited { BookedGrows(s.ledger, t.ledger, j); }
      }
    }
  }

  lemma TouchKeepsReached(s: State, t: State, i: nat)
    requires ReachedOk(s) && Touches(s, t, i) && t.reached == s.reached
    ensures ReachedOk(t)
  {
    forall m | m in t.reached ensures GivenOk(t, m) {
      assert GivenOk(s, m);
    }
  }

  lemma TouchKeepsQueue(s: State, t: State, i: nat, q: seq<Due>)
    requires QueueOk(s, q) && Touches(s, t, i) && (Absent(q, i) || (i in t.outbox && i in s.outbox
             && t.outbox[i].attempts == s.outbox[i].attempts && (Counts(s.intents[i].status) ==> Counts(t.intents[i].status))))
    ensures QueueOk(t, q)
  {
    forall k | 0 <= k < |q| ensures HeldOk(t, q[k]) {
      assert HeldOk(s, q[k]);
    }
  }

  lemma PeopleKeepsGood(c: Config, s: State, e: Event)
    requires Good(s) && People(c, s, e).Some? && !e.VerifierApproves? && !e.Create?
    ensures Good(People(c, s, e).value)
  {
    var t := People(c, s, e).value;
    if e.VerifierHolds? || e.VerifierRejects? || e.HumanApproves? {
      var i := e.id;
      assert IntentOk(s, i);
      assert Absent(Holding(s.worker), i) by {
        forall k | 0 <= k < |Holding(s.worker)| ensures Holding(s.worker)[k].id != i {
          assert HeldOk(s, Holding(s.worker)[k]);
        }
      }
      assert Touches(s, t, i);
      TouchKeepsIntents(s, t, i);
      TouchKeepsReached(s, t, i);
      TouchKeepsQueue(s, t, i, Holding(s.worker));
    } else {
      UntouchedKeepsGood(s, t);
    }
  }

  /** The tables as they are, seen at another time. */
  lemma UntouchedKeepsGood(s: State, t: State)
    requires Good(s) && t.intents == s.intents && t.outbox == s.outbox && t.passed == s.passed && t.ledger == s.ledger
    requires t.reached == s.reached && t.worker == s.worker && ChainOk(t.blocks, t.reached)
    ensures Good(t)
  {
    forall i: nat | i < |t.intents| ensures IntentOk(t, i) { assert IntentOk(s, i); }
    forall m | m in t.reached ensures GivenOk(t, m) { assert GivenOk(s, m); }
    forall k | 0 <= k < |Holding(t.worker)| ensures HeldOk(t, Holding(t.worker)[k]) { assert HeldOk(s, Holding(s.worker)[k]); }
  }

  /** Rows are added; the old ones stay as they are. */
  lemma AddedKeepsGood(s: State, t: State)
    requires Good(s) && |s.intents| <= |t.intents| && t.intents[..|s.intents|] == s.intents
    requires forall j :: j in s.outbox ==> j in t.outbox && t.outbox[j] == s.outbox[j]
    requires forall j :: j in t.outbox && j !in s.outbox ==> |s.intents| <= j < |t.intents|
    requires t.passed == s.passed && t.ledger == s.ledger && t.reached == s.reached && t.worker == s.worker && t.blocks == s.blocks
    requires forall i :: |s.intents| <= i < |t.intents| ==> IntentOk(t, i)
    ensures Good(t)
  {
    forall i: nat | i < |t.intents| ensures IntentOk(t, i) {
      if i < |s.intents| {
        assert IntentOk(s, i) && t.intents[..|s.intents|][i] == t.intents[i];
      }
    }
    forall m | m in t.reached ensures GivenOk(t, m) {
      assert GivenOk(s, m) && t.intents[..|s.intents|][m.intent] == t.intents[m.intent];
    }
    forall k | 0 <= k < |Holding(t.worker)| ensures HeldOk(t, Holding(t.worker)[k]) {
      var d := Holding(s.worker)[k];
      assert HeldOk(s, d) && t.intents[..|s.intents|][d.id] == t.intents[d.id];
    }
    if t.worker.GivingUp? {
      assert t.intents[..|s.intents|][s.worker.id] == t.intents[s.worker.id];
    }
  }

  lemma CreatedIsNotHeld(s: State, i: nat)
    requires Good(s) && i < |s.intents| && !Counts(s.intents[i].status)
    ensures Absent(Holding(s.worker), i)
  {
    forall k | 0 <= k < |Holding(s.worker)| ensures Holding(s.worker)[k].id != i {
      assert HeldOk(s, Holding(s.worker)[k]);
    }
  }

  function VerifierApproved(s: State, i: nat, user: int): State
    requires i < |s.intents|
  {
    s.(intents := s.intents[i := s.intents[i].(amount := user, status := Approved, updatedAt := s.now)],
       outbox := s.outbox[i := OutRow(Pending, 0, s.now)])
  }

  lemma ApprovalKeepsGood(s: State, i: nat, user: int)
    requires Good(s) && i < |s.intents| && s.intents[i].status == Created && user > 0
    ensures Good(VerifierApproved(s, i, user))
  {
    var u := VerifierApproved(s, i, user);
    assert IntentOk(s, i);
    CreatedIsNotHeld(s, i);
    TouchKeepsIntents(s, u, i);
    TouchKeepsReached(s, u, i);
    TouchKeepsQueue(s, u, i, Holding(s.worker));
  }

  lemma CreateKeepsGood(s: State, amount: int, depositBacked: bool)
    requires Good(s) && amount > 0
    ensures Good(s.(intents := s.intents + [Intent(amount, depositBacked, Created, s.now, s.now)]))
  {
    assert forall j :: j in s.passed ==> j < |s.intents|;
    AddedKeepsGood(s, s.(intents := s.intents + [Intent(amount, depositBacked, Created, s.now, s.now)]));
  }

  lemma FeeKeepsGood(s: State, fee: int, sends: map<nat, nat>)
    requires Good(s) && fee > 0
    ensures Good(s.(intents := s.intents + [Intent(fee, false, Approved, s.now, s.now)],
                    outbox := s.outbox[|s.intents| := OutRow(Pending, 0, s.now)], sends := sends))
  {
    assert forall j :: j in s.passed ==> j < |s.intents|;
    AddedKeepsGood(s, s.(intents := s.intents + [Intent(fee, false, Approved, s.now, s.now)],
                         outbox := s.outbox[|s.intents| := OutRow(Pending, 0, s.now)], sends := sends));
  }

  lemma AddingKeepsGood(c: Config, s: State, e: Event)
    requires Good(s) && People(c, s, e).Some? && (e.VerifierApproves? || e.Create?)
    ensures Good(People(c, s, e).value)
  {
    if e.Create? {
      CreateKeepsGood(s, e.amount, e.depositBacked);
    } else {
      ApprovalKeepsGood(s, e.id, e.user);
      var u, t := VerifierApproved(s, e.id, e.user), People(c, s, e).value;
      if e.fee == 0 {
        UntouchedKeepsGood(u, t);
      } else {
        FeeKeepsGood(u, e.fee, t.sends);
      }
    }
  }

  lemma {:induction false} ChainPrefix(blocks: seq<seq<Tx>>, n: nat)
    requires n <= |blocks|
    ensures ChainMints(blocks[..n]) <= ChainMints(blocks)
  {
    if n < |blocks| {
      ChainPrefix(blocks[..|blocks| - 1], n);
      assert blocks[..|blocks| - 1][..n] == blocks[..n];
    } else {
      assert blocks[..n] == blocks;
    }
  }

  lemma ChainKeepsGood(c: Config, s: State, e: Event)
    requires Good(s) && Chain(c, s, e).Some?
    ensures Good(Chain(c, s, e).value)
  {
    var t := Chain(c, s, e).value;
    if e.Reorg? {
      ChainPrefix(s.blocks, e.height);
      var all, kept := ChainMints(s.blocks), ChainMints(t.blocks);
      assert forall a :: 0 <= a < |kept| ==> kept[a] == all[a];
      assert forall m :: m in kept ==> m in all;
    }
    UntouchedKeepsGood(s, t);
  }

  /** A confirmed mint was given to the node, so its intent had been let through. */
  lemma ConfirmedWasPassed(s: State, b: nat, k: nat)
    requires Good(s) && b < |s.blocks| && k < |s.blocks[b]| && s.blocks[b][k].Mint?
    ensures GivenOk(s, Booking(s.blocks[b][k].ref, s.blocks[b][k].amount))
  {
    MintIsInChain(s.blocks, b, k);
  }

  lemma {:induction false} MintIsInBlock(txs: seq<Tx>, k: nat)
    requires k < |txs| && txs[k].Mint?
    ensures Booking(txs[k].ref, txs[k].amount) in MintsOf(txs)
  {
    if k < |txs| - 1 {
      MintIsInBlock(txs[..|txs| - 1], k);
    }
  }

  lemma {:induction false} MintIsInChain(blocks: seq<seq<Tx>>, b: nat, k: nat)
    requires b < |blocks| && k < |blocks[b]| && blocks[b][k].Mint?
    ensures Booking(blocks[b][k].ref, blocks[b][k].amount) in ChainMints(blocks)
  {
    if b < |blocks| - 1 {
      MintIsInChain(blocks[..|blocks| - 1], b, k);
    } else {
      MintIsInBlock(blocks[b], k);
    }
  }

  lemma CreditKeepsGood(s: State, m: Tx)
    requires Good(s) && m.Mint? && GivenOk(s, Booking(m.ref, m.amount))
    ensures Good(Credit(s, m))
  {
    var t, i := Credit(s, m), m.ref;
    assert IntentOk(s, i);
    if s.intents[i].status != Credited {
      assert Booked(t.ledger, i) by {
        if !Booked(s.ledger, i) { assert t.ledger[|s.ledger|].intent == i; }
      }
      TouchKeepsIntents(s, t, i);
      TouchKeepsReached(s, t, i);
      QueueWhenCredited(s, t, i, Holding(s.worker));
    }
  }

  lemma QueueWhenCredited(s: State, t: State, i: nat, q: seq<Due>)
    requires QueueOk(s, q) && Touches(s, t, i)
    requires i in s.outbox ==> i in t.outbox && t.outbox[i].attempts == s.outbox[i].attempts
    requires Counts(s.intents[i].status) ==> Counts(t.intents[i].status)
    ensures QueueOk(t, q)
  {
    forall k | 0 <= k < |q| ensures HeldOk(t, q[k]) {
      assert HeldOk(s, q[k]);
    }
  }

  lemma WatchTxKeepsGood(c: Config, s: State)
    requires Good(s) && Watch(c, s, WatchTx).Some?
    ensures Good(Watch(c, s, WatchTx).value)
  {
    var t, m := Watch(c, s, WatchTx).value, s.blocks[s.cursor][s.watcher.next];
    if m.Mint? {
      ConfirmedWasPassed(s, s.cursor, s.watcher.next);
      CreditKeepsGood(s, m);
      UntouchedKeepsGood(Credit(s, m), t);
    } else {
      UntouchedKeepsGood(s, t);
    }
  }

  lemma WatchKeepsGood(c: Config, s: State, e: Event)
    requires Good(s) && Watch(c, s, e).Some?
    ensures Good(Watch(c, s, e).value)
  {
    if e.WatchTx? {
      WatchTxKeepsGood(c, s);
    } else {
      UntouchedKeepsGood(s, Watch(c, s, e).value);
    }
  }

  lemma {:induction false} SelectedIsOk(s: State, n: nat)
    requires IntentsOk(s) && n <= |s.intents|
    ensures QueueOk(s, DueRows(s, n)) && forall k :: 0 <= k < |DueRows(s, n)| ==> DueRows(s, n)[k].id < n
  {
    if n > 0 {
      SelectedIsOk(s, n - 1);
      assert IntentOk(s, n - 1);
    }
  }

  lemma {:induction false} StuckIsOk(s: State, n: nat)
    requires IntentsOk(s) && n <= |s.intents|
    ensures QueueOk(s, StuckRows(s, n)) && forall k :: 0 <= k < |StuckRows(s, n)| ==> StuckRows(s, n)[k].id < n
  {
    if n > 0 {
      StuckIsOk(s, n - 1);
      assert IntentOk(s, n - 1);
    }
  }

  lemma RestIsOk(s: State, q: seq<Due>)
    requires QueueOk(s, q) && q != []
    ensures QueueOk(s, q[1..]) && HeldOk(s, q[0]) && Absent(q[1..], q[0].id)
  {
    forall k | 0 <= k < |q[1..]| ensures HeldOk(s, q[1..][k]) && q[1..][k].id != q[0].id {
      assert q[1..][k] == q[k + 1];
    }
  }

  lemma RescueKeepsGood(c: Config, s: State, e: Event)
    requires Good(s) && Rescue(c, s, e).Some?
    ensures Good(Rescue(c, s, e).value)
  {
    var t := Rescue(c, s, e).value;
    if e.StartPass? {
      StuckIsOk(s, |s.intents|);
      RestartKeepsGood(s, t.worker);
    } else if e.SelectDue? {
      SelectedIsOk(s, |s.intents|);
      RestartKeepsGood(s, t.worker);
    } else if e.GiveUp? {
      GiveUpKeepsGood(s);
    } else {
      RequeueKeepsGood(c, s);
    }
  }

  lemma RestartKeepsGood(s: State, w: Worker)
    requires Good(s) && QueueOk(s, Holding(w)) && !w.GivingUp? && !w.Passed? && !w.Answered?
    ensures Good(s.(worker := w))
  {
    var t := s.(worker := w);
    forall i: nat | i < |t.intents| ensures IntentOk(t, i) { assert IntentOk(s, i); }
    forall m | m in t.reached ensures GivenOk(t, m) { assert GivenOk(s, m); }
    forall k | 0 <= k < |Holding(w)| ensures HeldOk(t, Holding(w)[k]) { assert HeldOk(s, Holding(w)[k]); }
  }

  /** One row settled: its intent and its row move, and the pass goes on to the rest. */
  lemma TouchedRowKeepsGood(s: State, t: State, i: nat)
    requires Good(s) && Touches(s, t, i) && IntentOk(t, i) && t.reached == s.reached && t.blocks == s.blocks
    requires QueueOk(s, Holding(t.worker)) && Absent(Holding(t.worker), i)
    requires !t.worker.GivingUp? && !t.worker.Passed? && !t.worker.Answered?
    ensures Good(t)
  {
    TouchKeepsIntents(s, t, i);
    TouchKeepsReached(s, t, i);
    TouchKeepsQueue(s, t, i, Holding(t.worker));
  }

  lemma GiveUpKeepsGood(s: State)
    requires Good(s) && s.worker.GivingUp?
    ensures Good(SetStatus(s, s.worker.id, NeedsManual).(worker := Rescuing(s.worker.queue)))
  {
    assert IntentOk(s, s.worker.id);
    TouchedRowKeepsGood(s, SetStatus(s, s.worker.id, NeedsManual).(worker := Rescuing(s.worker.queue)), s.worker.id);
  }

  lemma RequeueKeepsGood(c: Config, s: State)
    requires Good(s) && Rescue(c, s, Requeue).Some?
    ensures Good(Rescue(c, s, Requeue).value)
  {
    var t := Rescue(c, s, Requeue).value;
    var i := s.worker.queue[0].id;
    RestIsOk(s, s.worker.queue);
    assert IntentOk(s, i);
    if s.worker.queue[0].attempts >= MAX_ATTEMPTS {
      TouchKeepsIntents(s, t, i);
      TouchKeepsReached(s, t, i);
      TouchKeepsQueue(s, t, i, s.worker.queue[1..]);
    } else {
      TouchedRowKeepsGood(s, t, i);
    }
  }

  lemma WorkingRow(s: State)
    requires Good(s) && Working(s)
    ensures var i := Current(s).id;
            && HeldOk(s, Current(s)) && QueueOk(s, Rest(s)) && Absent(Rest(s), i) && IntentOk(s, i)
            && (s.worker.Passed? ==> i in s.passed)
  {
    RestIsOk(s, Holding(s.worker));
    if s.worker.Passed? {
      assert Holding(s.worker)[1..] == s.worker.queue;
    }
    assert IntentOk(s, Current(s).id);
  }

  lemma ParkKeepsGood(c: Config, s: State, e: Event)
    requires Good(s) && Submit(c, s, e).Some? && (e.Park? || e.HandOver?)
    ensures Good(Submit(c, s, e).value)
  {
    WorkingRow(s);
    TouchedRowKeepsGood(s, Submit(c, s, e).value, Current(s).id);
  }

  /** The node is given a mint the breakers let through. */
  lemma GivenKeepsGood(s: State, i: nat)
    requires Good(s) && i < |s.intents| && i in s.passed
    ensures Good(s.(reached := s.reached + {Booking(i, s.intents[i].amount)}))
  {
    var t := s.(reached := s.reached + {Booking(i, s.intents[i].amount)});
    assert IntentOk(s, i);
    forall j: nat | j < |t.intents| ensures IntentOk(t, j) { assert IntentOk(s, j); }
    forall m | m in t.reached ensures GivenOk(t, m) { assert m in s.reached ==> GivenOk(s, m); }
    forall k | 0 <= k < |Holding(t.worker)| ensures HeldOk(t, Holding(t.worker)[k]) { assert HeldOk(s, Holding(s.worker)[k]); }
  }

  lemma BackoffKeepsGood(c: Config, s: State, e: Event)
    requires Good(s) && Submit(c, s, e).Some? && e.Backoff?
    ensures Good(Submit(c, s, e).value)
  {
    var t, i := Submit(c, s, e).value, Current(s).id;
    WorkingRow(s);
    var u := if e.reaches then s.(reached := s.reached + {Booking(i, s.intents[i].amount)}) else s;
    if e.reaches { GivenKeepsGood(s, i); }
    assert IntentOk(u, i) && QueueOk(u, Rest(s));
    TouchedRowKeepsGood(u, t, i);
  }

  lemma PassKeepsGood(c: Config, s: State)
    requires Good(s) && Submit(c, s, Pass).Some?
    ensures Good(Submit(c, s, Pass).value)
  {
    var t, i := Submit(c, s, Pass).value, Current(s).id;
    WorkingRow(s);
    assert Touches(s, t, i);
    TouchKeepsIntents(s, t, i);
    TouchKeepsReached(s, t, i);
    assert Holding(t.worker) == Holding(s.worker);
    QueueWhenCredited(s, t, i, Holding(s.worker));
  }

  lemma AnswerKeepsGood(c: Config, s: State, e: Event)
    requires Good(s) && Submit(c, s, e).Some? && (e.NodeTakes? || e.NodeSaysProcessed?)
    ensures Good(Submit(c, s, e).value)
  {
    var t, i := Submit(c, s, e).value, Current(s).id;
    WorkingRow(s);
    var u := if e.NodeTakes? then s.(reached := s.reached + {Booking(i, s.intents[i].amount)}) else s;
    if e.NodeTakes? { GivenKeepsGood(s, i); }
    forall j: nat | j < |t.intents| ensures IntentOk(t, j) { assert IntentOk(u, j); }
    forall m | m in t.reached ensures GivenOk(t, m) { assert GivenOk(u, m); }
    forall k | 0 <= k < |Holding(t.worker)| ensures HeldOk(t, Holding(t.worker)[k]) { assert HeldOk(u, Holding(u.worker)[k]); }
  }

  lemma RecordKeepsGood(c: Config, s: State)
    requires Good(s) && Submit(c, s, Record).Some?
    ensures Good(Submit(c, s, Record).value)
  {
    var t, i := Submit(c, s, Record).value, s.worker.head.id;
    RestIsOk(s, Holding(s.worker));
    assert Holding(s.worker)[1..] == s.worker.queue;
    assert IntentOk(s, i);
    TouchedRowKeepsGood(s, t, i);
  }

  lemma SubmitKeepsGood(c: Config, s: State, e: Event)
    requires Good(s) && Submit(c, s, e).Some?
    ensures Good(Submit(c, s, e).value)
  {
    match e {
      case Park => ParkKeepsGood(c, s, e);
      case HandOver => ParkKeepsGood(c, s, e);
      case Backoff(_) => BackoffKeepsGood(c, s, e);
      case Pass => PassKeepsGood(c, s);
      case NodeTakes => AnswerKeepsGood(c, s, e);
      case NodeSaysProcessed => AnswerKeepsGood(c, s, e);
      case Record => RecordKeepsGood(c, s);
      case _ => RestartKeepsGood(s, Resting);
    }
  }

  lemma StepKeepsGood(c: Config, s: State, e: Event)
    requires Good(s) && Step(c, s, e).Some?
    ensures Good(Step(c, s, e).value)
  {
    if People(c, s, e).Some? {
      if e.VerifierApproves? || e.Create? { AddingKeepsGood(c, s, e); } else { PeopleKeepsGood(c, s, e); }
    } else if Chain(c, s, e).Some? {
      ChainKeepsGood(c, s, e);
    } else if Watch(c, s, e).Some? {
      WatchKeepsGood(c, s, e);
    } else if Rescue(c, s, e).Some? {
      RescueKeepsGood(c, s, e);
    } else {
      SubmitKeepsGood(c, s, e);
    }
  }

  lemma {:induction false} RunKeepsGood(c: Config, s: State, events: seq<Event>)
    requires Good(s) && Run(c, s, events).Some?
    ensures Good(Run(c, s, events).value)
  {
    if events != [] {
      var n := |events| - 1;
      RunKeepsGood(c, s, events[..n]);
      StepKeepsGood(c, Run(c, s, events[..n]).value, events[n]);
    }
  }
}
