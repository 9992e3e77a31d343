/**
 BEP-20 top-ups: block by block, every USDT leg is credited once to the right user or left once for a human.

 A pass may stop anywhere, and the range is then read again. One transaction can pay several addresses, or come
 from several senders, and its hash is the one key the credits have. What the watch does with a leg is settled
 the first time it meets it.
 */
module BscWatch {
  import opened Basics
  import opened BscUnits

  const MAX_RANGE := 500
  const INITIAL_LOOKBACK := 200
  const ADDRESSES_PER_QUERY := 100

  // ----- the chain -------------------------------------------------------------------------------

  datatype Transfer = Transfer(tx: string, from: string, to: string, value: nat)

  datatype Block = Block(seconds: int, transfers: seq<Transfer>)

  /** The confirmed blocks, the pay-in address and the token's decimals. */
  datatype Chain = Chain(blocks: seq<Block>, payIn: string, decimals: nat)

  /** What a transaction moved to one recipient: the pay-in address, or a user's own. */
  datatype Leg = PayIn(tx: string) | To(tx: string, address: string)

  predicate InBlock(b: Block, tx: string) {
    exists i :: 0 <= i < |b.transfers| && b.transfers[i].tx == tx
  }

  /** A transaction is in one block. */
  ghost predicate ChainOk(c: Chain) {
    forall i, j, tx :: 0 <= i < |c.blocks| && 0 <= j < |c.blocks| && InBlock(c.blocks[i], tx) && InBlock(c.blocks[j], tx) ==> i == j
  }

  function Recipient(c: Chain, leg: Leg): string {
    match leg case PayIn(_) => c.payIn case To(_, a) => a
  }

  /** The sum of a transaction's transfers to one address, saturating. */
  function Moved(ts: seq<Transfer>, tx: string, to: string): nat {
    if ts == [] then 0
    else
      var t := ts[|ts| - 1];
      var before := Moved(ts[..|ts| - 1], tx, to);
      if t.tx == tx && t.to == to then Min(before + t.value, U128_MAX) else before
  }

  /** Who sent them: the common sender, or nobody when there were several. */
  function Sender(ts: seq<Transfer>, tx: string, to: string): Option<string> {
    if ts == [] then None
    else
      var t := ts[|ts| - 1];
      var before := Sender(ts[..|ts| - 1], tx, to);
      if t.tx != tx || t.to != to then before
      else if before.None? then Some(t.from)
      else if before.value != t.from then Some("")
      else before
  }

  predicate Carries(ts: seq<Transfer>, i: int, tx: string, to: string) {
    0 <= i < |ts| && ts[i].tx == tx && ts[i].to == to
  }

  lemma CarriedBefore(ts: seq<Transfer>, tx: string, to: string)
    requires ts != []
    ensures forall i :: Carries(ts[..|ts| - 1], i, tx, to) ==> Carries(ts, i, tx, to) && ts[..|ts| - 1][i] == ts[i]
    ensures forall i :: Carries(ts, i, tx, to) && i < |ts| - 1 ==> Carries(ts[..|ts| - 1], i, tx, to)
  {
  }

  /** A leg has a sender exactly when every one of its transfers has that sender. */
  lemma {:induction false} SenderIsCommon(ts: seq<Transfer>, tx: string, to: string)
    requires forall i :: 0 <= i < |ts| ==> ts[i].from != ""
    ensures Sender(ts, tx, to).None? ==> forall i :: !Carries(ts, i, tx, to)
    ensures Sender(ts, tx, to).Some? ==> exists i :: Carries(ts, i, tx, to)
    ensures Sender(ts, tx, to).Some? && Sender(ts, tx, to).value != "" ==>
              forall i :: Carries(ts, i, tx, to) ==> ts[i].from == Sender(ts, tx, to).value
    ensures Sender(ts, tx, to) == Some("") ==>
              exists i, j :: Carries(ts, i, tx, to) && Carries(ts, j, tx, to) && ts[i].from != ts[j].from
  {
    if ts != [] {
      var n := |ts| - 1;
      CarriedBefore(ts, tx, to);
      SenderIsCommon(ts[..n], tx, to);
      var before := Sender(ts[..n], tx, to);
      if before.Some? {
        var i :| Carries(ts[..n], i, tx, to);
        assert Carries(ts, i, tx, to);
        if before.value == "" {
          var j, k :| Carries(ts[..n], j, tx, to) && Carries(ts[..n], k, tx, to) && ts[..n][j].from != ts[..n][k].from;
          assert Carries(ts, j, tx, to) && Carries(ts, k, tx, to) && ts[j].from != ts[k].from;
        }
      }
      if ts[n].tx == tx && ts[n].to == to {
        assert Carries(ts, n, tx, to);
      }
    }
  }

  /** What the leg comes to in micro-USDT; what does not fit counts as nothing. */
  function Amount(c: Chain, b: nat, leg: Leg): int
    requires b < |c.blocks|
  {
    var micro := ToMicro(Moved(c.blocks[b].transfers, leg.tx, Recipient(c, leg)), c.decimals);
    if micro.Some? then micro.value else 0
  }

  function From(c: Chain, b: nat, leg: Leg): string
    requires b < |c.blocks|
  {
    var s := Sender(c.blocks[b].transfers, leg.tx, Recipient(c, leg));
    if s.Some? then s.value else ""
  }

  // ----- the tables ------------------------------------------------------------------------------

  datatype Payer = Payer(user: string, since: int)

  /** A row of `deposit_intents`, under its transaction's hash. */
  datatype Deposit = Deposit(user: string, amount: int, leg: Leg)

  /** `unattributed` is keyed by the hash for the pay-in leg, and by hash and address for another. `met` is history: who had
      asked when a leg was recorded. */
  datatype Tables = Tables(
    deposits: map<string, Deposit>,
    unattributed: map<Leg, int>,
    payers: map<string, Payer>,
    owners: map<string, string>,
    met: map<Leg, map<string, Payer>>)

  predicate Credited(t: Tables, leg: Leg) {
    leg.tx in t.deposits && t.deposits[leg.tx].leg == leg
  }

  predicate Left(t: Tables, leg: Leg) {
    leg in t.unattributed
  }

  /** At least one micro-USDT, and not one of our own sweeps. */
  predicate Due(c: Chain, t: Tables, b: nat, leg: Leg)
    requires b < |c.blocks|
  {
    && InBlock(c.blocks[b], leg.tx) && Amount(c, b, leg) > 0
    && match leg
       case PayIn(_) => From(c, b, leg) != c.payIn && From(c, b, leg) !in t.owners
       case To(_, a) => a in t.owners
  }

  /** Who, of those that have asked, sent it after asking. */
  function Asked(c: Chain, payers: map<string, Payer>, b: nat, leg: Leg): Option<string>
    requires b < |c.blocks|
  {
    var f := From(c, b, leg);
    if f != "" && f in payers && c.blocks[b].seconds >= payers[f].since then Some(payers[f].user) else None
  }

  /** Whose it is: who asked before they sent it, or whose address it went to. */
  predicate Owed(c: Chain, t: Tables, b: nat, leg: Leg, user: string)
    requires b < |c.blocks|
  {
    match leg
    case PayIn(_) => Asked(c, t.payers, b, leg) == Some(user)
    case To(_, a) => a in t.owners && t.owners[a] == user
  }

  /** A deposit is one leg of one block, at its amount, credited to whom it is owed. */
  predicate DepositIs(c: Chain, t: Tables, b: nat, d: Deposit) {
    b < |c.blocks| && InBlock(c.blocks[b], d.leg.tx) && d.amount == Amount(c, b, d.leg) > 0 && Owed(c, t, b, d.leg, d.user)
  }

  predicate LeftIs(c: Chain, b: nat, leg: Leg, amount: int) {
    b < |c.blocks| && InBlock(c.blocks[b], leg.tx) && amount == Amount(c, b, leg) > 0
  }

  /** Nothing more will be done about this transaction's pay-in leg. */
  ghost predicate PayInIsSettled(c: Chain, t: Tables, tx: string) {
    Left(t, PayIn(tx)) || forall b: nat :: b < |c.blocks| ==> !Due(c, t, b, PayIn(tx))
  }

  ghost predicate DepositsOk(c: Chain, t: Tables) {
    forall h :: h in t.deposits ==> t.deposits[h].leg.tx == h && exists b: nat :: DepositIs(c, t, b, t.deposits[h])
  }

  ghost predicate LeftOk(c: Chain, t: Tables) {
    forall leg :: Left(t, leg) ==> exists b: nat :: LeftIs(c, b, leg, t.unattributed[leg])
  }

  ghost predicate Apart(t: Tables) {
    forall leg :: Left(t, leg) ==> !Credited(t, leg)
  }

  /** An address is credited only once the transaction's pay-in leg is settled, and left for a human only because
      the transaction is credited already. */
  ghost predicate InOrder(c: Chain, t: Tables) {
    && (forall h :: h in t.deposits && t.deposits[h].leg.To? ==> PayInIsSettled(c, t, h))
    && (forall leg :: Left(t, leg) && leg.To? ==> leg.tx in t.deposits)
  }

  ghost predicate Sound(c: Chain, t: Tables) {
    DepositsOk(c, t) && LeftOk(c, t) && Apart(t) && InOrder(c, t)
  }

  /** A pay-in leg was credited to the sender who had asked by then, or left because there was none. */
  ghost predicate MetOk(c: Chain, t: Tables) {
    forall leg: Leg, b: nat :: leg.PayIn? && Recorded(t, leg) && b < |c.blocks| && InBlock(c.blocks[b], leg.tx) ==> MetIs(c, t, b, leg)
  }

  ghost predicate MetIs(c: Chain, t: Tables, b: nat, leg: Leg)
    requires b < |c.blocks|
  {
    && leg in t.met && (forall a :: a in t.met[leg] ==> a in t.payers && t.payers[a] == t.met[leg][a])
    && (Credited(t, leg) ==> Asked(c, t.met[leg], b, leg) == Some(t.deposits[leg.tx].user))
    && (Left(t, leg) ==> Asked(c, t.met[leg], b, leg) == None)
  }

  /** Rows are added, and none is changed or removed. */
  ghost predicate Grows(t: Tables, u: Tables) {
    && (forall h :: h in t.deposits ==> h in u.deposits && u.deposits[h] == t.deposits[h])
    && (forall leg :: leg in t.unattributed ==> leg in u.unattributed && u.unattributed[leg] == t.unattributed[leg])
    && (forall a :: a in t.payers ==> a in u.payers && u.payers[a] == t.payers[a])
    && (forall a :: a in t.owners ==> a in u.owners && u.owners[a] == t.owners[a])
    && (forall leg :: leg in t.met ==> leg in u.met)
  }

  predicate Recorded(t: Tables, leg: Leg) {
    Credited(t, leg) || Left(t, leg)
  }

  // ----- what follows ----------------------------------------------------------------------------

  /** A leg left for a human is never credited later, and a credited one is never left for one, whatever is read
      again and however often. */
  lemma OnceSettledAlwaysSettled(c: Chain, t: Tables, u: Tables, leg: Leg)
    requires Sound(c, u) && Grows(t, u)
    ensures Left(t, leg) ==> Left(u, leg) && !Credited(u, leg) && u.unattributed[leg] == t.unattributed[leg]
    ensures Credited(t, leg) ==> Credited(u, leg) && !Left(u, leg) && u.deposits[leg.tx] == t.deposits[leg.tx]
  {
  }

  /** What is recorded of a leg is exactly its amount on the chain, in its own block, and goes to the one it is
      owed to. */
  lemma RecordedAsItIs(c: Chain, t: Tables, b: nat, leg: Leg)
    requires ChainOk(c) && Sound(c, t) && b < |c.blocks| && InBlock(c.blocks[b], leg.tx)
    ensures Credited(t, leg) ==> t.deposits[leg.tx].amount == Amount(c, b, leg) && Owed(c, t, b, leg, t.deposits[leg.tx].user)
    ensures Left(t, leg) ==> t.unattributed[leg] == Amount(c, b, leg)
  {
    if Credited(t, leg) {
      var d: nat :| DepositIs(c, t, d, t.deposits[leg.tx]);
      assert d == b;
    }
    if Left(t, leg) {
      var d: nat :| LeftIs(c, d, leg, t.unattributed[leg]);
      assert d == b;
    }
  }

  /** A pay-in leg that was not due is not due when more addresses are known. */
  lemma SettledStays(c: Chain, t: Tables, u: Tables, tx: string)
    requires Grows(t, u) && PayInIsSettled(c, t, tx)
    ensures PayInIsSettled(c, u, tx)
  {
    if !Left(t, PayIn(tx)) {
      forall b: nat | b < |c.blocks| ensures !Due(c, u, b, PayIn(tx)) {
        assert !Due(c, t, b, PayIn(tx));
      }
    }
  }

  lemma DepositsStay(c: Chain, t: Tables, u: Tables)
    requires DepositsOk(c, t) && Grows(t, u) && u.deposits == t.deposits
    ensures DepositsOk(c, u)
  {
    forall h | h in u.deposits ensures exists b: nat :: DepositIs(c, u, b, u.deposits[h]) {
      var b: nat :| DepositIs(c, t, b, t.deposits[h]);
      assert DepositIs(c, u, b, u.deposits[h]);
    }
  }

  lemma PayInsStay(c: Chain, t: Tables, u: Tables)
    requires InOrder(c, t) && Grows(t, u)
    requires forall h :: h in u.deposits && u.deposits[h].leg.To? ==> PayInIsSettled(c, t, h)
    ensures forall h :: h in u.deposits && u.deposits[h].leg.To? ==> PayInIsSettled(c, u, h)
  {
    forall h | h in u.deposits && u.deposits[h].leg.To? ensures PayInIsSettled(c, u, h) {
      SettledStays(c, t, u, h);
    }
  }

  /** New payers and new addresses change nothing that is recorded. */
  lemma AskingKeepsSound(c: Chain, t: Tables, u: Tables)
    requires Sound(c, t) && Grows(t, u) && u.deposits == t.deposits && u.unattributed == t.unattributed
    ensures Sound(c, u)
  {
    DepositsStay(c, t, u);
    PayInsStay(c, t, u);
    forall leg | Left(u, leg) ensures (exists b: nat :: LeftIs(c, b, leg, u.unattributed[leg])) && !Credited(u, leg) {
      assert Left(t, leg);
    }
    forall leg | Left(u, leg) && leg.To? ensures leg.tx in u.deposits { assert Left(t, leg); }
  }

  function LeftFor(c: Chain, t: Tables, b: nat, leg: Leg): Tables
    requires b < |c.blocks|
  {
    t.(unattributed := t.unattributed[leg := Amount(c, b, leg)], met := t.met[leg := t.payers])
  }

  lemma LeavingKeepsLeft(c: Chain, t: Tables, b: nat, leg: Leg)
    requires LeftOk(c, t) && Apart(t) && b < |c.blocks| && InBlock(c.blocks[b], leg.tx) && Amount(c, b, leg) > 0
    requires !Credited(t, leg)
    ensures LeftOk(c, LeftFor(c, t, b, leg)) && Apart(LeftFor(c, t, b, leg))
  {
    var u := LeftFor(c, t, b, leg);
    assert LeftIs(c, b, leg, u.unattributed[leg]);
    forall l | Left(u, l) ensures (exists d: nat :: LeftIs(c, d, l, u.unattributed[l])) && !Credited(u, l) {
      assert l != leg ==> Left(t, l);
    }
  }

  /** Leaving a leg for a human. */
  lemma LeavingKeepsSound(c: Chain, t: Tables, b: nat, leg: Leg)
    requires Sound(c, t) && b < |c.blocks| && InBlock(c.blocks[b], leg.tx) && Amount(c, b, leg) > 0 && !Left(t, leg)
    requires !Credited(t, leg) && (leg.To? ==> leg.tx in t.deposits)
    ensures Sound(c, LeftFor(c, t, b, leg)) && Grows(t, LeftFor(c, t, b, leg))
  {
    LeavingKeepsLeft(c, t, b, leg);
    DepositsStay(c, t, LeftFor(c, t, b, leg));
    LeavingKeepsOrder(c, t, b, leg);
  }

  lemma LeavingKeepsOrder(c: Chain, t: Tables, b: nat, leg: Leg)
    requires InOrder(c, t) && b < |c.blocks| && !Left(t, leg) && (leg.To? ==> leg.tx in t.deposits)
    ensures InOrder(c, LeftFor(c, t, b, leg))
  {
    var u := LeftFor(c, t, b, leg);
    PayInsStay(c, t, u);
    forall l | Left(u, l) && l.To? ensures l.tx in u.deposits {
      assert l != leg ==> Left(t, l);
    }
  }

  function CreditedTo(c: Chain, t: Tables, b: nat, leg: Leg, user: string): Tables
    requires b < |c.blocks|
  {
    t.(deposits := t.deposits[leg.tx := Deposit(user, Amount(c, b, leg), leg)], met := t.met[leg := t.payers])
  }

  lemma CreditedIsADeposit(c: Chain, t: Tables, b: nat, leg: Leg, user: string)
    requires DepositsOk(c, t) && b < |c.blocks| && InBlock(c.blocks[b], leg.tx) && Amount(c, b, leg) > 0
    requires leg.tx !in t.deposits && Owed(c, t, b, leg, user)
    ensures DepositsOk(c, CreditedTo(c, t, b, leg, user))
  {
    var u := CreditedTo(c, t, b, leg, user);
    assert DepositIs(c, u, b, u.deposits[leg.tx]);
    forall h | h in u.deposits && h != leg.tx ensures exists d: nat :: DepositIs(c, u, d, u.deposits[h]) {
      var d: nat :| DepositIs(c, t, d, t.deposits[h]);
      assert DepositIs(c, u, d, u.deposits[h]);
    }
  }

  lemma CreditingKeepsLeft(c: Chain, t: Tables, b: nat, leg: Leg, user: string)
    requires LeftOk(c, t) && Apart(t) && b < |c.blocks| && leg.tx !in t.deposits && !Left(t, leg)
    ensures LeftOk(c, CreditedTo(c, t, b, leg, user)) && Apart(CreditedTo(c, t, b, leg, user))
  {
    var u := CreditedTo(c, t, b, leg, user);
    forall l | Left(u, l) ensures (exists d: nat :: LeftIs(c, d, l, u.unattributed[l])) && !Credited(u, l) {
      assert Left(t, l);
    }
  }

  /** Crediting a leg of a transaction not credited yet. */
  lemma CreditingKeepsSound(c: Chain, t: Tables, b: nat, leg: Leg, user: string)
    requires Sound(c, t) && b < |c.blocks| && InBlock(c.blocks[b], leg.tx) && Amount(c, b, leg) > 0
    requires leg.tx !in t.deposits && !Left(t, leg) && Owed(c, t, b, leg, user)
    requires leg.To? ==> PayInIsSettled(c, t, leg.tx)
    ensures Sound(c, CreditedTo(c, t, b, leg, user)) && Grows(t, CreditedTo(c, t, b, leg, user))
  {
    CreditedIsADeposit(c, t, b, leg, user);
    CreditingKeepsLeft(c, t, b, leg, user);
    CreditingKeepsOrder(c, t, b, leg, user);
  }

  lemma CreditingKeepsOrder(c: Chain, t: Tables, b: nat, leg: Leg, user: string)
    requires InOrder(c, t) && b < |c.blocks| && leg.tx !in t.deposits && (leg.To? ==> PayInIsSettled(c, t, leg.tx))
    ensures InOrder(c, CreditedTo(c, t, b, leg, user))
  {
    var u := CreditedTo(c, t, b, leg, user);
    PayInsStay(c, t, u);
    forall l | Left(u, l) && l.To? ensures l.tx in u.deposits { assert Left(t, l); }
  }

  lemma Unchanged(t: Tables)
    ensures Grows(t, t)
  {
  }

  lemma GrowsOn(t: Tables, u: Tables, v: Tables)
    requires Grows(t, u) && Grows(u, v)
    ensures Grows(t, v)
  {
  }

  lemma NotRecorded(t: Tables, leg: Leg)
    requires leg.tx !in t.deposits && leg !in t.unattributed
    ensures !Recorded(t, leg)
  {
  }

  // ----- who had asked ---------------------------------------------------------------------------

  lemma MetStays(c: Chain, t: Tables, u: Tables)
    requires MetOk(c, t) && Grows(t, u) && u.deposits == t.deposits && u.unattributed == t.unattributed && u.met == t.met
    ensures MetOk(c, u)
  {
    forall leg | Recorded(u, leg) ensures Recorded(t, leg) {}
  }

  lemma LeavingKeepsMet(c: Chain, t: Tables, b: nat, leg: Leg)
    requires ChainOk(c) && MetOk(c, t) && b < |c.blocks| && InBlock(c.blocks[b], leg.tx) && !Recorded(t, leg)
    requires leg.PayIn? ==> Asked(c, t.payers, b, leg) == None
    ensures MetOk(c, LeftFor(c, t, b, leg))
  {
    hide Amount, InBlock, Asked;
    var u := LeftFor(c, t, b, leg);
    forall l: Leg, d: nat | l.PayIn? && Recorded(u, l) && d < |c.blocks| && InBlock(c.blocks[d], l.tx) ensures MetIs(c, u, d, l) {
      if l == leg {
        assert d == b;
      } else {
        assert Recorded(t, l) && MetIs(c, t, d, l);
      }
    }
  }

  lemma CreditingKeepsMet(c: Chain, t: Tables, b: nat, leg: Leg, user: string)
    requires ChainOk(c) && MetOk(c, t) && b < |c.blocks| && InBlock(c.blocks[b], leg.tx) && !Recorded(t, leg)
    requires leg.tx !in t.deposits && (leg.PayIn? ==> Asked(c, t.payers, b, leg) == Some(user))
    ensures MetOk(c, CreditedTo(c, t, b, leg, user))
  {
    hide Amount, InBlock, Asked;
    var u := CreditedTo(c, t, b, leg, user);
    forall l: Leg, d: nat | l.PayIn? && Recorded(u, l) && d < |c.blocks| && InBlock(c.blocks[d], l.tx) ensures MetIs(c, u, d, l) {
      if l == leg {
        assert d == b;
      } else {
        assert Recorded(t, l) && MetIs(c, t, d, l);
      }
    }
  }

  lemma GrowthKeepsMet(c: Chain, d: Chain, t: Tables)
    requires ChainOk(d) && Extends(c, d) && Sound(c, t) && MetOk(c, t)
    ensures MetOk(d, t)
  {
    forall leg: Leg, b: nat | leg.PayIn? && Recorded(t, leg) && 0 <= b < |d.blocks| && InBlock(d.blocks[b], leg.tx)
      ensures MetIs(d, t, b, leg)
    {
      var k := WhereItIs(c, t, leg);
      assert InBlock(d.blocks[k], leg.tx) && b == k;
      SameBlockSameLeg(c, d, t, b, leg);
      assert MetIs(c, t, b, leg);
    }
  }

  lemma WhereItIs(c: Chain, t: Tables, leg: Leg) returns (b: nat)
    requires Sound(c, t) && Recorded(t, leg)
    ensures b < |c.blocks| && InBlock(c.blocks[b], leg.tx)
  {
    if Left(t, leg) {
      b :| LeftIs(c, b, leg, t.unattributed[leg]);
    } else {
      b :| DepositIs(c, t, b, t.deposits[leg.tx]);
    }
  }

  /** Nothing is done for this leg: a read or a write it needs fails. The treasury's own sweeps need none. */
  predicate Trouble(c: Chain, owners: map<string, string>, b: nat, failing: set<Leg>, leg: Leg) {
    && b < |c.blocks| && leg in failing && Sender(c.blocks[b].transfers, leg.tx, Recipient(c, leg)).Some?
    && (leg.PayIn? ==> From(c, b, leg) !in owners)
  }

  predicate PayInFails(c: Chain, owners: map<string, string>, b: nat, failing: set<Leg>, tx: string) {
    Trouble(c, owners, b, failing, PayIn(tx))
  }

  predicate AddressFails(c: Chain, owners: map<string, string>, b: nat, failing: set<Leg>, tx: string, a: string) {
    Trouble(c, owners, b, failing, To(tx, a))
  }

  // ----- the pass --------------------------------------------------------------------------------

  datatype Payment = Payment(from: string, value: nat)

  /** Every pay-in leg of the block, but those still to come, is settled. */
  ghost predicate PayInsDone(c: Chain, t: Tables, b: nat, pending: set<string>)
    requires b < |c.blocks|
  {
    forall tx :: tx !in pending && Due(c, t, b, PayIn(tx)) ==> Recorded(t, PayIn(tx))
  }

  /** And every leg of the block to one of `addresses`. */
  ghost predicate AddressesDone(c: Chain, t: Tables, b: nat, addresses: set<string>, pending: set<Leg>)
    requires b < |c.blocks|
  {
    forall tx, a :: a in addresses && To(tx, a) !in pending && Due(c, t, b, To(tx, a)) ==> Recorded(t, To(tx, a))
  }

  lemma PayInsStayDone(c: Chain, t: Tables, u: Tables, b: nat, pending: set<string>)
    requires b < |c.blocks| && Grows(t, u) && PayInsDone(c, t, b, pending)
    ensures PayInsDone(c, u, b, pending)
  {
    forall tx | tx !in pending && Due(c, u, b, PayIn(tx)) ensures Recorded(u, PayIn(tx)) {
      assert Due(c, t, b, PayIn(tx));
    }
  }

  lemma AddressesStayDone(c: Chain, t: Tables, u: Tables, b: nat, addresses: set<string>, pending: set<Leg>)
    requires b < |c.blocks| && Grows(t, u) && AddressesDone(c, t, b, addresses, pending)
    requires forall a :: a in addresses ==> a in t.owners
    ensures AddressesDone(c, u, b, addresses, pending)
  {
    forall tx, a | a in addresses && To(tx, a) !in pending && Due(c, u, b, To(tx, a)) ensures Recorded(u, To(tx, a)) {
      assert Due(c, t, b, To(tx, a));
    }
  }

  lemma HandledIsDone(c: Chain, t: Tables, u: Tables, b: nat, pending: set<string>, tx: string)
    requires b < |c.blocks| && Grows(t, u) && PayInsDone(c, t, b, pending)
    requires Due(c, t, b, PayIn(tx)) ==> Recorded(u, PayIn(tx))
    ensures PayInsDone(c, u, b, pending - {tx})
  {
    forall x | x !in pending - {tx} && Due(c, u, b, PayIn(x)) ensures Recorded(u, PayIn(x)) {
      assert Due(c, t, b, PayIn(x));
    }
  }

  lemma CreditedIsDone(c: Chain, t: Tables, u: Tables, b: nat, addresses: set<string>, pending: set<Leg>, leg: Leg)
    requires b < |c.blocks| && Grows(t, u) && AddressesDone(c, t, b, addresses, pending)
    requires (forall a :: a in addresses ==> a in t.owners) && (Due(c, t, b, leg) ==> Recorded(u, leg))
    ensures AddressesDone(c, u, b, addresses, pending - {leg})
  {
    forall tx, a | a in addresses && To(tx, a) !in pending - {leg} && Due(c, u, b, To(tx, a)) ensures Recorded(u, To(tx, a)) {
      assert Due(c, t, b, To(tx, a));
    }
  }

  /** Every leg of a completed block, to the pay-in address or to an address known by then, is recorded. */
  ghost predicate Covered(c: Chain, t: Tables, listed: map<nat, set<string>>) {
    forall b: nat :: b in listed ==>
      && b < |c.blocks| && PayInsDone(c, t, b, {}) && AddressesDone(c, t, b, listed[b], {})
      && (forall a :: a in listed[b] ==> a in t.owners)
  }

  /** Every due leg of a completed block is either credited, to the one it is owed to, or left for a human, and
      not both; at exactly its amount. One to the pay-in address is credited exactly when its sender had asked by the time
      it was met and before it was sent; one to a user's address is left only if another leg of its transaction is
      credited. */
  lemma EveryLegOnce(c: Chain, t: Tables, listed: map<nat, set<string>>, b: nat, leg: Leg)
    requires ChainOk(c) && Sound(c, t) && MetOk(c, t) && Covered(c, t, listed) && b in listed && Due(c, t, b, leg)
    requires leg.To? ==> leg.address in listed[b]
    ensures Credited(t, leg) != Left(t, leg)
    ensures Credited(t, leg) ==> t.deposits[leg.tx].amount == Amount(c, b, leg) && Owed(c, t, b, leg, t.deposits[leg.tx].user)
    ensures Left(t, leg) ==> t.unattributed[leg] == Amount(c, b, leg)
    ensures leg.PayIn? ==>
              && leg in t.met && (forall a :: a in t.met[leg] ==> a in t.payers && t.payers[a] == t.met[leg][a])
              && (Credited(t, leg) <==>
                    var f := From(c, b, leg);
                    f != "" && f in t.met[leg] && c.blocks[b].seconds >= t.met[leg][f].since)
    ensures leg.To? ==> (Left(t, leg) <==> leg.tx in t.deposits && t.deposits[leg.tx].leg != leg)
  {
    assert PayInsDone(c, t, b, {}) && AddressesDone(c, t, b, listed[b], {});
    match leg {
      case PayIn(tx) => assert Recorded(t, PayIn(tx)) && MetIs(c, t, b, leg);
      case To(tx, a) => assert Recorded(t, To(tx, a));
    }
    RecordedAsItIs(c, t, b, leg);
  }

  lemma CoverStays(c: Chain, t: Tables, u: Tables, listed: map<nat, set<string>>)
    requires Covered(c, t, listed) && Grows(t, u)
    ensures Covered(c, u, listed)
  {
    forall b: nat | b in listed ensures PayInsDone(c, u, b, {}) && AddressesDone(c, u, b, listed[b], {}) {
      PayInsStayDone(c, t, u, b, {});
      AddressesStayDone(c, t, u, b, listed[b], {});
    }
  }

  lemma SameBlockSameLeg(c: Chain, d: Chain, t: Tables, b: nat, leg: Leg)
    requires b < |c.blocks| && b < |d.blocks| && c.blocks[b] == d.blocks[b] && c.payIn == d.payIn && c.decimals == d.decimals
    ensures Amount(c, b, leg) == Amount(d, b, leg) && From(c, b, leg) == From(d, b, leg)
    ensures Due(c, t, b, leg) == Due(d, t, b, leg)
    ensures forall payers :: Asked(c, payers, b, leg) == Asked(d, payers, b, leg)
    ensures forall user :: Owed(c, t, b, leg, user) == Owed(d, t, b, leg, user)
  {
  }

  ghost predicate Extends(c: Chain, d: Chain) {
    && c.payIn == d.payIn && c.decimals == d.decimals && |c.blocks| <= |d.blocks|
    && forall b :: 0 <= b < |c.blocks| ==> d.blocks[b] == c.blocks[b]
  }

  /** A longer chain changes nothing that is recorded. */
  lemma GrowthKeepsSound(c: Chain, d: Chain, t: Tables)
    requires ChainOk(d) && Extends(c, d) && Sound(c, t)
    ensures Sound(d, t)
  {
    forall h | h in t.deposits ensures exists b: nat :: DepositIs(d, t, b, t.deposits[h]) {
      var b: nat :| DepositIs(c, t, b, t.deposits[h]);
      SameBlockSameLeg(c, d, t, b, t.deposits[h].leg);
      assert DepositIs(d, t, b, t.deposits[h]);
    }
    forall leg | Left(t, leg) ensures exists b: nat :: LeftIs(d, b, leg, t.unattributed[leg]) {
      var b: nat :| LeftIs(c, b, leg, t.unattributed[leg]);
      SameBlockSameLeg(c, d, t, b, leg);
      assert LeftIs(d, b, leg, t.unattributed[leg]);
    }
    forall h | h in t.deposits && t.deposits[h].leg.To? ensures PayInIsSettled(d, t, h) {
      GrowthKeepsSettled(c, d, t, h);
    }
  }

  lemma GrowthKeepsSettled(c: Chain, d: Chain, t: Tables, h: string)
    requires ChainOk(d) && Extends(c, d) && DepositsOk(c, t) && h in t.deposits && PayInIsSettled(c, t, h)
    ensures PayInIsSettled(d, t, h)
  {
    var k: nat :| DepositIs(c, t, k, t.deposits[h]);
    if !Left(t, PayIn(h)) {
      forall b: nat | b < |d.blocks| ensures !Due(d, t, b, PayIn(h)) {
        if b < |c.blocks| {
          SameBlockSameLeg(c, d, t, b, PayIn(h));
          assert !Due(c, t, b, PayIn(h));
        } else {
          assert InBlock(d.blocks[k], h) && k != b;
        }
      }
    }
  }

  lemma GrowthKeepsCover(c: Chain, d: Chain, t: Tables, listed: map<nat, set<string>>)
    requires Extends(c, d) && Covered(c, t, listed)
    ensures Covered(d, t, listed)
  {
    forall b: nat | b in listed ensures PayInsDone(d, t, b, {}) && AddressesDone(d, t, b, listed[b], {}) {
      forall tx | Due(d, t, b, PayIn(tx)) ensures Recorded(t, PayIn(tx)) {
        SameBlockSameLeg(c, d, t, b, PayIn(tx));
      }
      forall tx, a | a in listed[b] && Due(d, t, b, To(tx, a)) ensures Recorded(t, To(tx, a)) {
        SameBlockSameLeg(c, d, t, b, To(tx, a));
      }
    }
  }

  ghost predicate RangeDone(c: Chain, t: Tables, from: nat, to: nat, addresses: set<string>) {
    forall b: nat :: from <= b <= to && b < |c.blocks| ==> PayInsDone(c, t, b, {}) && AddressesDone(c, t, b, addresses, {})
  }

  lemma RangeStays(c: Chain, t: Tables, u: Tables, from: nat, to: nat, addresses: set<string>)
    requires RangeDone(c, t, from, to, addresses) && Grows(t, u) && forall a :: a in addresses ==> a in t.owners
    ensures RangeDone(c, u, from, to, addresses)
  {
    forall b: nat | from <= b <= to && b < |c.blocks| ensures PayInsDone(c, u, b, {}) && AddressesDone(c, u, b, addresses, {}) {
      PayInsStayDone(c, t, u, b, {});
      AddressesStayDone(c, t, u, b, addresses, {});
    }
  }

  ghost predicate HandledBelow(c: Chain, t: Tables, from: nat, n: nat) {
    forall b: nat :: from <= b < n && b < |c.blocks| ==> PayInsDone(c, t, b, {})
  }

  lemma HandledStays(c: Chain, t: Tables, u: Tables, from: nat, n: nat)
    requires HandledBelow(c, t, from, n) && Grows(t, u) && n < |c.blocks| && PayInsDone(c, u, n, {})
    ensures HandledBelow(c, u, from, n + 1)
  {
    forall b: nat | from <= b < n && b < |c.blocks| ensures PayInsDone(c, u, b, {}) {
      PayInsStayDone(c, t, u, b, {});
    }
  }

  ghost predicate ChunkDone(c: Chain, t: Tables, from: nat, n: nat, chunk: set<string>) {
    forall b: nat :: from <= b < n && b < |c.blocks| ==> AddressesDone(c, t, b, chunk, {})
  }

  lemma ChunkStays(c: Chain, t: Tables, u: Tables, from: nat, n: nat, chunk: set<string>)
    requires ChunkDone(c, t, from, n, chunk) && Grows(t, u) && n < |c.blocks| && AddressesDone(c, u, n, chunk, {})
    requires forall a :: a in chunk ==> a in t.owners
    ensures ChunkDone(c, u, from, n + 1, chunk)
  {
    forall b: nat | from <= b < n && b < |c.blocks| ensures AddressesDone(c, u, b, chunk, {}) {
      AddressesStayDone(c, t, u, b, chunk, {});
    }
  }

  lemma ChunkJoins(c: Chain, t: Tables, from: nat, to: nat, done: set<string>, chunk: set<string>)
    requires RangeDone(c, t, from, to, done) && ChunkDone(c, t, from, to + 1, chunk)
    ensures RangeDone(c, t, from, to, done + chunk)
  {
    forall b: nat | from <= b <= to && b < |c.blocks|
      ensures PayInsDone(c, t, b, {}) && AddressesDone(c, t, b, done + chunk, {})
    {
      assert AddressesDone(c, t, b, done, {}) && AddressesDone(c, t, b, chunk, {});
    }
  }

  /** The blocks a pass reads: from the one after the cursor, or a little below the confirmed head, at most so many. */
  function NextRange(last: Option<nat>, head: nat, confirmations: nat): (r: Option<(nat, nat)>)
    ensures r.Some? ==> r.value.0 <= r.value.1 < r.value.0 + MAX_RANGE && r.value.1 + confirmations <= head
    ensures r.Some? && last.Some? ==> r.value.0 == last.value + 1
    ensures r.None? && last.Some? ==> head <= last.value + confirmations
    ensures r.None? && last.None? ==> head < confirmations
    ensures r.Some? && last.None? ==> r.value.0 == if head - confirmations >= 200 then head - confirmations - 200 else 0
    ensures r.Some? ==> r.value.1 == head - confirmations || r.value.1 == r.value.0 + 499
  {
    if head < confirmations then None
    else
      var safe := head - confirmations;
      var from := if last.Some? then last.value + 1 else Max(0, safe - INITIAL_LOOKBACK);
      if from > safe then None else Some((from, Min(safe, from + MAX_RANGE - 1)))
  }

  /** The blocks of a range, with what was known when it was completed. */
  ghost function Listing(from: nat, n: nat, known: set<string>): (m: map<nat, set<string>>)
    ensures forall b: nat :: b in m <==> from <= b < from + n
    ensures forall b: nat :: b in m ==> m[b] == known
  {
    if n == 0 then map[] else Listing(from, n - 1, known)[from + n - 1 := known]
  }

  /** What no transfer was made for is not due. */
  lemma OnlySentIsDue(c: Chain, t: Tables, b: nat, sent: set<string>)
    requires b < |c.blocks| && forall tx :: tx in sent <==> Sender(c.blocks[b].transfers, tx, c.payIn).Some?
    ensures PayInsDone(c, t, b, sent)
  {
    forall tx | tx !in sent ensures !Due(c, t, b, PayIn(tx)) {
      MovedIsSent(c.blocks[b].transfers, tx, c.payIn);
    }
  }

  lemma OnlySentIsDueAt(c: Chain, t: Tables, b: nat, addresses: set<string>, sent: set<Leg>)
    requires b < |c.blocks|
    requires forall tx, a :: a in addresses ==> (To(tx, a) in sent <==> Sender(c.blocks[b].transfers, tx, a).Some?)
    ensures AddressesDone(c, t, b, addresses, sent)
  {
    forall tx, a | a in addresses && To(tx, a) !in sent ensures !Due(c, t, b, To(tx, a)) {
      MovedIsSent(c.blocks[b].transfers, tx, a);
    }
  }

  /** The pay-in leg comes first: a transaction nothing is credited for has its pay-in leg settled. */
  lemma PayInFirst(c: Chain, t: Tables, b: nat, tx: string)
    requires ChainOk(c) && b < |c.blocks| && InBlock(c.blocks[b], tx) && PayInsDone(c, t, b, {}) && tx !in t.deposits
    ensures PayInIsSettled(c, t, tx)
  {
    if !Left(t, PayIn(tx)) {
      forall d: nat | d < |c.blocks| ensures !Due(c, t, d, PayIn(tx)) {
        assert d == b || !InBlock(c.blocks[d], tx);
        assert !Recorded(t, PayIn(tx));
      }
    }
  }

  class Watch {
    const payIn: string
    const decimals: nat
    const confirmations: nat
    // the tables
    var deposits: map<string, Deposit>
    var unattributed: map<Leg, int>
    var payers: map<string, Payer>
    var owners: map<string, string>
    var lastBlock: Option<nat>
    // the chain
    var blocks: seq<Block>
    // which deposit addresses were known when each block's range was completed, and who had asked when a leg was met
    ghost var first: nat
    ghost var listed: map<nat, set<string>>
    ghost var met: map<Leg, map<string, Payer>>

    ghost function Rows(): Tables
      reads this
    {
      Tables(deposits, unattributed, payers, owners, met)
    }

    ghost function TheChain(): Chain
      reads this
    {
      Chain(blocks, payIn, decimals)
    }

    ghost predicate Valid()
      reads this
    {
      ChainOk(TheChain()) && Sound(TheChain(), Rows()) && MetOk(TheChain(), Rows())
    }

    /** The completed blocks are those up to the cursor, and each is done. */
    ghost predicate Kept()
      reads this
    {
      && Valid() && Covered(TheChain(), Rows(), listed)
      && (lastBlock.None? ==> listed == map[])
      && (lastBlock.Some? ==> first <= lastBlock.value && forall b: nat :: b in listed <==> first <= b <= lastBlock.value)
    }

    constructor (payIn: string, decimals: nat, confirmations: nat)
      ensures Kept() && lastBlock == None && blocks == [] && deposits == map[] && unattributed == map[]
    {
      this.payIn, this.decimals, this.confirmations := payIn, decimals, confirmations;
      deposits, unattributed, payers, owners, lastBlock, blocks := map[], map[], map[], map[], None, [];
      first, listed, met := 0, map[], map[];
    }

    /** A user says they will pay from their own wallet. The first time counts. */
    method RegisterPayer(user: string, address: string, now: int)
      requires Kept()
      modifies this`payers
      ensures Kept() && Grows(old(Rows()), Rows())
      ensures payers == if address in old(payers) then old(payers) else old(payers)[address := Payer(user, now)]
    {
      if address !in payers {
        payers := payers[address := Payer(user, now)];
        AskingKeepsSound(TheChain(), old(Rows()), Rows());
        MetStays(TheChain(), old(Rows()), Rows());
        CoverStays(TheChain(), old(Rows()), Rows(), listed);
      }
    }

    /** A user is given a deposit address, for good. */
    method HandOutAddress(user: string, address: string)
      requires Kept() && address !in owners
      modifies this`owners
      ensures Kept() && Grows(old(Rows()), Rows()) && owners == old(owners)[address := user]
    {
      owners := owners[address := user];
      AskingKeepsSound(TheChain(), old(Rows()), Rows());
      MetStays(TheChain(), old(Rows()), Rows());
      CoverStays(TheChain(), old(Rows()), Rows(), listed);
    }

    /** The chain goes on. */
    method AddBlocks(more: seq<Block>)
      requires Kept() && ChainOk(Chain(blocks + more, payIn, decimals))
      modifies this`blocks
      ensures Kept() && blocks == old(blocks) + more
    {
      GrowthKeepsSound(TheChain(), Chain(blocks + more, payIn, decimals), Rows());
      GrowthKeepsMet(TheChain(), Chain(blocks + more, payIn, decimals), Rows());
      GrowthKeepsCover(TheChain(), Chain(blocks + more, payIn, decimals), Rows(), listed);
      blocks := blocks + more;
    }

    /** One transaction's USDT to `to`, by sender, in one walk over the block. */
    method ByTransaction(ts: seq<Transfer>, to: string) returns (m: map<string, Payment>)
      ensures forall tx :: tx in m <==> Sender(ts, tx, to).Some?
      ensures forall tx :: tx in m ==> m[tx] == Payment(Sender(ts, tx, to).value, Moved(ts, tx, to))
    {
      m := map[];
      var i := 0;
      while i < |ts|
        invariant i <= |ts|
        invariant forall tx :: tx in m <==> Sender(ts[..i], tx, to).Some?
        invariant forall tx :: tx in m ==> m[tx] == Payment(Sender(ts[..i], tx, to).value, Moved(ts[..i], tx, to))
        invariant forall tx :: tx !in m ==> Moved(ts[..i], tx, to) == 0
      {
        assert ts[..i + 1][..i] == ts[..i] && ts[..i + 1][i] == ts[i];
        var t := ts[i];
        if t.to == to {
          var p := if t.tx in m then m[t.tx] else Payment(t.from, 0);
          m := m[t.tx := Payment(if p.from != t.from then "" else p.from, Min(p.value + t.value, U128_MAX))];
        }
        i := i + 1;
      }
      assert ts[..i] == ts;
    }

    method PutDeposit(b: nat, leg: Leg, user: string, amount: int)
      requires Valid() && b < |blocks| && InBlock(blocks[b], leg.tx) && amount == Amount(TheChain(), b, leg) > 0
      requires leg.tx !in deposits && leg !in unattributed && Owed(TheChain(), Rows(), b, leg, user)
      requires leg.To? ==> PayInIsSettled(TheChain(), Rows(), leg.tx)
      modifies this`deposits, this`met
      ensures Valid() && Grows(old(Rows()), Rows()) && deposits == old(deposits)[leg.tx := Deposit(user, amount, leg)]
      ensures met == old(met)[leg := payers]
    {
      hide Sound, MetOk, ChainOk, Amount;
      NotRecorded(Rows(), leg);
      CreditingKeepsSound(TheChain(), Rows(), b, leg, user);
      CreditingKeepsMet(TheChain(), Rows(), b, leg, user);
      ghost var after := CreditedTo(TheChain(), Rows(), b, leg, user);
      deposits := deposits[leg.tx := Deposit(user, amount, leg)];
      met := met[leg := payers];
      assert Rows() == after;
    }

    method PutUnattributed(b: nat, leg: Leg, amount: int)
      requires Valid() && b < |blocks| && InBlock(blocks[b], leg.tx) && amount == Amount(TheChain(), b, leg) > 0
      requires leg !in unattributed && !Credited(Rows(), leg)
      requires if leg.To? then leg.tx in deposits else Asked(TheChain(), payers, b, leg) == None
      modifies this`unattributed, this`met
      ensures Valid() && Grows(old(Rows()), Rows()) && unattributed == old(unattributed)[leg := amount]
      ensures met == old(met)[leg := payers]
    {
      hide Sound, MetOk, ChainOk, Amount, Asked;
      LeavingKeepsSound(TheChain(), Rows(), b, leg);
      LeavingKeepsMet(TheChain(), Rows(), b, leg);
      ghost var after := LeftFor(TheChain(), Rows(), b, leg);
      unattributed := unattributed[leg := amount];
      met := met[leg := payers];
      assert Rows() == after;
    }

    /** A payment to the pay-in address: credited to the sender who asked first, or left. */
    method Handle(b: nat, tx: string, p: Payment)
      requires Valid() && b < |blocks| && InBlock(blocks[b], tx)
      requires p == Payment(From(TheChain(), b, PayIn(tx)), Moved(blocks[b].transfers, tx, payIn))
      modifies this`deposits, this`unattributed, this`met
      ensures Valid() && Grows(old(Rows()), Rows())
      ensures if !Due(TheChain(), old(Rows()), b, PayIn(tx)) || Recorded(old(Rows()), PayIn(tx)) then Rows() == old(Rows())
              else
                var amount := Amount(TheChain(), b, PayIn(tx));
                if p.from != "" && p.from in payers && blocks[b].seconds >= payers[p.from].since then
                  deposits == old(deposits)[tx := Deposit(payers[p.from].user, amount, PayIn(tx))] && unattributed == old(unattributed)
                else unattributed == old(unattributed)[PayIn(tx) := amount] && deposits == old(deposits)
      ensures Rows() != old(Rows()) ==> met == old(met)[PayIn(tx) := payers]
    {
      hide Sound, MetOk, ChainOk, Grows, InBlock;
      Unchanged(Rows());
      var micro := ToMicro(p.value, decimals);
      var amount := if micro.Some? then micro.value else 0;
      // The treasury's own sweep, dust, or the pay-in address paying itself.
      if p.from in owners || amount <= 0 || p.from == payIn { return; }
      if PayIn(tx) in unattributed { return; }
      if p.from != "" && p.from in payers && blocks[b].seconds >= payers[p.from].since {
        if tx !in deposits {
          PutDeposit(b, PayIn(tx), payers[p.from].user, amount);
        } else {
          TakenByItself(TheChain(), Rows(), b, tx);
        }
      } else {
        NotCreditedYet(TheChain(), Rows(), b, tx);
        PutUnattributed(b, PayIn(tx), amount);
      }
    }

    /** A payment to a user's own address: theirs, unless the transaction is credited to someone else already. */
    method CreditAddress(b: nat, tx: string, address: string, value: nat)
      requires Valid() && b < |blocks| && InBlock(blocks[b], tx) && address in owners
      requires value == Moved(blocks[b].transfers, tx, address) && PayInsDone(TheChain(), Rows(), b, {})
      modifies this`deposits, this`unattributed, this`met
      ensures Valid() && Grows(old(Rows()), Rows())
      ensures if !Due(TheChain(), old(Rows()), b, To(tx, address)) || Recorded(old(Rows()), To(tx, address)) then Rows() == old(Rows())
              else
                var amount := Amount(TheChain(), b, To(tx, address));
                if tx !in old(deposits) then
                  deposits == old(deposits)[tx := Deposit(owners[address], amount, To(tx, address))] && unattributed == old(unattributed)
                else unattributed == old(unattributed)[To(tx, address) := amount] && deposits == old(deposits)
    {
      hide Sound, MetOk, ChainOk, Grows, InBlock, PayInsDone, PayInIsSettled;
      Unchanged(Rows());
      var micro := ToMicro(value, decimals);
      var amount := if micro.Some? then micro.value else 0;
      if amount <= 0 { return; }
      if tx !in deposits {
        PayInFirst(TheChain(), Rows(), b, tx);
        NotLeftYet(TheChain(), Rows(), To(tx, address));
        PutDeposit(b, To(tx, address), owners[address], amount);
      } else if deposits[tx].leg != To(tx, address) && To(tx, address) !in unattributed {
        PutUnattributed(b, To(tx, address), amount);
      }
    }

    /** The pay-in legs of one block. The pass may stop at any of them. */
    method HandleBlock(b: nat, failing: set<Leg>) returns (ok: bool)
      requires Valid() && b < |blocks|
      modifies this`deposits, this`unattributed, this`met
      ensures Valid() && Grows(old(Rows()), Rows()) && (ok ==> PayInsDone(TheChain(), Rows(), b, {}))
      ensures ok <==> forall tx :: !PayInFails(TheChain(), owners, b, failing, tx)
    {
      hide Valid, Grows, PayInsDone;
      Unchanged(Rows());
      var m := ByTransaction(blocks[b].transfers, payIn);
      var rest := m.Keys;
      OnlySentIsDue(TheChain(), Rows(), b, rest);
      ok := true;
      while rest != {}
        invariant rest <= m.Keys && Valid() && Grows(old(Rows()), Rows())
        invariant PayInsDone(TheChain(), Rows(), b, rest)
        invariant forall tx :: tx !in rest ==> !PayInFails(TheChain(), owners, b, failing, tx)
        decreases |rest|
      {
        var tx :| tx in rest;
        if m[tx].from !in owners && PayIn(tx) in failing {
          assert PayInFails(TheChain(), owners, b, failing, tx);
          return false;
        }
        ghost var before := Rows();
        SentIsInBlock(blocks[b], tx, payIn);
        Handle(b, tx, m[tx]);
        HandledIsDone(TheChain(), before, Rows(), b, rest, tx);
        GrowsOn(old(Rows()), before, Rows());
        rest := rest - {tx};
      }
    }

    /** One transaction's USDT to one of `chunk`, in one walk over the block. */
    method ByDeposit(ts: seq<Transfer>, chunk: set<string>) returns (m: map<Leg, nat>)
      ensures forall leg :: leg in m <==> leg.To? && leg.address in chunk && Sender(ts, leg.tx, leg.address).Some?
      ensures forall leg :: leg in m ==> m[leg] == Moved(ts, leg.tx, leg.address)
    {
      m := map[];
      var i := 0;
      while i < |ts|
        invariant i <= |ts|
        invariant forall leg :: leg in m <==> leg.To? && leg.address in chunk && Sender(ts[..i], leg.tx, leg.address).Some?
        invariant forall leg :: leg in m ==> m[leg] == Moved(ts[..i], leg.tx, leg.address)
        invariant forall leg: Leg :: leg.To? && leg.address in chunk && leg !in m ==> Moved(ts[..i], leg.tx, leg.address) == 0
      {
        assert ts[..i + 1][..i] == ts[..i] && ts[..i + 1][i] == ts[i];
        var t := ts[i];
        if t.to in chunk {
          var leg := To(t.tx, t.to);
          m := m[leg := Min((if leg in m then m[leg] else 0) + t.value, U128_MAX)];
        }
        i := i + 1;
      }
      assert ts[..i] == ts;
    }

    /** The legs of one block to a chunk of the deposit addresses. */
    method CreditBlock(b: nat, chunk: set<string>, failing: set<Leg>) returns (ok: bool)
      requires Valid() && b < |blocks| && PayInsDone(TheChain(), Rows(), b, {}) && (forall a :: a in chunk ==> a in owners)
      modifies this`deposits, this`unattributed, this`met
      ensures Valid() && Grows(old(Rows()), Rows()) && (ok ==> AddressesDone(TheChain(), Rows(), b, chunk, {}))
      ensures ok <==> forall tx, a :: a in chunk ==> !AddressFails(TheChain(), owners, b, failing, tx, a)
    {
      hide Valid, Grows, PayInsDone, AddressesDone;
      Unchanged(Rows());
      var m := ByDeposit(blocks[b].transfers, chunk);
      var rest := m.Keys;
      OnlySentIsDueAt(TheChain(), Rows(), b, chunk, rest);
      ok := true;
      while rest != {}
        invariant rest <= m.Keys && Valid() && Grows(old(Rows()), Rows())
        invariant PayInsDone(TheChain(), Rows(), b, {}) && AddressesDone(TheChain(), Rows(), b, chunk, rest)
        invariant forall tx, a :: a in chunk && To(tx, a) !in rest ==> !AddressFails(TheChain(), owners, b, failing, tx, a)
        decreases |rest|
      {
        var leg :| leg in rest;
        if leg in failing {
          assert AddressFails(TheChain(), owners, b, failing, leg.tx, leg.address);
          return false;
        }
        ghost var before := Rows();
        SentIsInBlock(blocks[b], leg.tx, leg.address);
        CreditAddress(b, leg.tx, leg.address, m[leg]);
        PayInsStayDone(TheChain(), before, Rows(), b, {});
        CreditedIsDone(TheChain(), before, Rows(), b, chunk, rest, leg);
        GrowsOn(old(Rows()), before, Rows());
        rest := rest - {leg};
      }
    }

    method HandleRange(from: nat, to: nat, failing: set<Leg>) returns (ok: bool)
      requires Valid() && from <= to < |blocks|
      modifies this`deposits, this`unattributed, this`met
      ensures Valid() && Grows(old(Rows()), Rows()) && (ok ==> RangeDone(TheChain(), Rows(), from, to, {}))
      ensures ok <==> forall b: nat, tx :: from <= b <= to ==> !PayInFails(TheChain(), owners, b, failing, tx)
    {
      hide Valid, Grows, PayInsDone, PayInFails;
      Unchanged(Rows());
      var n := from;
      while n <= to
        invariant from <= n <= to + 1 && Valid() && Grows(old(Rows()), Rows())
        invariant HandledBelow(TheChain(), Rows(), from, n)
        invariant forall b: nat, tx :: from <= b < n ==> !PayInFails(TheChain(), owners, b, failing, tx)
      {
        ghost var before := Rows();
        ok := HandleBlock(n, failing);
        GrowsOn(old(Rows()), before, Rows());
        if !ok { return; }
        HandledStays(TheChain(), before, Rows(), from, n);
        n := n + 1;
      }
      return true;
    }

    method CreditRange(from: nat, to: nat, ghost done: set<string>, chunk: set<string>, failing: set<Leg>) returns (ok: bool)
      requires Valid() && from <= to < |blocks| && done + chunk <= owners.Keys && RangeDone(TheChain(), Rows(), from, to, done)
      modifies this`deposits, this`unattributed, this`met
      ensures Valid() && Grows(old(Rows()), Rows()) && (ok ==> RangeDone(TheChain(), Rows(), from, to, done + chunk))
      ensures ok <==> forall b: nat, tx, a :: from <= b <= to && a in chunk ==> !AddressFails(TheChain(), owners, b, failing, tx, a)
    {
      hide Valid, Grows, PayInsDone, AddressesDone, AddressFails;
      Unchanged(Rows());
      var n := from;
      while n <= to
        invariant from <= n <= to + 1 && Valid() && Grows(old(Rows()), Rows())
        invariant RangeDone(TheChain(), Rows(), from, to, done) && ChunkDone(TheChain(), Rows(), from, n, chunk)
        invariant forall b: nat, tx, a :: from <= b < n && a in chunk ==> !AddressFails(TheChain(), owners, b, failing, tx, a)
      {
        ghost var before := Rows();
        assert PayInsDone(TheChain(), Rows(), n, {});
        ok := CreditBlock(n, chunk, failing);
        GrowsOn(old(Rows()), before, Rows());
        if !ok { return; }
        RangeStays(TheChain(), before, Rows(), from, to, done);
        ChunkStays(TheChain(), before, Rows(), from, n, chunk);
        n := n + 1;
      }
      ChunkJoins(TheChain(), Rows(), from, to, done, chunk);
      return true;
    }

    /** The deposit addresses, so many to a query. */
    method CreditAll(from: nat, to: nat, failing: set<Leg>) returns (ok: bool)
      requires Valid() && from <= to < |blocks| && RangeDone(TheChain(), Rows(), from, to, {})
      modifies this`deposits, this`unattributed, this`met
      ensures Valid() && Grows(old(Rows()), Rows()) && (ok ==> RangeDone(TheChain(), Rows(), from, to, owners.Keys))
      ensures ok <==> forall b: nat, tx, a :: from <= b <= to && a in owners ==> !AddressFails(TheChain(), owners, b, failing, tx, a)
    {
      hide Valid, Grows, RangeDone, AddressFails;
      Unchanged(Rows());
      var rest, done := owners.Keys, {};
      while rest != {}
        invariant rest + done == owners.Keys && Valid() && Grows(old(Rows()), Rows())
        invariant RangeDone(TheChain(), Rows(), from, to, done)
        invariant forall b: nat, tx, a :: from <= b <= to && a in done ==> !AddressFails(TheChain(), owners, b, failing, tx, a)
        decreases |rest|
      {
        var chunk := TakeChunk(rest);
        ghost var before := Rows();
        ok := CreditRange(from, to, done, chunk, failing);
        GrowsOn(old(Rows()), before, Rows());
        if !ok { return; }
        rest, done := rest - chunk, done + chunk;
      }
      return true;
    }

    /** Every leg of the range: those to the pay-in address, then those to the deposit addresses. */
    method ScanRange(from: nat, to: nat, failing: set<Leg>) returns (ok: bool)
      requires Valid() && from <= to < |blocks|
      modifies this`deposits, this`unattributed, this`met
      ensures Valid() && Grows(old(Rows()), Rows()) && (ok ==> RangeDone(TheChain(), Rows(), from, to, owners.Keys))
      ensures ok <==> forall b: nat, leg: Leg :: from <= b <= to && (leg.To? ==> leg.address in owners)
                                                 ==> !Trouble(TheChain(), owners, b, failing, leg)
    {
      hide Valid, Grows, RangeDone, Trouble;
      ok := HandleRange(from, to, failing);
      if ok {
        ghost var before := Rows();
        ok := CreditAll(from, to, failing);
        GrowsOn(old(Rows()), before, Rows());
      }
      assert forall b: nat, tx :: PayInFails(TheChain(), owners, b, failing, tx) == Trouble(TheChain(), owners, b, failing, PayIn(tx));
      assert forall b: nat, tx, a :: AddressFails(TheChain(), owners, b, failing, tx, a) == Trouble(TheChain(), owners, b, failing, To(tx, a));
    }

    /** The cursor, once the whole range was handled. */
    method Stamp(from: nat, to: nat)
      requires Kept() && from <= to < |blocks| && RangeDone(TheChain(), Rows(), from, to, owners.Keys)
      requires lastBlock.Some? ==> from == lastBlock.value + 1
      modifies this`lastBlock, this`first, this`listed
      ensures Kept() && lastBlock == Some(to) && listed == old(listed) + Listing(from, to - from + 1, owners.Keys)
    {
      hide Sound, MetOk, ChainOk, PayInsDone, AddressesDone;
      if lastBlock.None? { first := from; }
      listed := listed + Listing(from, to - from + 1, owners.Keys);
      lastBlock := Some(to);
    }

    /** One pass. It stops at the first leg whose reads or writes fail, and the cursor moves exactly when there is none. */
    method WatchOnce(head: nat, failing: set<Leg>) returns (ok: bool)
      requires Kept() && head < |blocks|
      modifies this`deposits, this`unattributed, this`met, this`lastBlock, this`first, this`listed
      ensures Kept() && Grows(old(Rows()), Rows())
      ensures !ok ==> lastBlock == old(lastBlock) && listed == old(listed)
      ensures ok ==> match NextRange(old(lastBlock), head, confirmations)
                     case None => lastBlock == old(lastBlock) && listed == old(listed)
                     case Some((from, to)) => lastBlock == Some(to)
                                              && listed == old(listed) + Listing(from, to - from + 1, owners.Keys)
      ensures ok <==> match NextRange(old(lastBlock), head, confirmations)
                      case None => true
                      case Some((from, to)) => forall b: nat, leg: Leg :: from <= b <= to && (leg.To? ==> leg.address in owners)
                                                                          ==> !Trouble(TheChain(), owners, b, failing, leg)
    {
      hide Valid, Grows, RangeDone, Trouble, NextRange, Covered, Listing;
      Unchanged(Rows());
      var range := NextRange(lastBlock, head, confirmations);
      if range.None? { return true; }
      ok := ScanRange(range.value.0, range.value.1, failing);
      CoverStays(TheChain(), old(Rows()), Rows(), listed);
      if ok {
        Stamp(range.value.0, range.value.1);
      }
    }
  }

  method TakeChunk(rest: set<string>) returns (chunk: set<string>)
    requires rest != {}
    ensures chunk <= rest && chunk != {} && |chunk| <= ADDRESSES_PER_QUERY
    ensures |chunk| == ADDRESSES_PER_QUERY || chunk == rest
  {
    var others := rest;
    chunk := {};
    while |chunk| < ADDRESSES_PER_QUERY && others != {}
      invariant chunk + others == rest && chunk !! others && |chunk| <= ADDRESSES_PER_QUERY && (chunk == {} ==> others != {})
      decreases |others|
    {
      var a :| a in others;
      chunk, others := chunk + {a}, others - {a};
    }
  }

  lemma {:induction false} SentIsCarried(ts: seq<Transfer>, tx: string, to: string)
    requires Sender(ts, tx, to).Some?
    ensures exists i :: Carries(ts, i, tx, to)
  {
    var n := |ts| - 1;
    if ts[n].tx == tx && ts[n].to == to {
      assert Carries(ts, n, tx, to);
    } else {
      SentIsCarried(ts[..n], tx, to);
      CarriedBefore(ts, tx, to);
      var i :| Carries(ts[..n], i, tx, to);
      assert Carries(ts, i, tx, to);
    }
  }

  lemma SentIsInBlock(b: Block, tx: string, to: string)
    requires Sender(b.transfers, tx, to).Some?
    ensures InBlock(b, tx)
  {
    SentIsCarried(b.transfers, tx, to);
    var i :| Carries(b.transfers, i, tx, to);
    assert b.transfers[i].tx == tx;
  }

  /** A transaction that moved something to the address has a sender there. */
  lemma {:induction false} MovedIsSent(ts: seq<Transfer>, tx: string, to: string)
    ensures Sender(ts, tx, to).None? ==> Moved(ts, tx, to) == 0
  {
    if ts != [] {
      MovedIsSent(ts[..|ts| - 1], tx, to);
    }
  }

  /** A leg to an address is left only when its transaction is credited. */
  lemma NotLeftYet(c: Chain, t: Tables, leg: Leg)
    requires Sound(c, t) && leg.To? && leg.tx !in t.deposits
    ensures !Left(t, leg)
  {
  }

  /** A credit that meets its own transaction finds itself there. */
  lemma TakenByItself(c: Chain, t: Tables, b: nat, tx: string)
    requires Sound(c, t) && b < |c.blocks| && Due(c, t, b, PayIn(tx)) && !Left(t, PayIn(tx)) && tx in t.deposits
    ensures Credited(t, PayIn(tx))
  {
    assert t.deposits[tx].leg.To? ==> PayInIsSettled(c, t, tx);
  }

  /** A sender who has not asked, or had not yet, was never credited. */
  lemma NotCreditedYet(c: Chain, t: Tables, b: nat, tx: string)
    requires ChainOk(c) && Sound(c, t) && b < |c.blocks| && InBlock(c.blocks[b], tx)
    requires var f := From(c, b, PayIn(tx)); f == "" || f !in t.payers || c.blocks[b].seconds < t.payers[f].since
    ensures !Credited(t, PayIn(tx))
  {
    if Credited(t, PayIn(tx)) {
      RecordedAsItIs(c, t, b, PayIn(tx));
    }
  }
}
