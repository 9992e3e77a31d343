/**
 The bounded poller: so many addresses a pass, hot ones first, then whichever was tried longest ago.

 Every address is tried within ceil(n / (budget - h)) passes when at most h of n addresses are hot at a time,
 whichever fetches fail and however ties fall; and a failed fetch never makes a later one start too late.
 */
module Polling {
  import opened Basics

  const OVERLAP := 3600

  /** When the address was last tried, and when it was last read successfully. */
  datatype Row = Row(attempt: Option<int>, polled: Option<int>)

  /** Never is before every time. */
  predicate NotAfter(x: Option<int>, y: Option<int>) {
    x.None? || (y.Some? && x.value <= y.value)
  }

  /** `j` comes strictly before `i` in the pass's order. */
  predicate Outranks(rows: seq<Row>, hot: set<nat>, j: nat, i: nat)
    requires i < |rows| && j < |rows|
  {
    (j in hot && i !in hot) || ((j in hot <==> i in hot) && !NotAfter(rows[i].attempt, rows[j].attempt))
  }

  /** A budget's worth of addresses such that none left out comes before one taken. */
  ghost predicate Chosen(rows: seq<Row>, hot: set<nat>, budget: nat, due: set<nat>) {
    && |due| == Min(budget, |rows|) && (forall i :: i in due ==> i < |rows|)
    && (forall i: nat, j: nat :: i in due && j < |rows| && j !in due ==> !Outranks(rows, hot, j, i))
  }

  /** One pass: what was hot, what was tried, what was read, and when. */
  datatype Pass = Pass(hot: set<nat>, due: set<nat>, read: set<nat>, now: int)

  function After(rows: seq<Row>, p: Pass): seq<Row> {
    seq(|rows|, i requires 0 <= i < |rows| =>
      Row(if i in p.due then Some(p.now) else rows[i].attempt,
          if i in p.due && i in p.read then Some(p.now) else rows[i].polled))
  }

  ghost predicate CanFollow(rows: seq<Row>, p: Pass, budget: nat, h: nat) {
    && Chosen(rows, p.hot, budget, p.due) && |p.hot| <= h
    && (forall i :: 0 <= i < |rows| && rows[i].attempt.Some? ==> rows[i].attempt.value < p.now)
  }

  ghost predicate Follows(rows: seq<Row>, ps: seq<Pass>, budget: nat, h: nat)
    decreases |ps|
  {
    ps == [] || (CanFollow(rows, ps[0], budget, h) && Follows(After(rows, ps[0]), ps[1..], budget, h))
  }

  // ----- bounded waiting -------------------------------------------------------------------------

  /** The addresses that may still be tried before `a`. */
  ghost function Ahead(rows: seq<Row>, a: nat): set<nat>
    requires a < |rows|
  {
    set i: nat | i < |rows| && i != a && NotAfter(rows[i].attempt, rows[a].attempt)
  }

  lemma DisjointSize<T>(x: set<T>, y: set<T>, all: set<T>)
    requires x !! y && x <= all && y <= all
    ensures |x| + |y| <= |all|
  {
    assert |x + y| == |x| + |y|;
    SubsetSize(x + y, all);
  }

  lemma MinusSize<T>(x: set<T>, y: set<T>)
    ensures |x - y| >= |x| - |y|
  {
    SubsetSize(x * y, y);
    assert x == (x - y) + (x * y);
  }

  /** A pass that leaves `a` out moves at least `budget - h` others behind it. */
  lemma PassedOver(rows: seq<Row>, p: Pass, budget: nat, h: nat, a: nat)
    requires h < budget && a < |rows| && a !in p.due && CanFollow(rows, p, budget, h)
    ensures |Ahead(After(rows, p), a)| + (budget - h) <= |Ahead(rows, a)|
  {
    var cold := p.due - p.hot;
    MinusSize(p.due, p.hot);
    LeftOutIsFull(rows, p, budget, a);
    assert a !in p.hot by {
      if a in p.hot {
        var i :| i in cold;
        assert Outranks(rows, p.hot, a, i);
      }
    }
    forall i | i in cold ensures i in Ahead(rows, a) && i !in Ahead(After(rows, p), a) {
      assert !Outranks(rows, p.hot, a, i);
    }
    assert Ahead(After(rows, p), a) <= Ahead(rows, a);
    DisjointSize(cold, Ahead(After(rows, p), a), Ahead(rows, a));
  }

  ghost function Indices(n: nat): (all: set<nat>)
    ensures |all| == n && forall i: nat :: i in all <==> i < n
  {
    if n == 0 then {} else Indices(n - 1) + {n - 1}
  }

  lemma LeftOutIsFull(rows: seq<Row>, p: Pass, budget: nat, a: nat)
    requires Chosen(rows, p.hot, budget, p.due) && a < |rows| && a !in p.due
    ensures |p.due| == budget
  {
    var all := Indices(|rows|);
    assert p.due <= all - {a};
    SubsetSize(p.due, all - {a});
  }

  /** Passes that all leave `a` out are few. */
  lemma {:induction false} PassedOverOften(rows: seq<Row>, ps: seq<Pass>, budget: nat, h: nat, a: nat)
    requires h < budget && a < |rows| && Follows(rows, ps, budget, h)
    requires forall k :: 0 <= k < |ps| ==> a !in ps[k].due
    ensures |ps| * (budget - h) <= |Ahead(rows, a)| <= |rows| - 1
    decreases |ps|
  {
    var all := Indices(|rows|);
    SubsetSize(Ahead(rows, a), all - {a});
    if ps != [] {
      PassedOver(rows, ps[0], budget, h, a);
      assert forall k :: 0 <= k < |ps| - 1 ==> ps[1..][k] == ps[k + 1];
      PassedOverOften(After(rows, ps[0]), ps[1..], budget, h, a);
      assert |ps| * (budget - h) == (|ps| - 1) * (budget - h) + (budget - h);
    }
  }

  function CeilDiv(n: nat, m: nat): nat
    requires m > 0
  {
    (n + m - 1) / m
  }

  lemma CeilIsEnough(n: nat, m: nat)
    requires m > 0 && n > 0
    ensures CeilDiv(n, m) * m >= n
  {
  }

  /** Within ceil(n / (budget - h)) passes, every address is tried. */
  lemma BoundedWaiting(rows: seq<Row>, ps: seq<Pass>, budget: nat, h: nat, a: nat)
    requires h < budget && a < |rows| && Follows(rows, ps, budget, h) && |ps| == CeilDiv(|rows|, budget - h)
    ensures exists k :: 0 <= k < |ps| && a in ps[k].due
  {
    CeilIsEnough(|rows|, budget - h);
    if forall k :: 0 <= k < |ps| ==> a !in ps[k].due {
      PassedOverOften(rows, ps, budget, h, a);
    }
  }

  // ----- the read watermark ----------------------------------------------------------------------

  /** A successful fetch of `address`: from `since` on, made at `now`. */
  datatype Read = Read(address: nat, since: Option<int>, now: int)

  /** A transfer made at `t`, and shown within the overlap of it, was in the answer. */
  predicate Saw(r: Read, address: nat, t: int) {
    r.address == address && (r.since.None? || r.since.value <= t) && t + OVERLAP <= r.now
  }

  ghost predicate Seen(fetches: seq<Read>, address: nat, t: int) {
    exists k :: 0 <= k < |fetches| && Saw(fetches[k], address, t)
  }

  /** The watermark of `address` is past `t` and what may still show late. */
  predicate Past(rows: seq<Row>, address: nat, t: int) {
    address < |rows| && rows[address].polled.Some? && t + OVERLAP <= rows[address].polled.value
  }

  /** No transfer behind a watermark was missed. */
  ghost predicate AllSeen(rows: seq<Row>, fetches: seq<Read>) {
    forall a: nat, t: int :: Past(rows, a, t) ==> Seen(fetches, a, t)
  }

  // ----- the poller ------------------------------------------------------------------------------

  class TieredPoller {
    const budget: nat
    var rows: seq<Row>
    ghost var fetches: seq<Read>

    constructor (budget: nat, n: nat)
      ensures this.budget == budget && |rows| == n && AllSeen(rows, fetches)
      ensures forall i :: 0 <= i < n ==> rows[i] == Row(None, None)
    {
      this.budget := budget;
      rows, fetches := seq(n, _ => Row(None, None)), [];
    }

    method First(hot: set<nat>, taken: set<nat>) returns (best: nat)
      requires exists i: nat :: i < |rows| && i !in taken
      ensures best < |rows| && best !in taken
      ensures forall j: nat :: j < |rows| && j !in taken ==> !Outranks(rows, hot, j, best)
    {
      best := |rows|;
      var i := 0;
      while i < |rows|
        invariant i <= |rows| && (best < i || best == |rows|) && (best < |rows| ==> best !in taken)
        invariant best == |rows| ==> forall j: nat :: j < i ==> j in taken
        invariant best < |rows| ==> forall j: nat :: j < i && j !in taken ==> !Outranks(rows, hot, j, best)
      {
        if i !in taken && (best == |rows| || Outranks(rows, hot, i, best)) {
          best := i;
        }
        i := i + 1;
      }
    }

    /** Hot addresses first, and among equals those never tried, then those tried longest ago. */
    method DueAddresses(hot: set<nat>) returns (due: set<nat>)
      ensures Chosen(rows, hot, budget, due)
      ensures |due| == (if budget <= |rows| then budget else |rows|) && forall i :: i in due ==> i < |rows|
      ensures forall i: nat, j: nat :: i in due && j < |rows| && j !in due ==>
                && (j in hot ==> i in hot)
                && ((i in hot <==> j in hot) && rows[i].attempt.Some? ==> rows[j].attempt.Some? && rows[i].attempt.value <= rows[j].attempt.value)
    {
      due := {};
      ghost var all := Indices(|rows|);
      while |due| < budget && |due| < |rows|
        invariant due <= all && |due| <= Min(budget, |rows|)
        invariant forall i: nat, j: nat :: i in due && j < |rows| && j !in due ==> !Outranks(rows, hot, j, i)
        decreases |rows| - |due|
      {
        assert exists i: nat :: i < |rows| && i !in due by {
          if forall i: nat :: i < |rows| ==> i in due {
            SubsetSize(all, due);
          }
        }
        var best := First(hot, due);
        due := due + {best};
      }
      assert forall i: nat, j: nat :: i in due && j < |rows| && j !in due ==> !Outranks(rows, hot, j, i);
    }

    /** One pass. Every address tried is stamped as tried; those whose fetch does not fail, and no others, are fetched from
        an hour before their last successful read, and stamped as read. */
    method Poll(hot: set<nat>, failing: set<nat>, now: int) returns (due: set<nat>, read: set<nat>)
      requires AllSeen(rows, fetches)
      modifies this
      ensures Chosen(old(rows), hot, budget, due) && read == due - failing
      ensures |rows| == |old(rows)| && forall i :: 0 <= i < |rows| ==>
                && rows[i].attempt == (if i in due then Some(now) else old(rows)[i].attempt)
                && rows[i].polled == (if i in due && i !in failing then Some(now) else old(rows)[i].polled)
      ensures rows == After(old(rows), Pass(hot, due, read, now))
      ensures old(fetches) <= fetches && Asked(old(rows), fetches[|old(fetches)|..], read, now)
      ensures AllSeen(rows, fetches)
    {
      due := DueAddresses(hot);
      read := FetchAll(due, failing, now);
      assert fetches == old(fetches) + fetches[|old(fetches)|..];
      AskedIsRead(rows, old(fetches), fetches[|old(fetches)|..], read, now);
      StampSeen(rows, fetches, Pass(hot, due, read, now));
      rows := After(rows, Pass(hot, due, read, now));
    }

    method FetchAll(due: set<nat>, failing: set<nat>, now: int) returns (read: set<nat>)
      requires AllSeen(rows, fetches) && forall a :: a in due ==> a < |rows|
      modifies this`fetches
      ensures AllSeen(rows, fetches) && read == due - failing
      ensures old(fetches) <= fetches && Asked(rows, fetches[|old(fetches)|..], read, now)
    {
      hide Asked, AllSeen;
      read := {};
      NoneAsked(rows, now);
      assert fetches[|fetches|..] == [];
      var rest := due;
      while rest != {}
        invariant rest <= due && AllSeen(rows, fetches)
        invariant forall a :: a in read <==> a in due && a !in failing && a !in rest
        invariant old(fetches) <= fetches && Asked(rows, fetches[|old(fetches)|..], read, now)
        decreases |rest|
      {
        var a :| a in rest;
        rest := rest - {a};
        if a !in failing {
          OneMoreAsked(rows, fetches[|old(fetches)|..], read, a, now);
          ghost var before := fetches;
          Fetch(a, now);
          assert fetches[|old(fetches)|..] == before[|old(fetches)|..] + [Read(a, Since(rows[a]), now)];
          read := read + {a};
        }
      }
    }

    method Fetch(a: nat, now: int)
      requires AllSeen(rows, fetches) && a < |rows|
      modifies this`fetches
      ensures AllSeen(rows, fetches) && fetches == old(fetches) + [Read(a, Since(rows[a]), now)]
    {
      MoreReads(rows, fetches, Read(a, Since(rows[a]), now));
      fetches := fetches + [Read(a, Since(rows[a]), now)];
    }
  }

  /** A fetch of one of `read`, made now: of everything, or from an hour before the last successful read. */
  predicate Asks(rows: seq<Row>, read: set<nat>, r: Read, now: int) {
    && r.address in read && r.address < |rows| && r.now == now
    && r.since == match rows[r.address].polled case None => None case Some(t) => Some(t - 3600)
  }

  /** The fetches of a pass: one of each of `read` and of nothing else. */
  ghost predicate Asked(rows: seq<Row>, fetches: seq<Read>, read: set<nat>, now: int) {
    && |fetches| == |read| && (forall k :: 0 <= k < |fetches| ==> Asks(rows, read, fetches[k], now))
    && (forall a :: a in read ==> exists k :: 0 <= k < |fetches| && fetches[k].address == a)
  }

  lemma NoneAsked(rows: seq<Row>, now: int)
    ensures Asked(rows, [], {}, now)
  {
  }

  lemma OneMoreAsked(rows: seq<Row>, fetches: seq<Read>, read: set<nat>, a: nat, now: int)
    requires Asked(rows, fetches, read, now) && a < |rows| && a !in read
    ensures Asked(rows, fetches + [Read(a, Since(rows[a]), now)], read + {a}, now)
  {
    var more := fetches + [Read(a, Since(rows[a]), now)];
    forall k | 0 <= k < |more| ensures Asks(rows, read + {a}, more[k], now) {
      assert k < |fetches| ==> Asks(rows, read, fetches[k], now);
    }
    hide Asks, Since;
    assert more[|fetches|].address == a;
    forall x | x in read ensures exists k :: 0 <= k < |more| && more[k].address == x {
      var k :| 0 <= k < |fetches| && fetches[k].address == x;
      assert more[k] == fetches[k];
    }
  }

  lemma AskedIsRead(rows: seq<Row>, before: seq<Read>, fetches: seq<Read>, read: set<nat>, now: int)
    requires Asked(rows, fetches, read, now)
    ensures forall a :: a in read && a < |rows| ==>
              exists k :: 0 <= k < |before + fetches| && (before + fetches)[k] == Read(a, Since(rows[a]), now)
  {
    forall a | a in read && a < |rows|
      ensures exists k :: 0 <= k < |before + fetches| && (before + fetches)[k] == Read(a, Since(rows[a]), now)
    {
      var k :| 0 <= k < |fetches| && fetches[k].address == a;
      assert (before + fetches)[|before| + k] == fetches[k];
    }
  }

  /** An hour before the last successful read, or everything. */
  function Since(r: Row): Option<int> {
    if r.polled.Some? then Some(r.polled.value - OVERLAP) else None
  }

  lemma MoreReads(rows: seq<Row>, fetches: seq<Read>, r: Read)
    requires AllSeen(rows, fetches)
    ensures AllSeen(rows, fetches + [r])
  {
    forall a: nat, t: int | Past(rows, a, t) ensures Seen(fetches + [r], a, t) {
      assert Seen(fetches, a, t);
      var k :| 0 <= k < |fetches| && Saw(fetches[k], a, t);
      assert (fetches + [r])[k] == fetches[k];
    }
  }

  /** Advancing the watermark of exactly what was read loses nothing. */
  lemma StampSeen(rows: seq<Row>, fetches: seq<Read>, p: Pass)
    requires AllSeen(rows, fetches) && p.read <= p.due
    requires forall a :: a in p.read && a < |rows| ==> exists k :: 0 <= k < |fetches| && fetches[k] == Read(a, Since(rows[a]), p.now)
    ensures AllSeen(After(rows, p), fetches)
  {
    forall a: nat, t: int | Past(After(rows, p), a, t) ensures Seen(fetches, a, t) {
      if Past(rows, a, t) {
        assert Seen(fetches, a, t);
      } else {
        assert a in p.read;
        var k :| 0 <= k < |fetches| && fetches[k] == Read(a, Since(rows[a]), p.now);
        assert Saw(fetches[k], a, t);
      }
    }
  }
}
