/**
 The fixed-window limiter, with room for so many identities and no more.

 To an identity whose live entry was never evicted the bound cannot be seen: every answer is the one the same
 limiter without a bound would give, so dropping expired entries changes nothing. Such an identity passes fewer
 than twice its limit in any span shorter than the window.
 */
module RateLimiting {
  import opened Basics

  const MAX_KEYS := 10_000

  datatype Entry = Entry(start: int, count: nat)

  datatype Answer = Pass | Refuse(retryAfter: int)

  datatype Config = Config(window: nat, limit: nat)

  // ----- the limiter without a bound -------------------------------------------------------------

  /** `duration_since`, which is never negative. */
  function Elapsed(e: Entry, now: int): nat {
    Max(0, now - e.start)
  }

  predicate Expired(c: Config, e: Entry, now: int) {
    Elapsed(e, now) >= c.window
  }

  /** What one identity is told, and what is remembered of it. */
  function Judge(c: Config, e: Option<Entry>, now: int): (Answer, Entry) {
    if e.None? || Expired(c, e.value, now) then (Pass, Entry(now, 1))
    else if e.value.count >= c.limit then (Refuse(c.window - Elapsed(e.value, now)), e.value)
    else (Pass, Entry(e.value.start, e.value.count + 1))
  }

  /** A refused identity passes again once the time it was told is over, and not before; unless the clock was read
      before its window began, when it was told too little. */
  lemma RetryAfterIsExact(c: Config, e: Entry, now: int, later: int)
    requires Judge(c, Some(e), now).0.Refuse? && later >= now
    ensures var wait := Judge(c, Some(e), now).0.retryAfter;
            && 0 < wait <= c.window
            && (now >= e.start ==> (Judge(c, Some(e), later).0.Pass? <==> later >= now + wait))
            && (now < e.start ==> (Judge(c, Some(e), later).0.Pass? <==> later >= e.start + c.window) && e.start + c.window > now + wait)
  {
    assert !Expired(c, e, now);
  }

  function Get(s: map<string, Entry>, key: string): Option<Entry> {
    if key in s then Some(s[key]) else None
  }

  function Remember(c: Config, s: map<string, Entry>, key: string, now: int): map<string, Entry> {
    s[key := Judge(c, Get(s, key), now).1]
  }

  // ----- the limiter with one --------------------------------------------------------------------

  function Retained(c: Config, s: map<string, Entry>, now: int): map<string, Entry> {
    map k | k in s && !Expired(c, s[k], now) :: s[k]
  }

  /** A new identity does not fit, and every entry is still inside its window. */
  predicate Full(c: Config, s: map<string, Entry>, key: string, now: int) {
    key !in s && |s| >= MAX_KEYS && |Retained(c, s, now)| >= MAX_KEYS
  }

  predicate Oldest(s: map<string, Entry>, victim: string) {
    victim in s && forall k :: k in s ==> s[victim].start <= s[k].start
  }

  function Room(c: Config, s: map<string, Entry>, key: string, now: int, victim: string): map<string, Entry> {
    if key in s || |s| < MAX_KEYS then s
    else if Full(c, s, key, now) then Retained(c, s, now) - {victim}
    else Retained(c, s, now)
  }

  /** One request, and which of the oldest entries goes when one has to. */
  datatype Request = Request(key: string, now: int, victim: string)

  predicate Possible(c: Config, s: map<string, Entry>, r: Request) {
    Full(c, s, r.key, r.now) ==> Oldest(Retained(c, s, r.now), r.victim)
  }

  function Bounded(c: Config, s: map<string, Entry>, r: Request): map<string, Entry> {
    Remember(c, Room(c, s, r.key, r.now, r.victim), r.key, r.now)
  }

  lemma RoomTakes(c: Config, s: map<string, Entry>, r: Request)
    requires Possible(c, s, r)
    ensures forall k :: k in Bounded(c, s, r) && k != r.key ==> k in s && Bounded(c, s, r)[k] == s[k]
    ensures forall k :: k in s && k !in Bounded(c, s, r) ==>
              && r.key !in s && |s| >= 10_000
              && (c.window == 0 || r.now >= s[k].start + c.window
                  || (k == r.victim && Full(c, s, r.key, r.now) && Oldest(Retained(c, s, r.now), k)))
  {
  }

  class RateLimiter {
    const config: Config
    var state: map<string, Entry>

    constructor (window: nat, limit: nat)
      ensures config == Config(window, limit) && state == map[]
    {
      config := Config(window, limit);
      state := map[];
    }

    method FindOldest() returns (victim: string)
      requires state != map[]
      ensures Oldest(state, victim)
    {
      var rest := state.Keys;
      victim :| victim in rest;
      rest := rest - {victim};
      while rest != {}
        invariant victim in state && rest <= state.Keys
        invariant forall k :: k in state && k !in rest ==> state[victim].start <= state[k].start
        decreases |rest|
      {
        var k :| k in rest;
        if state[k].start < state[victim].start { victim := k; }
        rest := rest - {k};
      }
    }

    /** Room for a new identity: expired entries go first, then the one closest to expiring. */
    method MakeRoom(key: string, now: int) returns (ghost victim: string)
      requires key !in state && |state| <= MAX_KEYS
      modifies this`state
      ensures Possible(config, old(state), Request(key, now, victim))
      ensures state == Room(config, old(state), key, now, victim) && |state| < MAX_KEYS
    {
      victim := "";
      if |state| < MAX_KEYS { return; }
      RetainedShrinks(config, state, now);
      state := Retained(config, state, now);
      if |state| < MAX_KEYS { return; }
      // Evicting beats refusing the newcomer, who would be locked out by others' churn.
      var k := FindOldest();
      victim := k;
      SizeOfRemoval(state, k);
      state := state - {k};
    }

    /** A request is let through, or told when to come again. */
    method Check(key: string, now: int) returns (answer: Answer, ghost victim: string)
      requires |state| <= MAX_KEYS
      modifies this`state
      ensures |state| <= MAX_KEYS
      ensures Possible(config, old(state), Request(key, now, victim))
      ensures state == Bounded(config, old(state), Request(key, now, victim))
      ensures answer.Refuse? <==> key in old(state) && config.window > 0 && now < old(state)[key].start + config.window
                                  && old(state)[key].count >= config.limit
      ensures answer.Refuse? ==> state == old(state)
                                 && answer.retryAfter == Min(config.window, old(state)[key].start + config.window - now)
      ensures answer.Pass? && key in old(state) && config.window > 0 && now < old(state)[key].start + config.window ==>
                key in state && state[key] == Entry(old(state)[key].start, old(state)[key].count + 1)
      ensures answer.Pass? && !(key in old(state) && config.window > 0 && now < old(state)[key].start + config.window) ==>
                key in state && state[key] == Entry(now, 1)
      // what is remembered of others: only a newcomer who does not fit costs anything: what has expired and, when that leaves no
      // room, the oldest of the rest
      ensures forall k :: k in state && k != key ==> k in old(state) && state[k] == old(state)[k]
      ensures forall k :: k in old(state) && k !in state ==>
                && key !in old(state) && |old(state)| >= 10_000
                && (config.window == 0 || now >= old(state)[k].start + config.window
                    || (k == victim && Full(config, old(state), key, now) && Oldest(Retained(config, old(state), now), k)))
      ensures answer == Judge(config, Get(old(state), key), now).0
    {
      ghost var before := state;
      if key in state {
        victim := "";
        var e := state[key];
        var elapsed := Max(0, now - e.start);
        if elapsed >= config.window {
          answer, e := Pass, Entry(now, 1);
        } else if e.count >= config.limit {
          answer := Refuse(config.window - elapsed);
        } else {
          answer, e := Pass, Entry(e.start, e.count + 1);
        }
        SizeOfUpdate(state, key, e);
        state := state[key := e];
      } else {
        victim := MakeRoom(key, now);
        SizeOfUpdate(state, key, Entry(now, 1));
        answer, state := Pass, state[key := Entry(now, 1)];
      }
      RoomTakes(config, before, Request(key, now, victim));
    }
  }

  lemma SizeOfUpdate(s: map<string, Entry>, key: string, e: Entry)
    ensures |s[key := e]| == if key in s then |s| else |s| + 1
  {
    if key in s {
      assert s[key := e].Keys == s.Keys;
    } else {
      assert s[key := e].Keys == s.Keys + {key};
    }
  }

  lemma SizeOfRemoval(s: map<string, Entry>, key: string)
    requires key in s
    ensures |s - {key}| == |s| - 1
  {
    assert (s - {key}).Keys == s.Keys - {key};
  }

  lemma RetainedShrinks(c: Config, s: map<string, Entry>, now: int)
    ensures |Retained(c, s, now)| <= |s|
  {
    SubsetSize(Retained(c, s, now).Keys, s.Keys);
  }

  // ----- runs ------------------------------------------------------------------------------------

  // The clock is read before the lock is taken, so the readings of a run need not be in its order.

  function Free(c: Config, rs: seq<Request>): map<string, Entry> {
    if rs == [] then map[]
    else
      var r := rs[|rs| - 1];
      Remember(c, Free(c, rs[..|rs| - 1]), r.key, r.now)
  }

  function Held(c: Config, rs: seq<Request>): map<string, Entry> {
    if rs == [] then map[] else Bounded(c, Held(c, rs[..|rs| - 1]), rs[|rs| - 1])
  }

  ghost predicate Valid(c: Config, rs: seq<Request>) {
    forall n :: 0 <= n < |rs| ==> Possible(c, Held(c, rs[..n]), rs[n])
  }

  /** No request of the run pushed `key` out. */
  ghost predicate Kept(c: Config, rs: seq<Request>, key: string) {
    forall n :: 0 <= n < |rs| && Full(c, Held(c, rs[..n]), rs[n].key, rs[n].now) ==> rs[n].victim != key
  }

  /** The two limiters remember the same of `key`, or the bounded one has dropped what no longer matters. */
  predicate Alike(c: Config, held: Option<Entry>, free: Option<Entry>, now: int) {
    held == free || (held.None? && free.Some? && Expired(c, free.value, now))
  }

  lemma AlikeJudges(c: Config, held: Option<Entry>, free: Option<Entry>, now: int)
    requires Alike(c, held, free, now)
    ensures Judge(c, held, now) == Judge(c, free, now)
  {
  }

  /** Request `n` is one of `key`, and finds gone what without a bound would still be alive. */
  predicate FindsGone(c: Config, rs: seq<Request>, n: nat, key: string)
    requires n < |rs|
  {
    rs[n].key == key && !Alike(c, Get(Held(c, rs[..n]), key), Get(Free(c, rs[..n]), key), rs[n].now)
  }

  /** So far the bound has not touched `key`. */
  ghost predicate Untouched(c: Config, rs: seq<Request>, key: string) {
    forall n :: 0 <= n < |rs| ==> !FindsGone(c, rs, n, key)
  }

  lemma UntouchedPrefix(c: Config, rs: seq<Request>, key: string)
    requires rs != [] && Untouched(c, rs, key)
    ensures Untouched(c, rs[..|rs| - 1], key) && !FindsGone(c, rs, |rs| - 1, key)
  {
    var p := rs[..|rs| - 1];
    forall n | 0 <= n < |p| ensures !FindsGone(c, p, n, key) {
      assert p[..n] == rs[..n] && p[n] == rs[n] && !FindsGone(c, rs, n, key);
    }
  }

  /** Up to the next request of `key`, the bounded limiter remembers the same of it or nothing. */
  lemma {:induction false} SameOrNothing(c: Config, rs: seq<Request>, key: string)
    requires Untouched(c, rs, key)
    ensures var held := Get(Held(c, rs), key); held == Get(Free(c, rs), key) || held.None?
  {
    if rs != [] {
      var p, r := rs[..|rs| - 1], rs[|rs| - 1];
      UntouchedPrefix(c, rs, key);
      SameOrNothing(c, p, key);
      if r.key == key {
        AlikeJudges(c, Get(Held(c, p), key), Get(Free(c, p), key), r.now);
      }
    }
  }

  // ----- exactly when the bound can be seen ------------------------------------------------------

  function Repeat(key: string, now: int, n: nat): seq<Request> {
    seq(n, _ => Request(key, now, ""))
  }

  lemma OneRepeatMore(rs: seq<Request>, key: string, now: int, k: nat)
    requires k > 0
    ensures var more := rs + Repeat(key, now, k);
            more[..|more| - 1] == rs + Repeat(key, now, k - 1) && more[|more| - 1] == Request(key, now, "")
  {
    var more := rs + Repeat(key, now, k);
    assert more[..|more| - 1] == rs + Repeat(key, now, k - 1);
  }

  /** From the first of them on, both remember the same. */
  lemma {:induction false} AlikeStaysSame(c: Config, rs: seq<Request>, key: string, now: int, k: nat)
    requires Alike(c, Get(Held(c, rs), key), Get(Free(c, rs), key), now)
    ensures var more := rs + Repeat(key, now, k); Alike(c, Get(Held(c, more), key), Get(Free(c, more), key), now)
  {
    if k == 0 {
      assert rs + Repeat(key, now, 0) == rs;
    } else {
      AlikeStaysSame(c, rs, key, now, k - 1);
      OneRepeatMore(rs, key, now, k);
      var before := rs + Repeat(key, now, k - 1);
      AlikeJudges(c, Get(Held(c, before), key), Get(Free(c, before), key), now);
    }
  }

  /** An identity that is remembered counts on from there. */
  lemma {:induction false} FreeCountsOn(c: Config, rs: seq<Request>, key: string, now: int, e: Entry, k: nat)
    requires Get(Free(c, rs), key) == Some(e) && !Expired(c, e, now) && e.count + k <= Max(c.limit, e.count)
    ensures Get(Free(c, rs + Repeat(key, now, k)), key) == Some(Entry(e.start, e.count + k))
  {
    if k == 0 {
      assert rs + Repeat(key, now, 0) == rs;
    } else {
      FreeCountsOn(c, rs, key, now, e, k - 1);
      OneRepeatMore(rs, key, now, k);
    }
  }

  /** One that is not starts again. */
  lemma {:induction false} HeldCountsOn(c: Config, rs: seq<Request>, key: string, now: int, k: nat)
    requires key !in Held(c, rs) && c.window > 0 && (k > 0 ==> k <= c.limit)
    ensures Get(Held(c, rs + Repeat(key, now, k)), key) == if k == 0 then None else Some(Entry(now, k))
  {
    if k == 0 {
      assert rs + Repeat(key, now, 0) == rs;
    } else {
      HeldCountsOn(c, rs, key, now, k - 1);
      OneRepeatMore(rs, key, now, k);
    }
  }

  /** What `key` is told at `now`, with the bound and without, after `k` requests of its own at that moment. */
  ghost predicate ToldTheSame(c: Config, rs: seq<Request>, key: string, now: int, k: nat) {
    var more := rs + Repeat(key, now, k);
    Judge(c, Get(Held(c, more), key), now).0 == Judge(c, Get(Free(c, more), key), now).0
  }

  /** While the bound has not touched `key`: whatever it asks at `now`, it is told what the limiter without a bound
      would tell it, if and only if it does not find gone an entry that would still be alive. */
  lemma UnobservableIffNothingLiveIsGone(c: Config, rs: seq<Request>, key: string, now: int)
    requires Untouched(c, rs, key)
    ensures (forall k: nat :: ToldTheSame(c, rs, key, now, k)) <==> Alike(c, Get(Held(c, rs), key), Get(Free(c, rs), key), now)
  {
    var held, free := Get(Held(c, rs), key), Get(Free(c, rs), key);
    SameOrNothing(c, rs, key);
    if Alike(c, held, free, now) {
      forall k: nat ensures ToldTheSame(c, rs, key, now, k) {
        var more := rs + Repeat(key, now, k);
        AlikeStaysSame(c, rs, key, now, k);
        AlikeJudges(c, Get(Held(c, more), key), Get(Free(c, more), key), now);
      }
    } else {
      CountsStaySmall(c, rs, key);
      var k := if free.value.count < c.limit then c.limit - free.value.count else 0;
      FreeCountsOn(c, rs, key, now, free.value, k);
      HeldCountsOn(c, rs, key, now, k);
      assert !ToldTheSame(c, rs, key, now, k);
    }
  }

  // ----- when it cannot --------------------------------------------------------------------------

  /** No request of `key` reads the clock earlier than a request of another identity that had the lock before it. */
  predicate OrderedFor(rs: seq<Request>, key: string) {
    forall m, n :: 0 <= m < n < |rs| && rs[m].key != key && rs[n].key == key ==> rs[m].now <= rs[n].now
  }

  predicate OthersBy(rs: seq<Request>, key: string, now: int) {
    forall m :: 0 <= m < |rs| && rs[m].key != key ==> rs[m].now <= now
  }

  lemma KeptPrefix(c: Config, rs: seq<Request>, key: string)
    requires rs != [] && OrderedFor(rs, key) && Kept(c, rs, key)
    ensures OrderedFor(rs[..|rs| - 1], key) && Kept(c, rs[..|rs| - 1], key)
    ensures rs[|rs| - 1].key == key ==> OthersBy(rs[..|rs| - 1], key, rs[|rs| - 1].now)
  {
    var p := rs[..|rs| - 1];
    forall n | 0 <= n < |p| ensures p[..n] == rs[..n] && p[n] == rs[n] {}
  }

  lemma {:induction false} RunsAreAlike(c: Config, rs: seq<Request>, key: string, now: int)
    requires OrderedFor(rs, key) && Kept(c, rs, key) && OthersBy(rs, key, now)
    ensures Alike(c, Get(Held(c, rs), key), Get(Free(c, rs), key), now)
  {
    if rs != [] {
      var p, r := rs[..|rs| - 1], rs[|rs| - 1];
      KeptPrefix(c, rs, key);
      var held := Held(c, p);
      assert p == rs[..|rs| - 1];
      assert Full(c, held, r.key, r.now) ==> r.victim != key;
      if r.key == key {
        RunsAreAlike(c, p, key, r.now);
        AlikeJudges(c, Get(held, key), Get(Free(c, p), key), r.now);
      } else {
        RunsAreAlike(c, p, key, now);
        if key in held && key !in Room(c, held, r.key, r.now, r.victim) {
          assert Expired(c, held[key], r.now);
        }
      }
    }
  }

  /** Whatever came before, in whichever order entries were dropped: while `key` is kept, it is told exactly
      what the limiter without a bound would tell it. */
  lemma TheBoundIsUnobservable(c: Config, rs: seq<Request>, key: string, now: int)
    requires OrderedFor(rs, key) && Kept(c, rs, key) && OthersBy(rs, key, now)
    ensures Judge(c, Get(Held(c, rs), key), now) == Judge(c, Get(Free(c, rs), key), now)
  {
    RunsAreAlike(c, rs, key, now);
    AlikeJudges(c, Get(Held(c, rs), key), Get(Free(c, rs), key), now);
  }

  /** And the bound never touches it. */
  lemma {:induction false} KeptIsUntouched(c: Config, rs: seq<Request>, key: string)
    requires OrderedFor(rs, key) && Kept(c, rs, key)
    ensures Untouched(c, rs, key)
  {
    if rs != [] {
      var p, r := rs[..|rs| - 1], rs[|rs| - 1];
      KeptPrefix(c, rs, key);
      KeptIsUntouched(c, p, key);
      forall n | 0 <= n < |rs| ensures !FindsGone(c, rs, n, key) {
        if n < |p| {
          assert p[..n] == rs[..n] && p[n] == rs[n] && !FindsGone(c, p, n, key);
        } else if r.key == key {
          RunsAreAlike(c, p, key, r.now);
        }
      }
    }
  }

  // ----- no weaker order is enough ---------------------------------------------------------------

  /** As many different identities as there are lengths. */
  function Name(i: nat): string {
    seq(i, _ => 'x')
  }

  function House(start: int, n: nat): seq<Request> {
    seq(n, i requires 0 <= i => Request(Name(i), start, ""))
  }

  lemma {:induction false} HouseFills(c: Config, start: int, n: nat)
    requires n <= MAX_KEYS
    ensures var held := Held(c, House(start, n));
            && Free(c, House(start, n)) == held && |held| == n
            && (forall k :: k in held <==> |k| < n && k == Name(|k|)) && (forall k :: k in held ==> held[k] == Entry(start, 1))
  {
    if n > 0 {
      var rs := House(start, n);
      assert rs[..n - 1] == House(start, n - 1) && rs[n - 1] == Request(Name(n - 1), start, "");
      HouseFills(c, start, n - 1);
      var before := Held(c, House(start, n - 1));
      assert Name(n - 1) !in before;
      SizeOfUpdate(before, Name(n - 1), Entry(start, 1));
    }
  }

  lemma HouseIsRoomy(c: Config, start: int, m: nat)
    requires m < MAX_KEYS
    ensures !Full(c, Held(c, House(start, m)), Name(m), start)
  {
    HouseFills(c, start, m);
  }

  /** A full house, and a newcomer by whose reading everybody else has expired. */
  function Crowd(start: int, late: int): seq<Request> {
    House(start, MAX_KEYS) + [Request(Name(MAX_KEYS), late, "")]
  }

  lemma CrowdIsGone(c: Config, start: int, late: int)
    requires late - start >= c.window > 0
    ensures Held(c, Crowd(start, late)) == map[Name(MAX_KEYS) := Entry(late, 1)]
    ensures Name(0) in Free(c, Crowd(start, late)) && Free(c, Crowd(start, late))[Name(0)] == Entry(start, 1)
    ensures !Full(c, Held(c, House(start, MAX_KEYS)), Name(MAX_KEYS), late)
  {
    var house, rs := House(start, MAX_KEYS), Crowd(start, late);
    HouseFills(c, start, MAX_KEYS);
    var full := Held(c, house);
    assert rs[..MAX_KEYS] == house && rs[MAX_KEYS] == Request(Name(MAX_KEYS), late, "");
    assert |Name(MAX_KEYS)| == MAX_KEYS && Name(MAX_KEYS) !in full && |Name(0)| == 0;
    assert Retained(c, full, late) == map[];
  }

  lemma CrowdIsKept(c: Config, start: int, late: int)
    requires late - start >= c.window > 0
    ensures Valid(c, Crowd(start, late)) && Kept(c, Crowd(start, late), Name(0)) && OrderedFor(Crowd(start, late), Name(0))
  {
    hide Full, Held;
    var rs := Crowd(start, late);
    CrowdIsGone(c, start, late);
    forall n | 0 <= n < |rs| ensures !Full(c, Held(c, rs[..n]), rs[n].key, rs[n].now) {
      assert rs[..n] == House(start, n);
      if n < MAX_KEYS {
        HouseIsRoomy(c, start, n);
      }
    }
    assert forall n :: 0 <= n < |rs| ==> |rs[n].key| == n;
  }

  /** Whatever two readings come in the wrong order: there is a run, in order before that, in which the later of them
      makes room for a newcomer, and an identity that reads the earlier one after it finds its live entry gone. */
  lemma AnEarlierReadingShowsTheBound(c: Config, early: int, late: int) returns (rs: seq<Request>, key: string)
    requires c.window > 0 && early < late
    ensures Valid(c, rs) && Kept(c, rs, key) && OrderedFor(rs, key) && rs != [] && rs[|rs| - 1].now == late
    ensures forall n :: 0 <= n < |rs| - 1 ==> rs[n].now <= early
    ensures exists k: nat :: !ToldTheSame(c, rs, key, early, k)
  {
    var start := Min(early, late - c.window);
    rs, key := Crowd(start, late), Name(0);
    CrowdIsGone(c, start, late);
    CrowdIsKept(c, start, late);
    KeptIsUntouched(c, rs, key);
    assert Name(MAX_KEYS) != key by { assert |Name(MAX_KEYS)| != |key|; }
    UnobservableIffNothingLiveIsGone(c, rs, key, early);
  }

  // ----- never too many --------------------------------------------------------------------------

  lemma {:induction false} NeverTooMany(c: Config, rs: seq<Request>)
    requires Valid(c, rs)
    ensures |Held(c, rs)| <= MAX_KEYS
  {
    if rs != [] {
      var p, r := rs[..|rs| - 1], rs[|rs| - 1];
      forall n | 0 <= n < |p| ensures Possible(c, Held(c, p[..n]), p[n]) {
        assert p[..n] == rs[..n] && p[n] == rs[n];
      }
      NeverTooMany(c, p);
      var held := Held(c, p);
      assert Possible(c, held, r);
      RetainedShrinks(c, held, r.now);
      if Full(c, held, r.key, r.now) {
        SizeOfRemoval(Retained(c, held, r.now), r.victim);
      }
      var room := Room(c, held, r.key, r.now, r.victim);
      SizeOfUpdate(room, r.key, Judge(c, Get(room, r.key), r.now).1);
    }
  }

  // ----- how much an identity gets through -------------------------------------------------------

  /** How many of the requests of `key` from number `from` on were let through. */
  function Passes(c: Config, rs: seq<Request>, key: string, from: nat): nat {
    if |rs| <= from then 0
    else
      var p, r := rs[..|rs| - 1], rs[|rs| - 1];
      Passes(c, p, key, from) + (if r.key == key && Judge(c, Get(Held(c, p), key), r.now).0.Pass? then 1 else 0)
  }

  /** Between the first entry of the span, which began before it, and the next, which outlives it. */
  predicate Counted(c: Config, e: Option<Entry>, passes: nat, since: int) {
    && (e.None? ==> passes == 0)
    && (e.Some? ==>
          && 1 <= e.value.count <= Max(c.limit, 1)
          && passes <= e.value.count - 1 + (if e.value.start < since then 0 else Max(c.limit, 1)))
  }

  lemma {:induction false} CountsStaySmall(c: Config, rs: seq<Request>, key: string)
    ensures key in Free(c, rs) ==> 1 <= Free(c, rs)[key].count <= Max(c.limit, 1)
  {
    if rs != [] {
      CountsStaySmall(c, rs[..|rs| - 1], key);
    }
  }

  lemma CountedStep(c: Config, e: Option<Entry>, passes: nat, since: int, now: int)
    requires Counted(c, e, passes, since) && since <= now < since + c.window
    ensures var (answer, next) := Judge(c, e, now); Counted(c, Some(next), passes + (if answer.Pass? then 1 else 0), since)
  {
  }

  /** The requests of `key` from number `from` on read the clock within one window from `since`. */
  predicate Within(c: Config, rs: seq<Request>, key: string, from: nat, since: int) {
    forall n :: from <= n < |rs| && rs[n].key == key ==> since <= rs[n].now < since + c.window
  }

  lemma {:induction false} SpanIsCounted(c: Config, rs: seq<Request>, key: string, from: nat, since: int)
    requires Untouched(c, rs, key) && Within(c, rs, key, from, since)
    ensures Counted(c, Get(Free(c, rs), key), Passes(c, rs, key, from), since)
    decreases |rs|
  {
    CountsStaySmall(c, rs, key);
    if |rs| > from {
      var p, r := rs[..|rs| - 1], rs[|rs| - 1];
      UntouchedPrefix(c, rs, key);
      SpanIsCounted(c, p, key, from, since);
      if r.key == key {
        AlikeJudges(c, Get(Held(c, p), key), Get(Free(c, p), key), r.now);
        CountedStep(c, Get(Free(c, p), key), Passes(c, p, key, from), since, r.now);
      }
    }
  }

  /** In any span shorter than the window, an identity that the bound does not touch passes fewer than twice its
      limit, in whatever order the clock was read. */
  lemma FewerThanTwiceTheLimit(c: Config, rs: seq<Request>, key: string, from: nat, since: int)
    requires Untouched(c, rs, key) && Within(c, rs, key, from, since)
    ensures Passes(c, rs, key, from) <= 2 * Max(c.limit, 1) - 1
  {
    SpanIsCounted(c, rs, key, from, since);
  }

  /** One request to start the window, the rest of the allowance as it ends, and a whole one as the next begins. */
  function Burst(c: Config, key: string, late: nat, next: nat): seq<Request> {
    [Request(key, 0, "")] + Repeat(key, c.window - 1, late) + Repeat(key, c.window, next)
  }

  lemma OneKey(c: Config, key: string, e: Entry, now: int)
    ensures Bounded(c, map[key := e], Request(key, now, "")) == map[key := Judge(c, Some(e), now).1]
  {
  }

  lemma FirstKey(c: Config, key: string)
    ensures Bounded(c, map[], Request(key, 0, "")) == map[key := Entry(0, 1)]
  {
    var empty: map<string, Entry> := map[];
    assert Room(c, empty, key, 0, "") == empty;
  }

  lemma BurstIsOneLonger(c: Config, key: string, late: nat, next: nat)
    requires c.window >= 2 && (next > 0 || late > 0)
    ensures var rs := Burst(c, key, late, next);
            && rs[..|rs| - 1] == (if next > 0 then Burst(c, key, late, next - 1) else Burst(c, key, late - 1, 0))
            && rs[|rs| - 1] == Request(key, if next > 0 then c.window else c.window - 1, "")
  {
  }

  lemma OneMoreRequest(c: Config, rs: seq<Request>, before: seq<Request>, key: string, e: Entry, now: int)
    requires |rs| > 1 && before == rs[..|rs| - 1] && rs[|rs| - 1] == Request(key, now, "") && Held(c, before) == map[key := e]
    ensures Held(c, rs) == map[key := Judge(c, Some(e), now).1]
    ensures Passes(c, rs, key, 1) == Passes(c, before, key, 1) + if Judge(c, Some(e), now).0.Pass? then 1 else 0
  {
    OneKey(c, key, e, now);
  }

  predicate BurstOk(c: Config, key: string, late: nat, next: nat) {
    && Held(c, Burst(c, key, late, next)) == map[key := if next > 0 then Entry(c.window, next) else Entry(0, 1 + late)]
    && Passes(c, Burst(c, key, late, next), key, 1) == late + next
  }

  lemma NoBurst(c: Config, key: string)
    ensures BurstOk(c, key, 0, 0)
  {
    var rs := Burst(c, key, 0, 0);
    assert rs == [Request(key, 0, "")] && rs[..0] == [];
    FirstKey(c, key);
  }

  lemma LateBurst(c: Config, key: string, late: nat)
    requires c.window >= 2 && 0 < late < c.limit && BurstOk(c, key, late - 1, 0)
    ensures BurstOk(c, key, late, 0)
  {
    BurstIsOneLonger(c, key, late, 0);
    OneMoreRequest(c, Burst(c, key, late, 0), Burst(c, key, late - 1, 0), key, Entry(0, late), c.window - 1);
  }

  lemma NextBurst(c: Config, key: string, late: nat, next: nat)
    requires c.window >= 2 && 0 < next <= c.limit && BurstOk(c, key, late, next - 1)
    ensures BurstOk(c, key, late, next)
  {
    BurstIsOneLonger(c, key, late, next);
    var e := if next > 1 then Entry(c.window, next - 1) else Entry(0, 1 + late);
    OneMoreRequest(c, Burst(c, key, late, next), Burst(c, key, late, next - 1), key, e, c.window);
  }

  lemma {:induction false} BurstPasses(c: Config, key: string, late: nat, next: nat)
    requires c.window >= 2 && late < c.limit && next <= c.limit
    ensures BurstOk(c, key, late, next)
    decreases late + next
  {
    if next > 0 {
      BurstPasses(c, key, late, next - 1);
      NextBurst(c, key, late, next);
    } else if late > 0 {
      BurstPasses(c, key, late - 1, 0);
      LateBurst(c, key, late);
    } else {
      NoBurst(c, key);
    }
  }

  /** And that is what it can get through. */
  lemma NearlyTwiceTheLimit(c: Config, key: string)
    requires c.window >= 2 && c.limit >= 1
    ensures var rs := Burst(c, key, c.limit - 1, c.limit);
            rs[|rs| - 1].now - rs[1].now < c.window && Passes(c, rs, key, 1) == 2 * c.limit - 1
  {
    BurstPasses(c, key, c.limit - 1, c.limit);
  }
}
