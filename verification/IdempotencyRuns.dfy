/** Threads that share one idempotency cache: lookups that block and wake, stores and
    cancels, over a clock that never goes back. */
module IdempotencyRuns {
  import opened Basics
  import opened Idempotency

  type Tid = nat

  /** A blocked lookup: the key, the wait deadline, and the reservation it met. */
  datatype Waiter = Waiter(key: Key, deadline: Time, reservation: Time)

  datatype System = System(cache: Cache, waiters: map<Tid, Waiter>, clock: Time)

  /** Each operation carries the clock readings it makes, in order. */
  datatype Op =
    | Lookup(w: Tid, key: Key, now: Time, later: Time)
    | Wake(w: Tid, polled: Time, checked: Time, swept: Time, reserved: Time)
    | Put(key: Key, entry: Entry, at: Time)
    | Drop(key: Key, at: Time)

  function Start(capacity: nat, maxWait: nat, clock: Time): System {
    System(Cache(capacity, maxWait, [], map[]), map[], clock)
  }

  /** The first and the last clock reading of an operation. */
  function First(op: Op): Time {
    match op
    case Lookup(_, _, now, _) => now
    case Wake(_, polled, _, _, _) => polled
    case Put(_, _, at) => at
    case Drop(_, at) => at
  }

  function Last(op: Op): Time {
    match op
    case Lookup(_, _, _, later) => later
    case Wake(_, _, _, _, reserved) => reserved
    case Put(_, _, at) => at
    case Drop(_, at) => at
  }

  predicate Ordered(op: Op) {
    match op
    case Lookup(_, _, now, later) => now <= later
    case Wake(_, polled, checked, swept, reserved) => polled <= checked <= swept <= reserved
    case Put(_, _, _) => true
    case Drop(_, _) => true
  }

  /** A blocked thread goes on when its predicate holds or its deadline has passed. */
  predicate Enabled(s: System, op: Op) {
    && s.clock <= First(op) && Ordered(op)
    && match op
       case Lookup(w, _, _, _) => w !in s.waiters
       case Wake(w, polled, _, _, _) =>
         w in s.waiters && (WakeReady(s.cache, s.waiters[w].key, polled) || s.waiters[w].deadline <= polled)
       case Put(_, _, _) => s.cache.capacity >= 1
       case Drop(_, _) => true
  }

  /** The answer a lookup gives in this operation; `Wait` when it blocks. */
  function AnswerOf(s: System, op: Op): Answer
    requires Enabled(s, op)
  {
    match op
    case Lookup(_, k, now, later) => Begin(s.cache, k, now, later).1
    case Wake(w, polled, checked, swept, reserved) =>
      Resume(s.cache, s.waiters[w].key, polled, checked, swept, reserved).1
    case Put(_, _, _) => Miss
    case Drop(_, _) => Miss
  }

  function Step(s: System, op: Op): System
    requires Enabled(s, op)
  {
    match op
    case Lookup(w, k, now, later) =>
      var (cache, answer) := Begin(s.cache, k, now, later);
      var waiters := if answer.Wait? && k in cache.inFlight
                     then s.waiters[w := Waiter(k, answer.deadline, cache.inFlight[k])] else s.waiters;
      System(cache, waiters, later)
    case Wake(w, polled, checked, swept, reserved) =>
      System(Resume(s.cache, s.waiters[w].key, polled, checked, swept, reserved).0, s.waiters - {w}, reserved)
    case Put(k, e, at) => System(Store(s.cache, k, e), s.waiters, at)
    case Drop(k, at) => System(Cancel(s.cache, k), s.waiters, at)
  }

  predicate Legal(s: System, ops: seq<Op>)
    decreases |ops|
  {
    ops == [] || (Enabled(s, ops[0]) && Legal(Step(s, ops[0]), ops[1..]))
  }

  function After(s: System, ops: seq<Op>): System
    requires Legal(s, ops)
    decreases |ops|
  {
    if ops == [] then s else After(Step(s, ops[0]), ops[1..])
  }

  lemma {:induction false} Split(s: System, a: seq<Op>, b: seq<Op>)
    ensures Legal(s, a + b) <==> Legal(s, a) && Legal(After(s, a), b)
    ensures Legal(s, a + b) ==> After(s, a + b) == After(After(s, a), b)
    decreases |a|
  {
    if a == [] {
      assert a + b == b;
    } else {
      assert (a + b)[0] == a[0] && (a + b)[1..] == a[1..] + b;
      if Enabled(s, a[0]) { Split(Step(s, a[0]), a[1..], b); }
    }
  }

  // ----- What every state keeps ---------------------------------------------------------

  /** Unique keys within the capacity, and no reservation further away than the longest wait. */
  predicate Inv(s: System) {
    && UniqueKeys(s.cache.lru) && |s.cache.lru| <= s.cache.capacity
    && (forall k <- s.cache.inFlight :: k != "" && s.cache.inFlight[k] <= s.clock + s.cache.maxWait)
    && (forall w <- s.waiters :: s.waiters[w].deadline == s.waiters[w].reservation)
  }

  lemma PromoteKeeps(lru: seq<Pair>, k: Key, e: Entry)
    requires UniqueKeys(lru) && Find(lru, k).Some?
    ensures UniqueKeys(Promote(lru, k, e)) && |Promote(lru, k, e)| == |lru|
  {
    ForgetOne(lru, k);
  }

  lemma StoreKeeps(c: Cache, k: Key, e: Entry)
    requires c.capacity >= 1 && UniqueKeys(c.lru) && |c.lru| <= c.capacity
    ensures UniqueKeys(Store(c, k, e).lru) && |Store(c, k, e).lru| <= c.capacity
  {
    ForgetOne(c.lru, k);
  }

  lemma InvStep(s: System, op: Op)
    requires Inv(s) && Enabled(s, op)
    ensures Inv(Step(s, op)) && Step(s, op).clock == Last(op) >= s.clock
    ensures Step(s, op).cache.capacity == s.cache.capacity && Step(s, op).cache.maxWait == s.cache.maxWait
  {
    var k := if op.Wake? then s.waiters[op.w].key else op.key;
    ForgetOne(s.cache.lru, k);
    if Find(s.cache.lru, k).Some? { PromoteKeeps(s.cache.lru, k, Find(s.cache.lru, k).value); }
    if op.Put? { StoreKeeps(s.cache, k, op.entry); }
  }

  lemma {:induction false} InvRun(s: System, ops: seq<Op>)
    requires Inv(s) && Legal(s, ops)
    ensures Inv(After(s, ops)) && After(s, ops).clock >= s.clock
    ensures After(s, ops).cache.capacity == s.cache.capacity && After(s, ops).cache.maxWait == s.cache.maxWait
    decreases |ops|
  {
    if ops != [] {
      InvStep(s, ops[0]);
      InvRun(Step(s, ops[0]), ops[1..]);
    }
  }

  // ----- Reservation window -------------------------------------------------------------

  predicate Ends(op: Op, k: Key) {
    (op.Put? || op.Drop?) && op.key == k
  }

  /** Until `d` the key is reserved until `d`, and nothing is cached for it. */
  predicate Kept(s: System, k: Key, d: Time) {
    s.clock < d ==> k in s.cache.inFlight && s.cache.inFlight[k] == d && Find(s.cache.lru, k) == None
  }

  /** `w` waits on that reservation. */
  predicate Held(s: System, w: Tid, k: Key, d: Time) {
    w in s.waiters && s.waiters[w].key == k && s.waiters[w].deadline == d && Kept(s, k, d)
  }

  lemma StillAbsent(lru: seq<Pair>, k: Key, x: Key, capacity: nat)
    requires Find(lru, k) == None && x != k && capacity >= 1
    ensures Find(Forget(lru, x), k) == None
    ensures forall e :: Find(Promote(lru, x, e), k) == None
    ensures forall e :: Find([Pair(x, e)] + Evict(Forget(lru, x), capacity), k) == None
  {
    ForgetOther(lru, x, k);
    var rest := Forget(lru, x);
    FindNone(rest, k);
    FindNone(Evict(rest, capacity), k);
    forall e
      ensures Find([Pair(x, e)] + rest, k) == None && Find([Pair(x, e)] + Evict(rest, capacity), k) == None
    {
      assert ([Pair(x, e)] + rest)[1..] == rest;
      assert ([Pair(x, e)] + Evict(rest, capacity))[1..] == Evict(rest, capacity);
    }
  }

  lemma KeptStep(s: System, op: Op, k: Key, d: Time)
    requires Inv(s) && Enabled(s, op) && Kept(s, k, d) && !Ends(op, k) && k != "" && s.cache.capacity >= 1
    ensures Kept(Step(s, op), k, d)
  {
    var x := if op.Wake? then s.waiters[op.w].key else op.key;
    if Last(op) < d {
      FindNone(s.cache.lru, k);
      if x != k { StillAbsent(s.cache.lru, k, x, s.cache.capacity); }
    }
  }

  lemma HeldStep(s: System, op: Op, w: Tid, k: Key, d: Time)
    requires Inv(s) && Enabled(s, op) && Held(s, w, k, d) && !Ends(op, k) && k != ""
    requires !(op.Wake? && op.w == w) && s.cache.capacity >= 1
    ensures Held(Step(s, op), w, k, d)
  {
    KeptStep(s, op, k, d);
  }

  lemma {:induction false} HeldRun(s: System, ops: seq<Op>, w: Tid, k: Key, d: Time)
    requires Inv(s) && Legal(s, ops) && Held(s, w, k, d) && k != "" && s.cache.capacity >= 1
    requires forall i :: 0 <= i < |ops| ==> !Ends(ops[i], k) && !(ops[i].Wake? && ops[i].w == w)
    ensures Held(After(s, ops), w, k, d)
    decreases |ops|
  {
    if ops != [] {
      HeldStep(s, ops[0], w, k, d);
      InvStep(s, ops[0]);
      HeldRun(Step(s, ops[0]), ops[1..], w, k, d);
    }
  }

  /** A lookup that finds its key reserved until `d` is answered from the cache or blocks. */
  lemma Blocked(s: System, lookup: Op, d: Time)
    requires Inv(s) && lookup.Lookup? && Enabled(s, lookup) && Reserved(s, lookup, d)
    ensures !AnswerOf(s, lookup).Miss?
    ensures AnswerOf(s, lookup).Wait? ==> AnswerOf(s, lookup).deadline == d <= lookup.now + s.cache.maxWait
    ensures AnswerOf(s, lookup).Wait? ==> Held(Step(s, lookup), lookup.w, lookup.key, d)
  {
    InvStep(s, lookup);
    ForgetOne(s.cache.lru, lookup.key);
    FindNone(Forget(s.cache.lru, lookup.key), lookup.key);
  }

  /** The key of a lookup is reserved until `d`, which is still ahead. */
  predicate Reserved(s: System, lookup: Op, d: Time)
    requires lookup.Lookup?
  {
    lookup.key in s.cache.inFlight && lookup.now < d == s.cache.inFlight[lookup.key]
  }

  predicate WakeOf(op: Op, w: Tid) {
    op.Wake? && op.w == w
  }

  /** In every run, a lookup that finds its key reserved until `d` does not answer a miss, and
      if it blocks it does so until `d`, which is within the longest wait. */
  lemma ReservedNeverMisses(capacity: nat, maxWait: nat, t0: Time, pre: seq<Op>, lookup: Op, d: Time)
    requires Legal(Start(capacity, maxWait, t0), pre) && lookup.Lookup?
    requires Enabled(After(Start(capacity, maxWait, t0), pre), lookup)
    requires Reserved(After(Start(capacity, maxWait, t0), pre), lookup, d)
    ensures var answer := AnswerOf(After(Start(capacity, maxWait, t0), pre), lookup);
            !answer.Miss? && (answer.Wait? ==> answer.deadline == d <= lookup.now + maxWait)
  {
    InvRun(Start(capacity, maxWait, t0), pre);
    Blocked(After(Start(capacity, maxWait, t0), pre), lookup, d);
  }

  /** Reservation window, in every run: a lookup that blocks on a reservation until `d` goes on
      before `d` only if the key was stored or cancelled in between. */
  lemma ReservationWindow(
    capacity: nat, maxWait: nat, t0: Time, pre: seq<Op>, lookup: Op, d: Time, mid: seq<Op>, wake: Op)
    requires capacity >= 1 && lookup.Lookup? && WakeOf(wake, lookup.w)
    requires Legal(Start(capacity, maxWait, t0), pre)
    requires Legal(After(Start(capacity, maxWait, t0), pre), [lookup] + (mid + [wake]))
    requires Reserved(After(Start(capacity, maxWait, t0), pre), lookup, d)
    requires forall i :: 0 <= i < |mid| ==> !WakeOf(mid[i], lookup.w)
    ensures AnswerOf(After(Start(capacity, maxWait, t0), pre), lookup).Wait? ==>
              wake.polled >= d || exists i :: 0 <= i < |mid| && Ends(mid[i], lookup.key)
  {
    var s := After(Start(capacity, maxWait, t0), pre);
    InvRun(Start(capacity, maxWait, t0), pre);
    assert ([lookup] + (mid + [wake]))[1..] == mid + [wake];
    Blocked(s, lookup, d);
    InvStep(s, lookup);
    if AnswerOf(s, lookup).Wait? && forall i :: 0 <= i < |mid| ==> !Ends(mid[i], lookup.key) {
      HeldUntil(Step(s, lookup), mid, wake, lookup.key, d);
    }
  }

  lemma HeldUntil(s: System, mid: seq<Op>, wake: Op, k: Key, d: Time)
    requires Inv(s) && wake.Wake? && Held(s, wake.w, k, d) && k != "" && s.cache.capacity >= 1
    requires Legal(s, mid + [wake])
    requires forall i :: 0 <= i < |mid| ==> !Ends(mid[i], k) && !WakeOf(mid[i], wake.w)
    ensures wake.polled >= d
  {
    Split(s, mid, [wake]);
    HeldRun(s, mid, wake.w, k, d);
    assert Enabled(After(s, mid), wake);
  }

  /** At most one executor is not promised. In this run three threads ask for one key and the
      first, which executes, cancels; then both others go on, one after the other, and both
      answer a miss, so they execute as well. */
  lemma CancelReleasesEveryWaiter(capacity: nat, maxWait: nat, k: Key, t: Time)
    requires maxWait >= 1 && k != ""
    ensures var s := Start(capacity, maxWait, t);
            var ops := [Lookup(0, k, t, t), Lookup(1, k, t, t), Lookup(2, k, t, t), Drop(k, t)];
            var one, two := Wake(1, t, t, t, t), Wake(2, t, t, t, t);
            && Enabled(s, ops[0]) && AnswerOf(s, ops[0]) == Miss
            && Legal(s, ops) && Enabled(After(s, ops), one) && AnswerOf(After(s, ops), one) == Miss
            && Enabled(Step(After(s, ops), one), two) && AnswerOf(Step(After(s, ops), one), two) == Miss
  {
    var ops := [Lookup(0, k, t, t), Lookup(1, k, t, t), Lookup(2, k, t, t), Drop(k, t)];
    var s0 := Start(capacity, maxWait, t);
    var s1 := Step(s0, ops[0]);
    var s2 := Step(s1, ops[1]);
    var s3 := Step(s2, ops[2]);
    var s4 := Step(s3, ops[3]);
    var waiter := Waiter(k, t + maxWait, t + maxWait);
    assert s3.waiters == map[1 := waiter, 2 := waiter];
    assert s4.cache == s0.cache && s4.waiters == s3.waiters;
    assert ops[1..] == [ops[1], ops[2], ops[3]] && ops[1..][1..] == [ops[2], ops[3]];
    assert ops[1..][1..][1..] == [ops[3]] && [ops[3]][1..] == [];
    assert Legal(s4, []) && Legal(s3, [ops[3]]) && Legal(s2, [ops[2], ops[3]]) && Legal(s1, ops[1..]);
    assert After(s4, []) == s4 && After(s3, [ops[3]]) == s4 && After(s2, [ops[2], ops[3]]) == s4;
    assert After(s1, ops[1..]) == s4 && After(s0, ops) == s4;
    assert Step(s4, Wake(1, t, t, t, t)).cache == s4.cache;
  }
}
