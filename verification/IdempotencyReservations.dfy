/** Reservations: who holds a key, until when, and what that keeps out. */
module IdempotencyReservations {
  import opened Basics
  import opened Idempotency
  import opened IdempotencyRuns
  import opened IdempotencyLru

  // ----- The reservation of a key -------------------------------------------------------

  function BookedUntil(s: System, k: Key): Option<Time> {
    if k in s.cache.inFlight then Some(s.cache.inFlight[k]) else None
  }

  /** The reservation of `k` told from an operation and its answer alone: a lookup that misses books
      the key for the longest wait from its reading on; so does a waiter that misses and finds the
      booking expired, from its last reading on; a store or a cancel ends it. */
  function Book(booked: Option<Time>, s: System, op: Op, k: Key): Option<Time>
    requires Enabled(s, op)
  {
    match op
    case Put(x, _, _) => if x == k then None else booked
    case Drop(x, _) => if x == k then None else booked
    case Lookup(_, x, now, _) => if x == k && AnswerOf(s, op).Miss? then Some(now + s.cache.maxWait) else booked
    case Wake(w, _, _, swept, reserved) =>
      if s.waiters[w].key == k && AnswerOf(s, op).Miss? && booked.Some? && booked.value <= swept
      then Some(reserved + s.cache.maxWait) else booked
  }

  function Bookings(booked: Option<Time>, s: System, ops: seq<Op>, k: Key): Option<Time>
    requires Legal(s, ops)
    decreases |ops|
  {
    if ops == [] then booked else Bookings(Book(booked, s, ops[0], k), Step(s, ops[0]), ops[1..], k)
  }

  lemma MissReserves(s: System, lookup: Op)
    requires lookup.Lookup? && lookup.key != "" && Enabled(s, lookup) && AnswerOf(s, lookup).Miss?
    ensures BookedUntil(Step(s, lookup), lookup.key) == Some(lookup.now + s.cache.maxWait)
  {
  }

  lemma BookStep(s: System, op: Op, k: Key)
    requires Enabled(s, op) && k != ""
    ensures BookedUntil(Step(s, op), k) == Book(BookedUntil(s, k), s, op, k)
  {
  }

  lemma {:induction false} BookRun(s: System, ops: seq<Op>, k: Key)
    requires Legal(s, ops) && k != ""
    ensures BookedUntil(After(s, ops), k) == Bookings(BookedUntil(s, k), s, ops, k)
    decreases |ops|
  {
    if ops != [] {
      BookStep(s, ops[0], k);
      BookRun(Step(s, ops[0]), ops[1..], k);
    }
  }

  /** In every run the cache holds exactly the reservations that operations and answers account
      for; the empty key has none. */
  lemma ReservationsFollow(capacity: nat, maxWait: nat, t0: Time, ops: seq<Op>, k: Key)
    requires Legal(Start(capacity, maxWait, t0), ops)
    ensures BookedUntil(After(Start(capacity, maxWait, t0), ops), k)
         == if k == "" then None else Bookings(None, Start(capacity, maxWait, t0), ops, k)
  {
    if k == "" {
      InvRun(Start(capacity, maxWait, t0), ops);
    } else {
      BookRun(Start(capacity, maxWait, t0), ops, k);
    }
  }

  /** A store releases its key and everybody who waits for it: in every run, after a store each
      waiter of the key can go on at once, and hits the entry as long as it is live. */
  lemma StoreReleasesWaiters(
    capacity: nat, maxWait: nat, t0: Time, ops: seq<Op>, put: Op, w: Tid, at: Time)
    requires Legal(Start(capacity, maxWait, t0), ops) && put.Put? && put.key != ""
    requires Enabled(After(Start(capacity, maxWait, t0), ops), put) && put.at <= at
    requires var s := After(Start(capacity, maxWait, t0), ops); w in s.waiters && s.waiters[w].key == put.key
    ensures var s := Step(After(Start(capacity, maxWait, t0), ops), put); var wake := Wake(w, at, at, at, at);
            && BookedUntil(s, put.key) == None && Enabled(s, wake)
            && (AnswerOf(s, wake) == if put.entry.expiresAt > at then Hit(put.entry) else Miss)
  {
  }

  // ----- A second miss ------------------------------------------------------------------

  /** Until `d`, whoever waits for `k` waits until `d` or was waiting in `earlier` already. */
  predicate OnlyOld(s: System, k: Key, d: Time, earlier: map<Tid, Waiter>) {
    s.clock < d ==> forall w <- s.waiters :: s.waiters[w].key == k ==>
      s.waiters[w].deadline == d || (w in earlier && s.waiters[w] == earlier[w])
  }

  lemma OnlyOldStep(s: System, op: Op, k: Key, d: Time, earlier: map<Tid, Waiter>)
    requires Inv(s) && Enabled(s, op) && Kept(s, k, d) && OnlyOld(s, k, d, earlier) && k != ""
    ensures OnlyOld(Step(s, op), k, d, earlier)
  {
    InvStep(s, op);
  }

  lemma {:induction false} KeptRun(s: System, ops: seq<Op>, k: Key, d: Time, earlier: map<Tid, Waiter>)
    requires Inv(s) && s.cache.capacity >= 1 && Legal(s, ops) && k != ""
    requires Kept(s, k, d) && OnlyOld(s, k, d, earlier) && forall i :: 0 <= i < |ops| ==> !Ends(ops[i], k)
    ensures Kept(After(s, ops), k, d) && OnlyOld(After(s, ops), k, d, earlier)
    decreases |ops|
  {
    if ops != [] {
      KeptStep(s, ops[0], k, d);
      OnlyOldStep(s, ops[0], k, d, earlier);
      InvStep(s, ops[0]);
      KeptRun(Step(s, ops[0]), ops[1..], k, d, earlier);
    }
  }

  predicate AsksFor(s: System, op: Op, k: Key)
    requires Enabled(s, op)
  {
    (op.Lookup? || op.Wake?) && Asked(s, op) == k
  }

  /** A lookup of a key that is kept does not miss, unless it waited before the reservation. */
  lemma KeptAnswers(s: System, again: Op, k: Key, d: Time, earlier: map<Tid, Waiter>)
    requires Kept(s, k, d) && OnlyOld(s, k, d, earlier) && Enabled(s, again) && k != ""
    requires AsksFor(s, again, k) && AnswerOf(s, again).Miss? && First(again) < d
    ensures again.Wake? && again.w in earlier && s.waiters[again.w] == earlier[again.w]
  {
  }

  /** How long a miss keeps others out: after a miss that leaves `k` reserved until `d`, another
      lookup of `k` misses before `d` only if `k` was stored or cancelled in between, or if it was
      waiting already when the first one answered. */
  lemma StandingReservation(
    capacity: nat, maxWait: nat, t0: Time, pre: seq<Op>, first: Op, mid: seq<Op>, again: Op, k: Key, d: Time)
    requires capacity >= 1 && k != "" && Legal(Start(capacity, maxWait, t0), pre)
    requires Enabled(After(Start(capacity, maxWait, t0), pre), first)
    requires AsksFor(After(Start(capacity, maxWait, t0), pre), first, k)
    requires AnswerOf(After(Start(capacity, maxWait, t0), pre), first).Miss?
    requires var s := Step(After(Start(capacity, maxWait, t0), pre), first);
             && k in s.cache.inFlight && s.cache.inFlight[k] == d
             && Legal(s, mid) && Enabled(After(s, mid), again) && First(again) < d
             && AsksFor(After(s, mid), again, k) && AnswerOf(After(s, mid), again).Miss?
    ensures var s := Step(After(Start(capacity, maxWait, t0), pre), first);
            || (exists i :: 0 <= i < |mid| && Ends(mid[i], k))
            || (again.Wake? && again.w in s.waiters && After(s, mid).waiters[again.w] == s.waiters[again.w])
  {
    var before := After(Start(capacity, maxWait, t0), pre);
    var s := Step(before, first);
    InvRun(Start(capacity, maxWait, t0), pre);
    InvStep(before, first);
    LookupList(before, first);
    ForgetOne(before.cache.lru, k);
    FindNone(s.cache.lru, k);
    if forall i :: 0 <= i < |mid| ==> !Ends(mid[i], k) {
      KeptRun(s, mid, k, d, s.waiters);
      KeptAnswers(After(s, mid), again, k, d, s.waiters);
    }
  }

  /** A lookup that misses has the key for the longest wait from its reading on: in every run, it
      leaves `k` reserved until then, and before that another lookup of `k` misses only if `k` was
      stored or cancelled in between, or if it was waiting already. */
  lemma SecondMiss(capacity: nat, maxWait: nat, t0: Time, pre: seq<Op>, first: Op, mid: seq<Op>, again: Op)
    requires capacity >= 1 && first.Lookup? && first.key != "" && Legal(Start(capacity, maxWait, t0), pre)
    requires Enabled(After(Start(capacity, maxWait, t0), pre), first)
    requires AnswerOf(After(Start(capacity, maxWait, t0), pre), first).Miss?
    requires var s := Step(After(Start(capacity, maxWait, t0), pre), first);
             && Legal(s, mid) && Enabled(After(s, mid), again) && First(again) < first.now + maxWait
             && AsksFor(After(s, mid), again, first.key) && AnswerOf(After(s, mid), again).Miss?
    ensures var s := Step(After(Start(capacity, maxWait, t0), pre), first);
            && BookedUntil(s, first.key) == Some(first.now + maxWait)
            && (|| (exists i :: 0 <= i < |mid| && Ends(mid[i], first.key))
                || (again.Wake? && again.w in s.waiters && After(s, mid).waiters[again.w] == s.waiters[again.w]))
  {
    InvRun(Start(capacity, maxWait, t0), pre);
    MissReserves(After(Start(capacity, maxWait, t0), pre), first);
    StandingReservation(capacity, maxWait, t0, pre, first, mid, again, first.key, first.now + maxWait);
  }

  /** The last case is real: when a reservation runs out, one waiter takes it over and misses,
      and the next one misses as well. */
  lemma ExpiryReleasesEveryWaiter(capacity: nat, maxWait: nat, k: Key, t: Time)
    requires maxWait >= 1 && k != ""
    ensures var ops := [Lookup(0, k, t, t), Lookup(1, k, t, t), Lookup(2, k, t, t)];
            var d := t + maxWait;
            var one, two := Wake(1, d, d, d, d), Wake(2, d, d, d, d);
            && Legal(Start(capacity, maxWait, t), ops)
            && var s := After(Start(capacity, maxWait, t), ops);
               && Enabled(s, one) && AnswerOf(s, one) == Miss
               && Step(s, one).cache.inFlight == map[k := d + maxWait]
               && Enabled(Step(s, one), two) && AnswerOf(Step(s, one), two) == Miss
  {
    var ops := [Lookup(0, k, t, t), Lookup(1, k, t, t), Lookup(2, k, t, t)];
    var s0 := Start(capacity, maxWait, t);
    var s1 := Step(s0, ops[0]);
    var s2 := Step(s1, ops[1]);
    var s3 := Step(s2, ops[2]);
    var waiter := Waiter(k, t + maxWait, t + maxWait);
    assert s3.waiters == map[1 := waiter, 2 := waiter] && s3.cache.inFlight == map[k := t + maxWait];
    assert ops[1..] == [ops[1], ops[2]] && [ops[1], ops[2]][1..] == [ops[2]] && [ops[2]][1..] == [];
    assert Legal(s3, []) && Legal(s2, [ops[2]]) && Legal(s1, [ops[1], ops[2]]);
    assert After(s3, []) == s3 && After(s2, [ops[2]]) == s3 && After(s1, [ops[1], ops[2]]) == s3;
    assert After(s0, ops) == s3;
  }
}
