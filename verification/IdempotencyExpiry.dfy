/** Eviction and expiry: when a store pushes out a live entry and keeps a dead one. All callers give
    an entry the one TTL of the cache, counted from a reading they take before the store. */
module IdempotencyExpiry {
  import opened Basics
  import opened Idempotency
  import opened IdempotencyRuns
  import opened IdempotencyLru

  /** Every entry expires one TTL after its store: the reading is the one at the store. */
  predicate OneTtl(ops: seq<Op>, ttl: nat) {
    forall i :: 0 <= i < |ops| && ops[i].Put? ==> ops[i].entry.expiresAt == ops[i].at + ttl
  }

  // ----- Without hits dead entries go first ---------------------------------------------

  predicate NoHits(s: System, ops: seq<Op>)
    requires Legal(s, ops)
    decreases |ops|
  {
    ops == [] || (!AnswerOf(s, ops[0]).Hit? && NoHits(Step(s, ops[0]), ops[1..]))
  }

  /** Entries that expire later come first, and none expires after `bound`. */
  predicate Newest(lru: seq<Pair>, bound: Time) {
    && (forall i :: 0 <= i < |lru| ==> lru[i].entry.expiresAt <= bound)
    && (forall i, j :: 0 <= i < j < |lru| ==> lru[j].entry.expiresAt <= lru[i].entry.expiresAt)
  }

  lemma ConsNewest(p: Pair, lru: seq<Pair>, bound: Time)
    requires Newest(lru, p.entry.expiresAt) && p.entry.expiresAt <= bound
    ensures Newest([p] + lru, bound)
  {
  }

  lemma {:induction false} ForgetNewest(lru: seq<Pair>, k: Key, bound: Time)
    requires Newest(lru, bound)
    ensures Newest(Forget(lru, k), bound)
  {
    if lru != [] {
      var p, rest := lru[0], lru[1..];
      assert Newest(rest, p.entry.expiresAt) && Newest(rest, bound);
      if p.key == k {
        ForgetNewest(rest, k, bound);
      } else {
        ForgetNewest(rest, k, p.entry.expiresAt);
        ConsNewest(p, Forget(rest, k), bound);
      }
    }
  }

  /** Entries are stored in the order in which they expire, none before `bound`. */
  predicate InExpiryOrder(ops: seq<Op>, bound: Time)
    decreases |ops|
  {
    ops == []
    || if ops[0].Put? then bound <= ops[0].entry.expiresAt && InExpiryOrder(ops[1..], ops[0].entry.expiresAt)
       else InExpiryOrder(ops[1..], bound)
  }

  /** With one TTL, and readings taken at the stores, it is the order of the clock. */
  lemma {:induction false} OneTtlInOrder(s: System, ops: seq<Op>, ttl: nat, bound: Time)
    requires Inv(s) && Legal(s, ops) && OneTtl(ops, ttl) && bound <= s.clock + ttl
    ensures InExpiryOrder(ops, bound)
    decreases |ops|
  {
    if ops != [] {
      InvStep(s, ops[0]);
      assert OneTtl(ops[1..], ttl);
      OneTtlInOrder(Step(s, ops[0]), ops[1..], ttl, if ops[0].Put? then ops[0].entry.expiresAt else bound);
    }
  }

  lemma NewestStep(s: System, op: Op, bound: Time)
    requires Enabled(s, op) && !AnswerOf(s, op).Hit? && Newest(s.cache.lru, bound)
    requires op.Put? ==> bound <= op.entry.expiresAt
    ensures Newest(Step(s, op).cache.lru, if op.Put? then op.entry.expiresAt else bound)
  {
    var lru := s.cache.lru;
    if op.Put? && op.key != "" {
      ForgetNewest(lru, op.key, op.entry.expiresAt);
      ConsNewest(Pair(op.key, op.entry), Evict(Forget(lru, op.key), s.cache.capacity), op.entry.expiresAt);
    } else if op.Wake? || (op.Lookup? && op.key != "") {
      LookupList(s, op);
      ForgetNewest(lru, Asked(s, op), bound);
    }
  }

  lemma {:induction false} NewestRun(s: System, ops: seq<Op>, bound: Time) returns (last: Time)
    requires Legal(s, ops) && NoHits(s, ops) && InExpiryOrder(ops, bound) && Newest(s.cache.lru, bound)
    ensures Newest(After(s, ops).cache.lru, last)
    decreases |ops|
  {
    last := bound;
    if ops != [] {
      NewestStep(s, ops[0], bound);
      last := NewestRun(Step(s, ops[0]), ops[1..], if ops[0].Put? then ops[0].entry.expiresAt else bound);
    }
  }

  /** In every run without a hit whose entries are stored in the order in which they expire, no
      store pushes out a live entry while it keeps a dead one. */
  lemma WithoutHitsDeadGoFirst(
    capacity: nat, maxWait: nat, t0: Time, bound: Time, ops: seq<Op>, k: Key, e: Entry, now: Time)
    requires capacity >= 1 && k != "" && Legal(Start(capacity, maxWait, t0), ops)
    requires InExpiryOrder(ops, bound) && NoHits(Start(capacity, maxWait, t0), ops)
    ensures After(Start(capacity, maxWait, t0), ops).cache.capacity == capacity
    ensures !LiveForDead(After(Start(capacity, maxWait, t0), ops).cache, k, e, now)
  {
    var c := After(Start(capacity, maxWait, t0), ops).cache;
    InvRun(Start(capacity, maxWait, t0), ops);
    var last := NewestRun(Start(capacity, maxWait, t0), ops, bound);
    ForgetNewest(c.lru, k, last);
    LiveForDeadIff(c, k, e, now);
  }

  // ----- A hit breaks the promise -------------------------------------------------------

  function Made(at: Time, ttl: nat): Entry {
    Entry(Status(0, ""), "", at + ttl)
  }

  function Name(i: nat): (name: Key)
    ensures |name| == i + 1 && name[0] == 'k'
  {
    seq(i + 1, _ => 'k')
  }

  /** Stores at `at` that lead to this list, the last one first. */
  function Stores(lru: seq<Pair>, at: Time): seq<Op> {
    if lru == [] then [] else Stores(lru[1..], at) + [Put(lru[0].key, lru[0].entry, at)]
  }

  lemma {:induction false} StoresRun(s: System, lru: seq<Pair>, at: Time)
    requires s.cache.capacity >= 1 && |lru| + |s.cache.lru| <= s.cache.capacity && s.clock <= at
    requires UniqueKeys(lru) && NoKey(lru, "") && forall i :: 0 <= i < |lru| ==> NoKey(s.cache.lru, lru[i].key)
    ensures Legal(s, Stores(lru, at))
    ensures var s' := After(s, Stores(lru, at));
            && s'.cache.lru == lru + s.cache.lru && s'.cache.capacity == s.cache.capacity
            && s'.waiters == s.waiters && s'.clock <= at
  {
    if lru == [] {
      assert lru + s.cache.lru == s.cache.lru;
    } else {
      var rest, put := lru[1..], Put(lru[0].key, lru[0].entry, at);
      StoresRun(s, rest, at);
      var s' := After(s, Stores(rest, at));
      StoreNew(s'.cache, lru[0]);
      assert [lru[0]] + (rest + s.cache.lru) == lru + s.cache.lru;
      Split(s, Stores(rest, at), [put]);
      One(s', put);
    }
  }

  lemma StoreNew(c: Cache, p: Pair)
    requires |c.lru| < c.capacity && p.key != "" && NoKey(c.lru, p.key)
    ensures Store(c, p.key, p.entry).lru == [p] + c.lru
  {
    FindNone(c.lru, p.key);
  }

  lemma One(s: System, op: Op)
    requires Enabled(s, op)
    ensures Legal(s, [op]) && After(s, [op]) == Step(s, op)
  {
    assert [op][1..] == [];
  }

  /** `a` is stored at `t`, all the room is filled a tick later, and then `a` is found again. */
  function FoundAgain(capacity: nat, ttl: nat, t: Time): seq<Op>
    requires capacity >= 2
  {
    [Put("a", Made(t, ttl), t)] + (Stores(Others(capacity - 1, t + 1, ttl), t + 1) + [Lookup(0, "a", t + 1, t + 1)])
  }

  function Others(n: nat, at: Time, ttl: nat): (lru: seq<Pair>)
    ensures |lru| == n && UniqueKeys(lru) && NoKey(lru, "") && NoKey(lru, "a") && NoKey(lru, "b")
    ensures forall i :: 0 <= i < n ==> lru[i].entry == Made(at, ttl)
  {
    var lru := seq(n, i requires 0 <= i < n => Pair(Name(i), Made(at, ttl)));
    assert forall i :: 0 <= i < n ==> |lru[i].key| == i + 1 && lru[i].key[0] == 'k';
    lru
  }

  lemma FoundAgainRun(capacity: nat, maxWait: nat, ttl: nat, t: Time)
    requires capacity >= 2 && ttl >= 2
    ensures Legal(Start(capacity, maxWait, t), FoundAgain(capacity, ttl, t))
    ensures var s := After(Start(capacity, maxWait, t), FoundAgain(capacity, ttl, t));
            && s.cache.lru == [Pair("a", Made(t, ttl))] + Others(capacity - 1, t + 1, ttl)
            && s.cache.capacity == capacity && s.clock == t + 1
  {
    var others := Others(capacity - 1, t + 1, ttl);
    var put, lookup := Put("a", Made(t, ttl), t), Lookup(0, "a", t + 1, t + 1);
    var s0 := Start(capacity, maxWait, t);
    var s1 := Step(s0, put);
    assert s1.cache.lru == [Pair("a", Made(t, ttl))];
    StoresRun(s1, others, t + 1);
    var s2 := After(s1, Stores(others, t + 1));
    FoundAtEnd(others, "a", Made(t, ttl));
    LookupList(s2, lookup);
    One(s2, lookup);
    Split(s1, Stores(others, t + 1), [lookup]);
    One(s0, put);
    Split(s0, [put], Stores(others, t + 1) + [lookup]);
  }

  lemma FoundAtEnd(lru: seq<Pair>, k: Key, e: Entry)
    requires UniqueKeys(lru) && NoKey(lru, k)
    ensures Find(lru + [Pair(k, e)], k) == Some(e)
    ensures Promote(lru + [Pair(k, e)], k, e) == [Pair(k, e)] + lru
  {
    var all := lru + [Pair(k, e)];
    FindAt(all, |lru|);
    ForgetAt(all, |lru|);
  }

  lemma {:induction false} StoresTtl(lru: seq<Pair>, at: Time, ttl: nat)
    requires forall i :: 0 <= i < |lru| ==> lru[i].entry == Made(at, ttl)
    ensures OneTtl(Stores(lru, at), ttl)
  {
    if lru != [] { StoresTtl(lru[1..], at, ttl); }
  }

  /** With one TTL, at every capacity from 2 on: the hit keeps `a` ahead of entries that expire
      later, so when `a` has just expired the next store pushes out a live entry and keeps `a`. */
  lemma HitBreaksPromise(capacity: nat, maxWait: nat, ttl: nat, t: Time)
    requires capacity >= 2 && ttl >= 2
    ensures var s, ops := Start(capacity, maxWait, t), FoundAgain(capacity, ttl, t);
            && Legal(s, ops) && OneTtl(ops, ttl)
            && After(s, ops).cache.capacity == capacity
            && Enabled(After(s, ops), Put("b", Made(t + ttl, ttl), t + ttl))
            && LiveForDead(After(s, ops).cache, "b", Made(t + ttl, ttl), t + ttl)
  {
    FoundAgainRun(capacity, maxWait, ttl, t);
    var c := After(Start(capacity, maxWait, t), FoundAgain(capacity, ttl, t)).cache;
    var a, others := Pair("a", Made(t, ttl)), Others(capacity - 1, t + 1, ttl);
    StoresTtl(others, t + 1, ttl);
    AgainLiveForDead(c, a, others, t + ttl, ttl);
  }

  lemma AgainLiveForDead(c: Cache, a: Pair, others: seq<Pair>, now: Time, ttl: nat)
    requires c.lru == [a] + others && |others| >= 1 && c.capacity == |others| + 1
    requires UniqueKeys(others) && NoKey(others, a.key) && NoKey(others, "b") && a.key != "b"
    requires !Live(a.entry, now) && Live(others[|others| - 1].entry, now)
    ensures LiveForDead(c, "b", Made(now, ttl), now)
  {
    ConsUnique(a, others, "b");
    FindNone(c.lru, "b");
    assert c.lru[0] == a && c.lru[|others|] == others[|others| - 1];
    LiveForDeadIff(c, "b", Made(now, ttl), now);
    assert !Live(c.lru[0].entry, now);
  }

  lemma ConsUnique(a: Pair, others: seq<Pair>, k: Key)
    requires UniqueKeys(others) && NoKey(others, a.key) && NoKey(others, k) && a.key != k
    ensures UniqueKeys([a] + others) && NoKey([a] + others, k)
  {
  }

  /** Without a hit, stores that overtake each other do the same: `a` is given its expiry at `t`
      and stored after entries that were given theirs a tick later. */
  lemma LateStoreBreaksPromise(capacity: nat, maxWait: nat, ttl: nat, t: Time)
    requires capacity >= 2 && ttl >= 1
    ensures var s := Start(capacity, maxWait, t);
            var ops := Stores([Pair("a", Made(t, ttl))] + Others(capacity - 1, t + 1, ttl), t + 1);
            && Legal(s, ops) && After(s, ops).cache.capacity == capacity
            && Enabled(After(s, ops), Put("b", Made(t + ttl, ttl), t + ttl))
            && LiveForDead(After(s, ops).cache, "b", Made(t + ttl, ttl), t + ttl)
  {
    LateRun(capacity, maxWait, ttl, t);
    var a, others := Pair("a", Made(t, ttl)), Others(capacity - 1, t + 1, ttl);
    AgainLiveForDead(After(Start(capacity, maxWait, t), Stores([a] + others, t + 1)).cache, a, others, t + ttl, ttl);
  }

  lemma LateRun(capacity: nat, maxWait: nat, ttl: nat, t: Time)
    requires capacity >= 2
    ensures var s, lru := Start(capacity, maxWait, t), [Pair("a", Made(t, ttl))] + Others(capacity - 1, t + 1, ttl);
            && Legal(s, Stores(lru, t + 1))
            && var s' := After(s, Stores(lru, t + 1));
               s'.cache.lru == lru && s'.cache.capacity == capacity && s'.clock <= t + 1
  {
    var a, others := Pair("a", Made(t, ttl)), Others(capacity - 1, t + 1, ttl);
    ConsUnique(a, others, "");
    StoresRun(Start(capacity, maxWait, t), [a] + others, t + 1);
    assert ([a] + others) + [] == [a] + others;
  }
}
