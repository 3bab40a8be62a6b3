/** Who executes a request: exactly when a lookup that blocked comes back with a miss. */
module IdempotencyExecution {
  import opened Basics
  import opened Idempotency
  import opened IdempotencyRuns
  import opened IdempotencyLru

  /** The state right after a result was stored, and that result at the front. */
  lemma JustStored(s: System, put: Op)
    requires Inv(s) && put.Put? && put.key != "" && Enabled(s, put)
    ensures Inv(Step(s, put)) && Step(s, put).cache.capacity == s.cache.capacity
    ensures Ranked(Step(s, put).cache.lru, put.key, put.entry, {}, 0)
  {
    InvStep(s, put);
  }

  /** Operation `i` is the last store of `k`, its entry is live at `at`, and no store after it
      found `capacity` keys ahead of `k`. */
  predicate Serves(s: System, ops: seq<Op>, k: Key, at: Time, i: nat)
    requires Legal(s, ops)
  {
    && i < |ops| && ops[i].Put? && LatestAt(ops, k, ops[i].entry, i) && ops[i].entry.expiresAt > at
    && Legal(s, ops[..i + 1]) && Legal(After(s, ops[..i + 1]), ops[i + 1..])
    && Room(After(s, ops[..i + 1]), ops[i + 1..], k, {})
  }

  /** Without a store of `k` its entry stays as it is or goes. */
  lemma {:induction false} SameOrGone(s: System, ops: seq<Op>, k: Key, e: Entry)
    requires Inv(s) && s.cache.capacity >= 1 && Legal(s, ops) && NeverStored(ops, k)
    requires Find(s.cache.lru, k) == None || Find(s.cache.lru, k) == Some(e)
    ensures Find(After(s, ops).cache.lru, k) == None || Find(After(s, ops).cache.lru, k) == Some(e)
    decreases |ops|
  {
    if ops != [] {
      SameOrGoneStep(s, ops[0], k, e);
      InvStep(s, ops[0]);
      assert NeverStored(ops[1..], k);
      SameOrGone(Step(s, ops[0]), ops[1..], k, e);
    }
  }

  lemma SameOrGoneStep(s: System, op: Op, k: Key, e: Entry)
    requires Inv(s) && s.cache.capacity >= 1 && Enabled(s, op) && !(op.Put? && op.key == k)
    requires Find(s.cache.lru, k) == None || Find(s.cache.lru, k) == Some(e)
    ensures Find(Step(s, op).cache.lru, k) == None || Find(Step(s, op).cache.lru, k) == Some(e)
  {
    var lru := s.cache.lru;
    if op.Put? {
      if op.key != "" {
        ForgetOther(lru, op.key, k);
        EvictFind(Forget(lru, op.key), k, s.cache.capacity);
      }
    } else if op.Wake? || (op.Lookup? && op.key != "") {
      LookupList(s, op);
      var x := Asked(s, op);
      if x == k {
        if !AnswerOf(s, op).Hit? {
          ForgetOne(lru, k);
          FindNone(Forget(lru, k), k);
        }
      } else {
        ForgetOther(lru, x, k);
      }
    }
  }

  lemma {:induction false} EvictFind(lru: seq<Pair>, k: Key, capacity: nat)
    requires capacity >= 1
    ensures Find(Evict(lru, capacity), k) == None || Find(Evict(lru, capacity), k) == Find(lru, k)
    decreases |lru|
  {
    PrefixFind(lru, k, |Evict(lru, capacity)|);
  }

  lemma {:induction false} PrefixFind(lru: seq<Pair>, k: Key, n: nat)
    requires n <= |lru|
    ensures Find(lru[..n], k) == None || Find(lru[..n], k) == Find(lru, k)
    decreases |lru|
  {
    if n > 0 && lru[0].key != k {
      assert lru[..n][1..] == lru[1..][..n - 1];
      PrefixFind(lru[1..], k, n - 1);
    }
  }

  lemma {:induction false} LastStore(ops: seq<Op>, k: Key) returns (i: nat)
    requires !NeverStored(ops, k)
    ensures i < |ops| && ops[i].Put? && LatestAt(ops, k, ops[i].entry, i)
  {
    var n := |ops| - 1;
    if ops[n].Put? && ops[n].key == k {
      i := n;
    } else {
      var j :| 0 <= j < |ops| && ops[j].Put? && ops[j].key == k;
      assert ops[..n][j] == ops[j];
      i := LastStore(ops[..n], k);
    }
  }

  /** From a state without `k`, its entry is cached and live after a run if and only if some
      store of the run serves it. */
  lemma CachedIff(s: System, ops: seq<Op>, k: Key, at: Time)
    requires Inv(s) && s.cache.capacity >= 1 && k != "" && NoKey(s.cache.lru, k)
    requires Legal(s, ops) && After(s, ops).clock <= at
    ensures var found := Find(After(s, ops).cache.lru, k);
            (found.Some? && found.value.expiresAt > at) <==> exists i :: Serves(s, ops, k, at, i)
  {
    if NeverStored(ops, k) {
      AbsentRun(s, ops, k);
      FindNone(After(s, ops).cache.lru, k);
    } else {
      var i := LastStore(ops, k);
      AfterLast(s, ops, k, at, i);
      assert forall j :: Serves(s, ops, k, at, j) ==> j == i;
    }
  }

  lemma AfterLast(s: System, ops: seq<Op>, k: Key, at: Time, i: nat)
    requires Inv(s) && s.cache.capacity >= 1 && k != "" && Legal(s, ops) && After(s, ops).clock <= at
    requires i < |ops| && ops[i].Put? && LatestAt(ops, k, ops[i].entry, i)
    ensures var found := Find(After(s, ops).cache.lru, k);
            (found.Some? && found.value.expiresAt > at) <==> Serves(s, ops, k, at, i)
  {
    var put, rest := ops[i], ops[i + 1..];
    var stored := AtStore(s, ops, i);
    if put.entry.expiresAt > at {
      StaysIff(stored, rest, k, put.entry, {}, 0);
      FindNone(After(s, ops).cache.lru, k);
    } else {
      FindAt(stored.cache.lru, 0);
      SameOrGone(stored, rest, k, put.entry);
    }
  }

  lemma AtStore(s: System, ops: seq<Op>, i: nat) returns (stored: System)
    requires Inv(s) && Legal(s, ops) && i < |ops| && ops[i].Put? && ops[i].key != ""
    ensures Legal(s, ops[..i + 1]) && stored == After(s, ops[..i + 1])
    ensures Inv(stored) && stored.cache.capacity == s.cache.capacity
    ensures Ranked(stored.cache.lru, ops[i].key, ops[i].entry, {}, 0)
    ensures Legal(stored, ops[i + 1..]) && After(s, ops) == After(stored, ops[i + 1..])
  {
    assert ops == ops[..i + 1] + ops[i + 1..] && ops[..i + 1] == ops[..i] + [ops[i]];
    Split(s, ops[..i + 1], ops[i + 1..]);
    Split(s, ops[..i], [ops[i]]);
    var before := After(s, ops[..i]);
    InvRun(s, ops[..i]);
    assert Legal(before, [ops[i]]) && [ops[i]][1..] == [];
    JustStored(before, ops[i]);
    stored := After(s, ops[..i + 1]);
    assert stored == After(before, [ops[i]]) == After(Step(before, ops[i]), []) == Step(before, ops[i]);
  }

  /** Who executes, in every run: a lookup that blocked goes on with a miss, and executes, if and
      only if no result stored for its key since then is live when it looks, with room left for
      it by the stores that followed. */
  lemma WaiterExecutesIff(
    capacity: nat, maxWait: nat, t0: Time, pre: seq<Op>, lookup: Op, mid: seq<Op>, wake: Op)
    requires capacity >= 1 && lookup.Lookup? && WakeOf(wake, lookup.w)
    requires Legal(Start(capacity, maxWait, t0), pre) && Enabled(After(Start(capacity, maxWait, t0), pre), lookup)
    requires AnswerOf(After(Start(capacity, maxWait, t0), pre), lookup).Wait?
    requires Legal(Step(After(Start(capacity, maxWait, t0), pre), lookup), mid)
    requires Enabled(After(Step(After(Start(capacity, maxWait, t0), pre), lookup), mid), wake)
    requires forall i :: 0 <= i < |mid| ==> !WakeOf(mid[i], lookup.w)
    ensures var s := Step(After(Start(capacity, maxWait, t0), pre), lookup);
            && !AnswerOf(After(s, mid), wake).Wait?
            && (AnswerOf(After(s, mid), wake).Miss? <==> !exists i :: Serves(s, mid, lookup.key, wake.checked, i))
  {
    var before := After(Start(capacity, maxWait, t0), pre);
    InvRun(Start(capacity, maxWait, t0), pre);
    var s := Step(before, lookup);
    InvStep(before, lookup);
    LookupList(before, lookup);
    ForgetOne(before.cache.lru, lookup.key);
    KeepsWaiting(s, mid, lookup.w);
    CachedIff(s, mid, lookup.key, wake.checked);
  }

  lemma {:induction false} KeepsWaiting(s: System, ops: seq<Op>, w: Tid)
    requires Legal(s, ops) && w in s.waiters && forall i :: 0 <= i < |ops| ==> !WakeOf(ops[i], w)
    ensures w in After(s, ops).waiters && After(s, ops).waiters[w] == s.waiters[w]
    decreases |ops|
  {
    if ops != [] { KeepsWaiting(Step(s, ops[0]), ops[1..], w); }
  }

  // ----- Counting keys is not exact -----------------------------------------------------

  /** Each key stored with a dead entry and then looked up, which takes it out again. */
  function Flurry(keys: seq<Key>, dead: Entry, t: Time): seq<Op> {
    if keys == [] then []
    else [Put(keys[0], dead, t), Lookup(0, keys[0], t, t)] + Flurry(keys[1..], dead, t)
  }

  /** However many other keys are used, `k` stays cached if they go again in time. */
  lemma {:induction false} ManyOthersFit(s: System, k: Key, e: Entry, keys: seq<Key>, dead: Entry, t: Time)
    requires s.cache.capacity >= 2 && s.cache.lru == [Pair(k, e)] && s.waiters == map[] && s.clock <= t
    requires dead.expiresAt <= t && forall x <- keys :: x != k && x != ""
    ensures Legal(s, Flurry(keys, dead, t)) && After(s, Flurry(keys, dead, t)).cache.lru == [Pair(k, e)]
    ensures forall x <- keys :: x in Used(s, Flurry(keys, dead, t))
    decreases |keys|
  {
    if keys != [] {
      var ops := Flurry(keys, dead, t);
      assert keys[0] in keys && forall x <- keys[1..] :: x in keys;
      assert Forget([Pair(k, e)], keys[0]) == [Pair(k, e)] by { assert [Pair(k, e)][1..] == []; }
      var s1 := Step(s, ops[0]);
      assert s1.cache.lru == [Pair(keys[0], dead), Pair(k, e)];
      var s2 := Step(s1, ops[1]);
      assert s1.cache.lru[1..] == [Pair(k, e)];
      ManyOthersFit(s2, k, e, keys[1..], dead, t);
      assert ops[1..][0] == ops[1] && ops[1..][1..] == Flurry(keys[1..], dead, t);
      assert Legal(s1, ops[1..]) && After(s1, ops[1..]) == After(s2, ops[1..][1..]);
      forall x | x in keys
        ensures x in Used(s, ops)
      {
        assert x == keys[0] || x in keys[1..];
      }
    }
  }
}
