/** What a caller can count on in the cache: a hit is the latest result stored, and exactly how
    long a key stays cached. */
module IdempotencyLru {
  import opened Basics
  import opened Idempotency
  import opened IdempotencyRuns

  // ----- A hit is the latest stored entry -----------------------------------------------

  function Note(latest: map<Key, Entry>, op: Op): map<Key, Entry> {
    if op.Put? && op.key != "" then latest[op.key := op.entry] else latest
  }

  /** The entry last stored for each key, starting from `latest`. */
  function Stored(latest: map<Key, Entry>, ops: seq<Op>): map<Key, Entry>
    decreases |ops|
  {
    if ops == [] then latest else Stored(Note(latest, ops[0]), ops[1..])
  }

  predicate Matches(lru: seq<Pair>, latest: map<Key, Entry>) {
    forall i :: 0 <= i < |lru| ==> lru[i].key in latest && latest[lru[i].key] == lru[i].entry
  }

  lemma {:induction false} ForgetMatches(lru: seq<Pair>, k: Key, latest: map<Key, Entry>, e: Entry)
    requires Matches(lru, latest)
    ensures Matches(Forget(lru, k), latest)
    ensures Matches(Forget(lru, k), latest[k := e])
  {
    if lru != [] {
      assert forall i :: 0 <= i < |lru[1..]| ==> lru[1..][i] == lru[i + 1];
      ForgetMatches(lru[1..], k, latest, e);
      assert lru[0].key in latest && latest[lru[0].key] == lru[0].entry;
    }
  }

  lemma {:induction false} FoundMatches(lru: seq<Pair>, k: Key, latest: map<Key, Entry>)
    requires Matches(lru, latest) && Find(lru, k).Some?
    ensures k in latest && latest[k] == Find(lru, k).value
  {
    if lru[0].key != k {
      assert forall i :: 0 <= i < |lru[1..]| ==> lru[1..][i] == lru[i + 1];
      FoundMatches(lru[1..], k, latest);
    }
  }

  lemma MatchesStep(s: System, op: Op, latest: map<Key, Entry>)
    requires Matches(s.cache.lru, latest) && Enabled(s, op)
    ensures Matches(Step(s, op).cache.lru, Note(latest, op))
  {
    var k := if op.Wake? then s.waiters[op.w].key else op.key;
    if op.Put? {
      ForgetMatches(s.cache.lru, k, latest, op.entry);
    } else if Find(s.cache.lru, k).Some? {
      FoundMatches(s.cache.lru, k, latest);
      ForgetMatches(s.cache.lru, k, latest, Find(s.cache.lru, k).value);
    } else {
      FindNone(s.cache.lru, k);
    }
  }

  lemma {:induction false} MatchesRun(s: System, ops: seq<Op>, latest: map<Key, Entry>)
    requires Matches(s.cache.lru, latest) && Legal(s, ops)
    ensures Matches(After(s, ops).cache.lru, Stored(latest, ops))
    decreases |ops|
  {
    if ops != [] {
      MatchesStep(s, ops[0], latest);
      MatchesRun(Step(s, ops[0]), ops[1..], Note(latest, ops[0]));
    }
  }

  /** `e` was stored for `k` at `i`, and nothing later. */
  predicate LatestAt(ops: seq<Op>, k: Key, e: Entry, i: nat) {
    && i < |ops| && ops[i].Put? && ops[i].key == k && ops[i].entry == e
    && forall j :: i < j < |ops| ==> !(ops[j].Put? && ops[j].key == k)
  }

  predicate NeverStored(ops: seq<Op>, k: Key) {
    forall j :: 0 <= j < |ops| ==> !(ops[j].Put? && ops[j].key == k)
  }

  lemma {:induction false} StoredIsLatest(latest: map<Key, Entry>, ops: seq<Op>, k: Key)
    requires k in Stored(latest, ops) && k != ""
    ensures (k in latest && Stored(latest, ops)[k] == latest[k] && NeverStored(ops, k))
         || exists i :: LatestAt(ops, k, Stored(latest, ops)[k], i)
    decreases |ops|
  {
    if ops != [] {
      var rest, next := ops[1..], Note(latest, ops[0]);
      assert forall j :: 0 < j < |ops| ==> ops[j] == rest[j - 1];
      StoredIsLatest(next, rest, k);
      if i: nat :| LatestAt(rest, k, Stored(next, rest)[k], i) {
        assert LatestAt(ops, k, Stored(latest, ops)[k], i + 1);
      } else if ops[0].Put? && ops[0].key == k {
        assert LatestAt(ops, k, Stored(latest, ops)[k], 0);
      }
    }
  }

  lemma {:induction false} NamedKeys(latest: map<Key, Entry>, ops: seq<Op>)
    requires "" !in latest
    ensures "" !in Stored(latest, ops)
    decreases |ops|
  {
    if ops != [] { NamedKeys(Note(latest, ops[0]), ops[1..]); }
  }

  /** In every run, a hit is the entry of the latest store of its key, and it has not expired
      at the reading the check used. */
  lemma HitIsLatest(capacity: nat, maxWait: nat, t0: Time, ops: seq<Op>, op: Op)
    requires Legal(Start(capacity, maxWait, t0), ops)
    requires Enabled(After(Start(capacity, maxWait, t0), ops), op)
    requires AnswerOf(After(Start(capacity, maxWait, t0), ops), op).Hit?
    ensures var s := After(Start(capacity, maxWait, t0), ops);
            var k := if op.Wake? then s.waiters[op.w].key else op.key;
            && AnswerOf(s, op).entry.expiresAt > (if op.Wake? then op.checked else First(op))
            && exists i :: LatestAt(ops, k, AnswerOf(s, op).entry, i)
  {
    var s := After(Start(capacity, maxWait, t0), ops);
    var k := if op.Wake? then s.waiters[op.w].key else op.key;
    MatchesRun(Start(capacity, maxWait, t0), ops, map[]);
    FoundMatches(s.cache.lru, k, Stored(map[], ops));
    NamedKeys(map[], ops);
    StoredIsLatest(map[], ops, k);
  }

  // ----- How long a key stays -----------------------------------------------------------

  /** The keys an operation uses: stored, or found by a lookup. */
  function Uses(s: System, op: Op): set<Key>
    requires Enabled(s, op)
  {
    match op
    case Put(k, _, _) => if k == "" then {} else {k}
    case Drop(_, _) => {}
    case Lookup(_, k, _, _) => if AnswerOf(s, op).Hit? then {k} else {}
    case Wake(w, _, _, _, _) => if AnswerOf(s, op).Hit? then {s.waiters[w].key} else {}
  }

  function Used(s: System, ops: seq<Op>): set<Key>
    requires Legal(s, ops)
    decreases |ops|
  {
    if ops == [] then {} else Uses(s, ops[0]) + Used(Step(s, ops[0]), ops[1..])
  }

  /** The keys used after `k` and still cached, told from operations and answers alone: a use
      puts a key ahead, a lookup that is not a hit takes it out, a use of `k` starts over. */
  function Ahead(s: System, op: Op, k: Key, others: set<Key>): set<Key>
    requires Enabled(s, op)
  {
    if k in Uses(s, op) then {}
    else match op
         case Put(_, _, _) => others + Uses(s, op)
         case Drop(_, _) => others
         case Lookup(_, x, _, _) =>
           if AnswerOf(s, op).Hit? then others + {x} else if x == "" then others else others - {x}
         case Wake(w, _, _, _, _) =>
           if AnswerOf(s, op).Hit? then others + {s.waiters[w].key} else others - {s.waiters[w].key}
  }

  /** No store of the run meets `capacity` keys, its own included, that are ahead of `k`. */
  predicate Room(s: System, ops: seq<Op>, k: Key, others: set<Key>)
    requires Legal(s, ops)
    decreases |ops|
  {
    ops == []
    || (&& (ops[0].Put? ==> |Ahead(s, ops[0], k, others)| < s.cache.capacity)
        && Room(Step(s, ops[0]), ops[1..], k, Ahead(s, ops[0], k, others)))
  }

  predicate HasBefore(lru: seq<Pair>, p: nat, x: Key) {
    exists i :: 0 <= i < p && i < |lru| && lru[i].key == x
  }

  /** The first `p` keys are exactly `others`. */
  predicate Before(lru: seq<Pair>, p: nat, others: set<Key>) {
    && p <= |lru|
    && (forall i :: 0 <= i < p ==> lru[i].key in others)
    && (forall x <- others :: HasBefore(lru, p, x))
  }

  /** `k` holds `e`, and exactly the keys of `others` are more recent. */
  predicate Ranked(lru: seq<Pair>, k: Key, e: Entry, others: set<Key>, p: nat) {
    Before(lru, p, others) && p < |lru| && lru[p] == Pair(k, e)
  }

  lemma {:induction false} CountBefore(lru: seq<Pair>, p: nat, others: set<Key>)
    requires UniqueKeys(lru) && Before(lru, p, others)
    ensures |others| == p
    decreases p
  {
    if p == 0 {
      assert others == {};
    } else {
      var x := lru[p - 1].key;
      forall y | y in others - {x}
        ensures HasBefore(lru, p - 1, y)
      {
        assert HasBefore(lru, p, y);
      }
      CountBefore(lru, p - 1, others - {x});
    }
  }

  lemma CutRanked(lru: seq<Pair>, k: Key, e: Entry, others: set<Key>, p: nat, i: nat)
    requires UniqueKeys(lru) && Ranked(lru, k, e, others, p) && i < |lru| && i != p
    ensures Ranked(lru[..i] + lru[i + 1..], k, e, others - {lru[i].key}, if i < p then p - 1 else p)
  {
    var rest, q := lru[..i] + lru[i + 1..], if i < p then p - 1 else p;
    forall y | y in others - {lru[i].key}
      ensures HasBefore(rest, q, y)
    {
      assert HasBefore(lru, p, y);
      var j :| 0 <= j < p && lru[j].key == y;
      assert rest[if j < i then j else j - 1].key == y;
    }
  }

  lemma ForgetRanked(lru: seq<Pair>, k: Key, e: Entry, others: set<Key>, p: nat, x: Key) returns (q: nat)
    requires UniqueKeys(lru) && Ranked(lru, k, e, others, p) && x != k
    ensures Ranked(Forget(lru, x), k, e, others - {x}, q)
  {
    q := p;
    FindNone(lru, x);
    assert x in others ==> HasBefore(lru, p, x);
    if i :| 0 <= i < |lru| && lru[i].key == x {
      ForgetAt(lru, i);
      CutRanked(lru, k, e, others, p, i);
      q := if i < p then p - 1 else p;
    } else {
      assert others - {x} == others;
    }
  }

  lemma ConsRanked(lru: seq<Pair>, k: Key, e: Entry, others: set<Key>, p: nat, x: Key, f: Entry)
    requires Ranked(lru, k, e, others, p)
    ensures Ranked([Pair(x, f)] + lru, k, e, others + {x}, p + 1)
  {
    var all := [Pair(x, f)] + lru;
    assert all[0].key == x;
    forall y | y in others
      ensures HasBefore(all, p + 1, y)
    {
      assert HasBefore(lru, p, y);
      var j :| 0 <= j < p && lru[j].key == y;
      assert all[j + 1].key == y;
    }
  }

  lemma PromoteRanked(lru: seq<Pair>, k: Key, e: Entry, others: set<Key>, p: nat, x: Key, f: Entry) returns (q: nat)
    requires UniqueKeys(lru) && Ranked(lru, k, e, others, p) && (x == k ==> f == e)
    ensures Ranked(Promote(lru, x, f), k, e, if x == k then {} else others + {x}, q)
  {
    q := 0;
    if x != k {
      q := ForgetRanked(lru, k, e, others, p, x);
      ConsRanked(Forget(lru, x), k, e, others - {x}, q, x, f);
      assert others - {x} + {x} == others + {x};
      q := q + 1;
    }
  }

  /** A store of another key pushes `k` out exactly when that key makes `capacity` ahead of it. */
  lemma StoreRanked(c: Cache, k: Key, e: Entry, others: set<Key>, p: nat, x: Key, f: Entry) returns (q: nat)
    requires c.capacity >= 1 && UniqueKeys(c.lru) && Ranked(c.lru, k, e, others, p) && x != k && x != ""
    ensures if |others + {x}| < c.capacity then Ranked(Store(c, x, f).lru, k, e, others + {x}, q)
            else NoKey(Store(c, x, f).lru, k)
  {
    q := ForgetRanked(c.lru, k, e, others, p, x);
    var rest := Forget(c.lru, x);
    ForgetOne(c.lru, x);
    CountBefore(rest, q, others - {x});
    assert others - {x} + {x} == others + {x};
    if |others + {x}| < c.capacity {
      EvictRanked(rest, k, e, others - {x}, q, c.capacity);
      ConsRanked(Evict(rest, c.capacity), k, e, others - {x}, q, x, f);
      q := q + 1;
    } else {
      EvictGone(rest, q, c.capacity);
    }
  }

  lemma EvictGone(lru: seq<Pair>, p: nat, capacity: nat)
    requires UniqueKeys(lru) && p < |lru| && 1 <= capacity <= p + 1
    ensures NoKey(Evict(lru, capacity), lru[p].key)
  {
  }

  lemma EvictRanked(lru: seq<Pair>, k: Key, e: Entry, others: set<Key>, p: nat, capacity: nat)
    requires Ranked(lru, k, e, others, p) && p + 1 < capacity
    ensures Ranked(Evict(lru, capacity), k, e, others, p)
  {
    forall y | y in others
      ensures HasBefore(Evict(lru, capacity), p, y)
    {
      assert HasBefore(lru, p, y);
    }
  }

  lemma PutRanked(s: System, op: Op, k: Key, e: Entry, others: set<Key>, p: nat) returns (q: nat)
    requires Inv(s) && Enabled(s, op) && Ranked(s.cache.lru, k, e, others, p) && op.Put? && op.key != k
    ensures if |Ahead(s, op, k, others)| < s.cache.capacity
            then Ranked(Step(s, op).cache.lru, k, e, Ahead(s, op, k, others), q)
            else NoKey(Step(s, op).cache.lru, k)
  {
    q := p;
    if op.key == "" {
      assert others + {} == others;
      CountBefore(s.cache.lru, p, others);
    } else {
      q := StoreRanked(s.cache, k, e, others, p, op.key, op.entry);
    }
  }

  /** The key a lookup is about. */
  function Asked(s: System, op: Op): Key
    requires Enabled(s, op) && (op.Lookup? || op.Wake?)
  {
    if op.Wake? then s.waiters[op.w].key else op.key
  }

  /** A hit promotes its entry, and any other answer leaves its key out of the cache. */
  lemma LookupList(s: System, op: Op)
    requires Enabled(s, op) && (op.Wake? || (op.Lookup? && op.key != ""))
    ensures var x, lru := Asked(s, op), s.cache.lru;
            if AnswerOf(s, op).Hit?
            then Find(lru, x).Some? && Step(s, op).cache.lru == Promote(lru, x, Find(lru, x).value)
            else Step(s, op).cache.lru == Forget(lru, x)
  {
    FindNone(s.cache.lru, Asked(s, op));
  }

  lemma LookupRanked(s: System, op: Op, k: Key, e: Entry, others: set<Key>, p: nat) returns (q: nat)
    requires Inv(s) && Enabled(s, op) && Ranked(s.cache.lru, k, e, others, p) && k != ""
    requires !op.Put? && Last(op) < e.expiresAt
    ensures Ranked(Step(s, op).cache.lru, k, e, Ahead(s, op, k, others), q)
  {
    q := p;
    if !op.Drop? && !(op.Lookup? && op.key == "") {
      var lru, x := s.cache.lru, Asked(s, op);
      LookupList(s, op);
      FindAt(lru, p);
      if AnswerOf(s, op).Hit? {
        q := PromoteRanked(lru, k, e, others, p, x, Find(lru, x).value);
      } else {
        q := ForgetRanked(lru, k, e, others, p, x);
      }
    }
  }

  // ----- Keys that are not cached -------------------------------------------------------

  lemma AbsentStep(s: System, op: Op, k: Key)
    requires s.cache.capacity >= 1 && Enabled(s, op) && NoKey(s.cache.lru, k) && !(op.Put? && op.key == k)
    ensures NoKey(Step(s, op).cache.lru, k)
  {
    var x := if op.Wake? then s.waiters[op.w].key else op.key;
    FindNone(s.cache.lru, k);
    if x != k { StillAbsent(s.cache.lru, k, x, s.cache.capacity); }
    FindNone(Step(s, op).cache.lru, k);
  }

  lemma {:induction false} AbsentRun(s: System, ops: seq<Op>, k: Key)
    requires Inv(s) && s.cache.capacity >= 1 && Legal(s, ops) && NoKey(s.cache.lru, k) && NeverStored(ops, k)
    ensures NoKey(After(s, ops).cache.lru, k)
    decreases |ops|
  {
    if ops != [] {
      AbsentStep(s, ops[0], k);
      InvStep(s, ops[0]);
      assert NeverStored(ops[1..], k);
      AbsentRun(Step(s, ops[0]), ops[1..], k);
    }
  }

  /** How long a key stays, exactly: an entry that is not stored over and has not expired is still
      cached after a run if and only if no store of the run found `capacity` keys ahead of it. */
  lemma {:induction false} StaysIff(s: System, ops: seq<Op>, k: Key, e: Entry, others: set<Key>, p: nat)
    requires Inv(s) && Legal(s, ops) && Ranked(s.cache.lru, k, e, others, p) && k != ""
    requires NeverStored(ops, k) && After(s, ops).clock < e.expiresAt
    ensures if Room(s, ops, k, others) then Find(After(s, ops).cache.lru, k) == Some(e)
            else NoKey(After(s, ops).cache.lru, k)
    decreases |ops|
  {
    if ops == [] {
      FindAt(s.cache.lru, p);
    } else {
      var op, rest, next := ops[0], ops[1..], Step(s, ops[0]);
      InvStep(s, op);
      InvRun(next, rest);
      assert NeverStored(rest, k);
      if op.Put? {
        var q := PutRanked(s, op, k, e, others, p);
        if |Ahead(s, op, k, others)| < s.cache.capacity {
          StaysIff(next, rest, k, e, Ahead(s, op, k, others), q);
        } else {
          AbsentRun(next, rest, k);
        }
      } else {
        var q := LookupRanked(s, op, k, e, others, p);
        StaysIff(next, rest, k, e, Ahead(s, op, k, others), q);
      }
    }
  }

  /** A caller that only counts keys: fewer than `capacity` others leave room. */
  lemma {:induction false} FewOthersFit(s: System, ops: seq<Op>, k: Key, others: set<Key>)
    requires Inv(s) && Legal(s, ops) && |others + (Used(s, ops) - {k})| < s.cache.capacity
    ensures Room(s, ops, k, others)
    decreases |ops|
  {
    if ops != [] {
      var next, ahead := Step(s, ops[0]), Ahead(s, ops[0], k, others);
      InvStep(s, ops[0]);
      var all := others + (Used(s, ops) - {k});
      assert ahead <= all && ahead + (Used(next, ops[1..]) - {k}) <= all;
      SubsetSize(ahead, all);
      SubsetSize(ahead + (Used(next, ops[1..]) - {k}), all);
      FewOthersFit(next, ops[1..], k, ahead);
    }
  }

  /** A key that was just stored or found, and has not expired, stays cached with its entry as
      long as fewer than `capacity` other keys are used, whatever else the threads do. */
  lemma StaysCached(s: System, ops: seq<Op>, k: Key, e: Entry)
    requires Inv(s) && s.cache.lru != [] && s.cache.lru[0] == Pair(k, e) && k != ""
    requires Legal(s, ops) && After(s, ops).clock < e.expiresAt
    requires NeverStored(ops, k)
    requires |Used(s, ops) - {k}| < s.cache.capacity
    ensures Find(After(s, ops).cache.lru, k) == Some(e)
  {
    assert {} + (Used(s, ops) - {k}) == Used(s, ops) - {k};
    FewOthersFit(s, ops, k, {});
    StaysIff(s, ops, k, e, {}, 0);
  }

  /** Stores in a row, oldest first. */
  function StoreAll(c: Cache, pairs: seq<Pair>): (d: Cache)
    requires c.capacity >= 1
    ensures d.capacity == c.capacity
    decreases |pairs|
  {
    if pairs == [] then c else StoreAll(Store(c, pairs[0].key, pairs[0].entry), pairs[1..])
  }

  /** The `n` most recent keys are among `keys`. */
  predicate Fronted(lru: seq<Pair>, n: nat, keys: set<Key>) {
    n <= |lru| && forall i :: 0 <= i < n ==> lru[i].key in keys
  }

  lemma StoreFronts(c: Cache, n: nat, keys: set<Key>, x: Key, f: Entry)
    requires UniqueKeys(c.lru) && Fronted(c.lru, n, keys) && x !in keys && x != "" && n < c.capacity
    ensures Fronted(Store(c, x, f).lru, n + 1, keys + {x})
  {
    var rest := Forget(c.lru, x);
    FindNone(c.lru, x);
    if i :| 0 <= i < |c.lru| && c.lru[i].key == x {
      ForgetAt(c.lru, i);
    }
    assert |rest| >= n && rest[..n] == c.lru[..n];
    assert forall i :: 0 <= i < n ==> rest[i] == rest[..n][i] == c.lru[i];
  }

  lemma {:induction false} StoreAllFronts(c: Cache, pairs: seq<Pair>, n: nat, keys: set<Key>) returns (all: set<Key>)
    requires c.capacity >= 1 && UniqueKeys(c.lru) && |c.lru| <= c.capacity && n + |pairs| <= c.capacity
    requires Fronted(c.lru, n, keys) && UniqueKeys(pairs) && NoKey(pairs, "")
    requires forall i :: 0 <= i < |pairs| ==> pairs[i].key !in keys
    ensures var d := StoreAll(c, pairs); |d.lru| <= c.capacity && Fronted(d.lru, n + |pairs|, all)
    ensures forall k :: k !in keys && NoKey(pairs, k) ==> k !in all
    decreases |pairs|
  {
    all := keys;
    if pairs != [] {
      var x := pairs[0];
      StoreKeeps(c, x.key, x.entry);
      StoreFronts(c, n, keys, x.key, x.entry);
      assert forall i :: 0 <= i < |pairs[1..]| ==> pairs[1..][i] == pairs[i + 1];
      all := StoreAllFronts(Store(c, x.key, x.entry), pairs[1..], n + 1, keys + {x.key});
    }
  }

  /** The bound is exact: storing `capacity` distinct other keys pushes any key out. */
  lemma CapacityOthersEvict(c: Cache, pairs: seq<Pair>, k: Key)
    requires c.capacity >= 1 && UniqueKeys(c.lru) && |c.lru| <= c.capacity && |pairs| == c.capacity
    requires UniqueKeys(pairs) && NoKey(pairs, "") && NoKey(pairs, k)
    ensures Find(StoreAll(c, pairs).lru, k) == None
  {
    var all := StoreAllFronts(c, pairs, 0, {});
    FindNone(StoreAll(c, pairs).lru, k);
  }
}
