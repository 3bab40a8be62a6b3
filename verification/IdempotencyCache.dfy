/** The LRU idempotency cache (src/control/idempotency_cache.cc): its critical sections as
    functions on a recency list, and the class that keeps a linked list and an index. */
module Idempotency {
  import opened Basics

  type Key = string
  type Time = int

  datatype Status = Status(code: nat, message: string)

  datatype Entry = Entry(status: Status, response: string, expiresAt: Time)

  datatype Pair = Pair(key: Key, entry: Entry)

  /** `lru` is most recently used first; `inFlight` maps a reserved key to its deadline. */
  datatype Cache = Cache(capacity: nat, maxWait: nat, lru: seq<Pair>, inFlight: map<Key, Time>)

  /** What one critical section of LookupOrReserve answers; `Wait` is the blocked caller. */
  datatype Answer = Hit(entry: Entry) | Miss | Wait(deadline: Time)

  // ----- Recency lists ------------------------------------------------------------------

  predicate UniqueKeys(lru: seq<Pair>) {
    forall i, j :: 0 <= i < j < |lru| ==> lru[i].key != lru[j].key
  }

  function Find(lru: seq<Pair>, k: Key): Option<Entry> {
    if lru == [] then None
    else if lru[0].key == k then Some(lru[0].entry)
    else Find(lru[1..], k)
  }

  lemma {:induction false} FindAt(lru: seq<Pair>, p: nat)
    requires UniqueKeys(lru) && p < |lru|
    ensures Find(lru, lru[p].key) == Some(lru[p].entry)
  {
    if p > 0 { FindAt(lru[1..], p - 1); }
  }

  predicate NoKey(lru: seq<Pair>, k: Key) {
    forall i :: 0 <= i < |lru| ==> lru[i].key != k
  }

  lemma {:induction false} FindNone(lru: seq<Pair>, k: Key)
    ensures Find(lru, k) == None <==> NoKey(lru, k)
    ensures Find(lru, k) == None ==> Forget(lru, k) == lru
  {
    if lru != [] {
      FindNone(lru[1..], k);
      assert NoKey(lru, k) <==> lru[0].key != k && NoKey(lru[1..], k) by {
        assert forall i :: 0 < i < |lru| ==> lru[i] == lru[1..][i - 1];
        assert forall i :: 0 <= i < |lru[1..]| ==> lru[1..][i] == lru[i + 1];
      }
    }
  }

  function Forget(lru: seq<Pair>, k: Key): seq<Pair> {
    if lru == [] then []
    else if lru[0].key == k then Forget(lru[1..], k)
    else [lru[0]] + Forget(lru[1..], k)
  }

  lemma {:induction false} ForgetAt(lru: seq<Pair>, p: nat)
    requires UniqueKeys(lru) && p < |lru|
    ensures Forget(lru, lru[p].key) == lru[..p] + lru[p + 1..]
  {
    if p == 0 {
      FindNone(lru[1..], lru[0].key);
    } else {
      ForgetAt(lru[1..], p - 1);
      assert lru[1..][..p - 1] == lru[1..p] && lru[1..][p..] == lru[p + 1..];
      assert [lru[0]] + lru[1..p] == lru[..p];
    }
  }

  lemma {:induction false} ForgetOther(lru: seq<Pair>, k: Key, x: Key)
    requires x != k
    ensures Find(Forget(lru, k), x) == Find(lru, x)
  {
    if lru != [] { ForgetOther(lru[1..], k, x); }
  }

  /** Forgetting takes out one key and keeps the rest unique. */
  lemma {:induction false} ForgetOne(lru: seq<Pair>, k: Key)
    requires UniqueKeys(lru)
    ensures UniqueKeys(Forget(lru, k)) && NoKey(Forget(lru, k), k)
    ensures |Forget(lru, k)| == |lru| - if Find(lru, k) == None then 0 else 1
  {
    FindNone(lru, k);
    if p :| 0 <= p < |lru| && lru[p].key == k {
      FindAt(lru, p);
      ForgetAt(lru, p);
    }
  }

  function Promote(lru: seq<Pair>, k: Key, e: Entry): seq<Pair> {
    [Pair(k, e)] + Forget(lru, k)
  }

  // ----- Critical sections --------------------------------------------------------------

  function Reserve(c: Cache, k: Key, at: Time): Cache {
    c.(inFlight := c.inFlight[k := at + c.maxWait])
  }

  function Min(a: Time, b: Time): Time { if a < b then a else b }

  /** LookupOrReserve until it answers or blocks. `now` is the reading the checks use and
      `later` the one taken for the wait deadline. */
  function Begin(c: Cache, k: Key, now: Time, later: Time): (Cache, Answer) {
    var found := Find(c.lru, k);
    if k == "" then (c, Miss)
    else if found.Some? && found.value.expiresAt > now then
      (c.(lru := Promote(c.lru, k, found.value)), Hit(found.value))
    else Claim(c.(lru := Forget(c.lru, k)), k, now, later)
  }

  /** Without a live entry: reserve the key, or wait for the reservation there is. */
  function Claim(c: Cache, k: Key, now: Time, later: Time): (Cache, Answer) {
    if k !in c.inFlight || c.inFlight[k] <= now then (Reserve(c, k, now), Miss)
    else (c, Wait(Min(later + c.maxWait, c.inFlight[k])))
  }

  /** The predicate of the condition-variable wait. */
  predicate WakeReady(c: Cache, k: Key, at: Time) {
    k !in c.inFlight || c.inFlight[k] <= at || Find(c.lru, k).Some?
  }

  /** The rest of LookupOrReserve, from the last evaluation of the predicate at `polled`. */
  function Resume(c: Cache, k: Key, polled: Time, checked: Time, swept: Time, reserved: Time): (Cache, Answer) {
    var found := Find(c.lru, k);
    if WakeReady(c, k, polled) && found.Some? && found.value.expiresAt > checked then
      (c.(lru := Promote(c.lru, k, found.value)), Hit(found.value))
    else
      (Renew(if WakeReady(c, k, polled) then c.(lru := Forget(c.lru, k)) else c, k, swept, reserved), Miss)
  }

  /** The last waiter to see a reservation expire starts a fresh one. */
  function Renew(c: Cache, k: Key, swept: Time, reserved: Time): Cache {
    if k in c.inFlight && c.inFlight[k] <= swept then Reserve(c, k, reserved) else c
  }

  /** The list with room for one more: pure LRU, whatever has expired. */
  function Evict(lru: seq<Pair>, capacity: nat): seq<Pair>
    requires capacity >= 1
  {
    if |lru| >= capacity then lru[..capacity - 1] else lru
  }

  function Store(c: Cache, k: Key, e: Entry): Cache
    requires c.capacity >= 1
  {
    if k == "" then c
    else c.(lru := [Pair(k, e)] + Evict(Forget(c.lru, k), c.capacity), inFlight := c.inFlight - {k})
  }

  /** An entry is dead once its expiry has come. */
  predicate Live(e: Entry, now: Time) {
    e.expiresAt > now
  }

  /** A store that pushes out a live entry although another one, which it keeps, has expired. */
  predicate LiveForDead(c: Cache, k: Key, e: Entry, now: Time)
    requires c.capacity >= 1
  {
    var rest, kept := Forget(c.lru, k), Store(c, k, e).lru;
    && (exists i :: 0 <= i < |rest| && Live(rest[i].entry, now) && NoKey(kept, rest[i].key))
    && (exists j :: 0 < j < |kept| && !Live(kept[j].entry, now))
  }

  lemma StoredList(c: Cache, k: Key, e: Entry)
    requires c.capacity >= 1 && k != ""
    ensures var rest, kept := Forget(c.lru, k), Store(c, k, e).lru;
            && |kept| == (if |rest| >= c.capacity then c.capacity else |rest| + 1) && kept[0] == Pair(k, e)
            && forall j :: 0 < j < |kept| ==> kept[j] == rest[j - 1]
  {
  }

  /** What a store pushes out is the last entry of a full list. */
  lemma PushedOut(c: Cache, k: Key, e: Entry, i: nat)
    requires c.capacity >= 1 && k != "" && UniqueKeys(c.lru) && |c.lru| <= c.capacity && i < |Forget(c.lru, k)|
    ensures var rest := Forget(c.lru, k);
            NoKey(Store(c, k, e).lru, rest[i].key) <==> |rest| == c.capacity && i == |rest| - 1
  {
    var rest, kept := Forget(c.lru, k), Store(c, k, e).lru;
    ForgetOne(c.lru, k);
    StoredList(c, k, e);
    if i + 1 < |kept| { assert kept[i + 1].key == rest[i].key; }
  }

  lemma KeptDead(c: Cache, k: Key, e: Entry, now: Time)
    requires c.capacity >= 1 && k != ""
    ensures var rest, kept := Forget(c.lru, k), Store(c, k, e).lru;
            (exists j :: 0 < j < |kept| && !Live(kept[j].entry, now)) <==>
              exists i :: 0 <= i < |kept| - 1 && !Live(rest[i].entry, now)
  {
    var rest, kept := Forget(c.lru, k), Store(c, k, e).lru;
    StoredList(c, k, e);
    if j :| 0 < j < |kept| && !Live(kept[j].entry, now) { assert !Live(rest[j - 1].entry, now); }
    if i :| 0 <= i < |kept| - 1 && !Live(rest[i].entry, now) { assert !Live(kept[i + 1].entry, now); }
  }

  /** The header promises that expired entries go first. A store breaks that exactly when the
      list without its key is full, the last entry is live and an earlier one has expired. */
  lemma LiveForDeadIff(c: Cache, k: Key, e: Entry, now: Time)
    requires c.capacity >= 1 && UniqueKeys(c.lru) && |c.lru| <= c.capacity && k != ""
    ensures var rest := Forget(c.lru, k); var n := |rest|;
            LiveForDead(c, k, e, now) <==>
              && n == c.capacity && Live(rest[n - 1].entry, now)
              && exists i :: 0 <= i < n - 1 && !Live(rest[i].entry, now)
  {
    var rest := Forget(c.lru, k);
    ForgetOne(c.lru, k);
    StoredList(c, k, e);
    KeptDead(c, k, e, now);
    forall i | 0 <= i < |rest| { PushedOut(c, k, e, i); }
  }

  function Cancel(c: Cache, k: Key): Cache {
    if k == "" then c else c.(inFlight := c.inFlight - {k})
  }

  // ----- The class ----------------------------------------------------------------------

  /** A node of the linked list; an index entry is the handle of a node. */
  datatype Node = Node(handle: nat, key: Key, entry: Entry)

  function Pairs(list: seq<Node>): (pairs: seq<Pair>)
    ensures |pairs| == |list|
    ensures forall i :: 0 <= i < |list| ==> pairs[i] == Pair(list[i].key, list[i].entry)
  {
    seq(|list|, i requires 0 <= i < |list| => Pair(list[i].key, list[i].entry))
  }

  predicate HasKey(list: seq<Node>, k: Key) {
    exists i :: 0 <= i < |list| && list[i].key == k
  }

  /** List and index are in bijection: each node is the one its key is indexed to. */
  predicate Indexed(list: seq<Node>, index: map<Key, nat>) {
    && (forall i :: 0 <= i < |list| ==> list[i].key in index && index[list[i].key] == list[i].handle)
    && (forall i, j :: 0 <= i < j < |list| ==> list[i].handle != list[j].handle && list[i].key != list[j].key)
    && (forall k <- index :: HasKey(list, k))
  }

  /** The list without its node `p`. */
  function Cut(list: seq<Node>, p: nat): (rest: seq<Node>)
    requires p < |list|
    ensures |rest| == |list| - 1
    ensures forall i :: 0 <= i < |rest| ==> rest[i] == list[if i < p then i else i + 1]
  {
    list[..p] + list[p + 1..]
  }

  lemma CutLast(list: seq<Node>)
    requires list != []
    ensures Cut(list, |list| - 1) == list[..|list| - 1]
  {
  }

  lemma PairsPrefix(list: seq<Node>, n: nat)
    requires n <= |list|
    ensures Pairs(list[..n]) == Pairs(list)[..n]
  {
  }

  lemma CutPairs(list: seq<Node>, p: nat)
    requires p < |list| && UniqueKeys(Pairs(list))
    ensures Pairs(Cut(list, p)) == Forget(Pairs(list), list[p].key)
  {
    ForgetAt(Pairs(list), p);
  }

  lemma CutKeys(list: seq<Node>, p: nat, k: Key)
    requires p < |list| && HasKey(list, k) && k != list[p].key
    ensures HasKey(Cut(list, p), k)
  {
    var i :| 0 <= i < |list| && list[i].key == k;
    assert Cut(list, p)[if i < p then i else i - 1] == list[i];
  }

  lemma EraseIndexed(list: seq<Node>, index: map<Key, nat>, p: nat)
    requires Indexed(list, index) && p < |list|
    ensures Indexed(Cut(list, p), index - {list[p].key})
  {
    var rest := Cut(list, p);
    forall k | k in index && k != list[p].key { CutKeys(list, p, k); }
    forall i, j | 0 <= i < j < |rest|
      ensures rest[i].handle != rest[j].handle && rest[i].key != rest[j].key
    {
    }
    forall i | 0 <= i < |rest|
      ensures rest[i].key != list[p].key
    {
    }
  }

  lemma SpliceIndexed(list: seq<Node>, index: map<Key, nat>, p: nat)
    requires Indexed(list, index) && p < |list|
    ensures Indexed([list[p]] + Cut(list, p), index)
    ensures Pairs([list[p]] + Cut(list, p)) == Promote(Pairs(list), list[p].key, list[p].entry)
  {
    EraseIndexed(list, index, p);
    CutPairs(list, p);
    ConsIndexed(Cut(list, p), index - {list[p].key}, list[p]);
    ConsPairs(Cut(list, p), list[p]);
    assert index == (index - {list[p].key})[list[p].key := list[p].handle];
  }

  lemma ConsKeys(list: seq<Node>, node: Node, k: Key)
    requires HasKey(list, k)
    ensures HasKey([node] + list, k)
  {
    var i :| 0 <= i < |list| && list[i].key == k;
    assert ([node] + list)[i + 1].key == k;
  }

  lemma ConsPairs(list: seq<Node>, node: Node)
    ensures Pairs([node] + list) == [Pair(node.key, node.entry)] + Pairs(list)
  {
  }

  lemma ConsIndexed(list: seq<Node>, index: map<Key, nat>, node: Node)
    requires Indexed(list, index) && node.key !in index
    requires forall i :: 0 <= i < |list| ==> list[i].handle != node.handle
    ensures Indexed([node] + list, index[node.key := node.handle])
  {
    var all := [node] + list;
    assert all[0] == node && HasKey(all, node.key);
    forall k | k in index { ConsKeys(list, node, k); }
    forall i, j | 0 <= i < j < |all|
      ensures all[i].handle != all[j].handle && all[i].key != all[j].key
    {
      assert all[j] == list[j - 1];
    }
  }

  lemma PrefixIndexed(list: seq<Node>, index: map<Key, nat>, p: nat)
    requires Indexed(list, index) && p < |list|
    ensures list[p].key in index && index[list[p].key] == list[p].handle
    ensures Find(Pairs(list), list[p].key) == Some(list[p].entry)
  {
    FindAt(Pairs(list), p);
  }

  lemma AbsentKey(list: seq<Node>, index: map<Key, nat>, k: Key)
    requires Indexed(list, index) && k !in index
    ensures Find(Pairs(list), k) == None && Forget(Pairs(list), k) == Pairs(list)
  {
    FindNone(Pairs(list), k);
  }

  /** The place of the node an iterator points to. */
  function Position(list: seq<Node>, index: map<Key, nat>, k: Key): (p: nat)
    requires Indexed(list, index) && k in index
    ensures p < |list| && list[p].key == k && list[p].handle == index[k]
  {
    assert HasKey(list, k);
    var p :| 0 <= p < |list| && list[p].handle == index[k];
    p
  }

  class IdempotencyCache {
    const capacity: nat
    const maxWait: nat
    var list: seq<Node>
    var index: map<Key, nat>
    var inFlight: map<Key, Time>
    var nextHandle: nat

    ghost predicate Valid()
      reads this
    {
      && |list| <= capacity
      && Indexed(list, index)
      && (forall i :: 0 <= i < |list| ==> list[i].handle < nextHandle)
    }

    ghost function Value(): Cache
      reads this
    {
      Cache(capacity, maxWait, Pairs(list), inFlight)
    }

    constructor (capacity: nat, maxWait: nat)
      ensures Valid() && Value() == Cache(capacity, maxWait, [], map[])
    {
      this.capacity, this.maxWait := capacity, maxWait;
      list, index, inFlight, nextHandle := [], map[], map[], 0;
    }

    /** The entry of an indexed key. */
    method Fetch(k: Key) returns (found: Option<Entry>)
      requires Valid()
      ensures found == Find(Value().lru, k) && (found.Some? <==> k in index)
      ensures found.None? ==> Forget(Value().lru, k) == Value().lru
    {
      if k in index {
        var p := Position(list, index, k);
        PrefixIndexed(list, index, p);
        found := Some(list[p].entry);
      } else {
        AbsentKey(list, index, k);
        found := None;
      }
    }

    /** Removes a node from list and index; the source passes it as an iterator. */
    method EraseNode(p: nat)
      requires Valid() && p < |list|
      modifies `list, `index
      ensures Valid() && list == Cut(old(list), p) && index == old(index) - {old(list)[p].key}
    {
      EraseIndexed(list, index, p);
      index := index - {list[p].key};
      list := Cut(list, p);
    }

    /** Removes the node of an indexed key. */
    method Erase(k: Key)
      requires Valid() && k in index
      modifies `list, `index
      ensures Valid() && Value() == old(Value()).(lru := Forget(old(Value()).lru, k))
      ensures |list| == |old(list)| - 1 && index == old(index) - {k}
    {
      var p := Position(list, index, k);
      CutPairs(list, p);
      EraseNode(p);
    }

    /** Splices an indexed node to the front of the list. */
    method MoveToFront(k: Key)
      requires Valid() && k in index
      modifies `list
      ensures Valid() && Find(old(Value()).lru, k).Some?
      ensures Value() == old(Value()).(lru := Promote(old(Value()).lru, k, Find(old(Value()).lru, k).value))
    {
      var p := Position(list, index, k);
      PrefixIndexed(list, index, p);
      SpliceIndexed(list, index, p);
      list := [list[p]] + Cut(list, p);
    }

    /** Replays a live entry and erases a dead one. */
    method Replay(k: Key, now: Time) returns (hit: Option<Entry>)
      requires Valid()
      modifies `list, `index
      ensures Valid()
      ensures var c, found := old(Value()), Find(old(Value()).lru, k);
              if found.Some? && found.value.expiresAt > now
              then hit == found && Value() == c.(lru := Promote(c.lru, k, found.value))
              else hit == None && Value() == c.(lru := Forget(c.lru, k))
    {
      hit := Fetch(k);
      if hit.Some? {
        if hit.value.expiresAt <= now {
          Erase(k);
          hit := None;
        } else {
          MoveToFront(k);
        }
      }
    }

    /** Takes the reservation over when there is none or it has expired. */
    method TryReserve(k: Key, at: Time, until: Time) returns (taken: bool)
      modifies `inFlight
      ensures taken <==> k !in old(inFlight) || old(inFlight)[k] <= at
      ensures inFlight == if taken then old(inFlight)[k := until] else old(inFlight)
    {
      if k in inFlight {
        if inFlight[k] > at {
          return false;
        }
        inFlight := inFlight - {k};
      }
      inFlight := inFlight[k := until];
      assert inFlight == old(inFlight)[k := until];
      taken := true;
    }

    method LookupBegin(k: Key, now: Time, later: Time) returns (answer: Answer)
      requires Valid()
      modifies `list, `index, `inFlight
      ensures Valid() && (Value(), answer) == Begin(old(Value()), k, now, later)
    {
      if k == "" {
        return Miss;
      }
      var hit := Replay(k, now);
      if hit.Some? {
        return Hit(hit.value);
      }
      answer := ClaimKey(k, now, later);
    }

    method ClaimKey(k: Key, now: Time, later: Time) returns (answer: Answer)
      requires Valid()
      modifies `inFlight
      ensures Valid() && (Value(), answer) == Claim(old(Value()), k, now, later)
    {
      var taken := TryReserve(k, now, now + maxWait);
      answer := if taken then Miss else Wait(Min(later + maxWait, inFlight[k]));
    }

    method LookupResume(k: Key, polled: Time, checked: Time, swept: Time, reserved: Time) returns (answer: Answer)
      requires Valid()
      modifies `list, `index, `inFlight
      ensures Valid() && (Value(), answer) == Resume(old(Value()), k, polled, checked, swept, reserved)
    {
      var signalled := k !in inFlight || inFlight[k] <= polled || k in index;
      assert signalled <==> WakeReady(Value(), k, polled) by { Presence(k); }
      if signalled {
        var hit := Replay(k, checked);
        if hit.Some? {
          return Hit(hit.value);
        }
      }
      TakeOver(k, swept, reserved);
      answer := Miss;
    }

    method TakeOver(k: Key, swept: Time, reserved: Time)
      requires Valid()
      modifies `inFlight
      ensures Valid() && Value() == Renew(old(Value()), k, swept, reserved)
    {
      if k in inFlight && inFlight[k] <= swept {
        inFlight := inFlight - {k};
        inFlight := inFlight[k := reserved + maxWait];
        assert inFlight == old(inFlight)[k := reserved + maxWait];
      }
    }

    lemma Presence(k: Key)
      requires Valid()
      ensures Find(Value().lru, k).Some? <==> k in index
    {
      if k in index {
        PrefixIndexed(list, index, Position(list, index, k));
      } else {
        AbsentKey(list, index, k);
      }
    }

    method EvictIfNeeded()
      requires Valid() && capacity >= 1
      modifies `list, `index
      ensures Valid() && |list| < capacity
      ensures Value() == old(Value()).(lru := Evict(old(Value()).lru, capacity))
      ensures index.Keys <= old(index.Keys)
    {
      while |list| >= capacity
        invariant Valid() && |list| <= |old(list)| && list == old(list)[..|list|]
        invariant list == old(list) || |list| == capacity - 1
        invariant index.Keys <= old(index.Keys)
        decreases |list|
      {
        CutLast(list);
        EraseNode(|list| - 1);
      }
      PairsPrefix(old(list), |list|);
    }

    method PushFront(k: Key, e: Entry)
      requires Valid() && |list| < capacity && k !in index
      modifies `list, `index, `nextHandle
      ensures Valid() && Value() == old(Value()).(lru := [Pair(k, e)] + old(Value()).lru)
    {
      ConsIndexed(list, index, Node(nextHandle, k, e));
      ConsPairs(list, Node(nextHandle, k, e));
      list := [Node(nextHandle, k, e)] + list;
      index := index[k := nextHandle];
      nextHandle := nextHandle + 1;
    }

    /** With capacity 0 the eviction of the source would not end, so it must not be called. */
    method StoreEntry(k: Key, e: Entry)
      requires Valid() && capacity >= 1
      modifies this
      ensures Valid() && Value() == Store(old(Value()), k, e)
    {
      if k == "" {
        return;
      }
      EraseExisting(k);
      EvictIfNeeded();
      PushFront(k, e);
      CancelReservation(k);
    }

    method EraseExisting(k: Key)
      requires Valid()
      modifies `list, `index
      ensures Valid() && k !in index && Value() == old(Value()).(lru := Forget(old(Value()).lru, k))
    {
      if k in index {
        Erase(k);
      } else {
        AbsentKey(list, index, k);
      }
    }

    method CancelReservation(k: Key)
      requires Valid()
      modifies `inFlight
      ensures Valid() && Value() == Cancel(old(Value()), k)
    {
      if k != "" {
        inFlight := inFlight - {k};
      }
    }
  }
}
