/** The bounded event ring with replay (src/events/ring.cc). */
module EventRing {
  import opened Basics

  const U64: int := 0x1_0000_0000_0000_0000

  datatype Entry = Entry(seqNo: nat, bytes: string)

  datatype Ring = Ring(capacity: nat, entries: seq<Entry>, maxSeq: nat)

  /** What a subscriber that resumes after `since` gets. */
  datatype Snapshot = Snapshot(found: bool, entries: seq<Entry>, minSeq: nat, maxSeq: nat)

  function Create(capacity: nat): Ring {
    Ring(if capacity == 0 then 1 else capacity, [], 0)
  }

  /** The new entry always gets in; a full ring loses its oldest. */
  function Push(r: Ring, e: Entry): Ring {
    r.(entries := (if |r.entries| >= r.capacity && r.entries != [] then r.entries[1..] else r.entries) + [e],
       maxSeq := if e.seqNo > r.maxSeq then e.seqNo else r.maxSeq)
  }

  function Taken(r: Ring, n: nat): nat {
    if n < |r.entries| then n else |r.entries|
  }

  /** A batch of at most `n`, oldest first; TryPop is a batch of one. */
  function PopBatch(r: Ring, n: nat): (Ring, seq<Entry>) {
    (r.(entries := r.entries[Taken(r, n)..]), r.entries[..Taken(r, n)])
  }

  /** The entries after `since`, in their order. */
  function Newer(entries: seq<Entry>, since: nat): seq<Entry> {
    if entries == [] then []
    else
      var last := entries[|entries| - 1];
      Newer(entries[..|entries| - 1], since) + if last.seqNo > since then [last] else []
  }

  /** SnapshotFromSeq; `since + 1` wraps in 64 bits. */
  function Replay(r: Ring, since: nat): Snapshot {
    if r.entries == [] then
      if r.maxSeq == 0 || since >= r.maxSeq then Snapshot(true, [], 0, 0)
      else Snapshot(false, [], 0, r.maxSeq)
    else
      var low, high := r.entries[0].seqNo, r.entries[|r.entries| - 1].seqNo;
      if since == 0 then Snapshot(true, [], low, high)
      else if (since + 1) % U64 < low then Snapshot(false, [], low, high)
      else Snapshot(true, Newer(r.entries, since), low, high)
  }

  class EventQueue {
    const capacity: nat
    var q: seq<Entry>
    var maxSeqEverPushed: nat

    ghost function Value(): Ring
      reads this
    {
      Ring(capacity, q, maxSeqEverPushed)
    }

    constructor (capacity: nat)
      ensures Value() == Create(capacity)
    {
      this.capacity := if capacity == 0 then 1 else capacity;
      q, maxSeqEverPushed := [], 0;
    }

    method PushEntry(e: Entry) returns (kept: bool)
      requires capacity >= 1
      modifies this
      ensures Value() == Push(old(Value()), e)
      ensures kept <==> |q| == |old(q)| + 1
    {
      kept := true;
      if |q| >= capacity {
        q := q[1..];
        kept := false;
      }
      if e.seqNo > maxSeqEverPushed {
        maxSeqEverPushed := e.seqNo;
      }
      q := q + [e];
    }

    method TryPop() returns (e: Option<Entry>)
      modifies `q
      ensures var (r, out) := PopBatch(old(Value()), 1);
              Value() == r && out == if e.Some? then [e.value] else []
    {
      if q == [] {
        return None;
      }
      e := Some(q[0]);
      q := q[1..];
    }

    /** WaitAndPopBatch once it no longer waits. */
    method DrainBatch(max: nat) returns (out: seq<Entry>)
      modifies `q
      ensures (Value(), out) == PopBatch(old(Value()), max)
    {
      out := [];
      while q != [] && |out| < max
        invariant out + q == old(q) && |out| <= max
        decreases |q|
      {
        out := out + [q[0]];
        q := q[1..];
      }
      Halves(out, q, old(q));
    }

    method SnapshotFromSeq(since: nat) returns (snap: Snapshot)
      requires since < U64
      ensures snap == Replay(Value(), since)
    {
      if q == [] {
        if maxSeqEverPushed == 0 || since >= maxSeqEverPushed {
          return Snapshot(true, [], 0, 0);
        }
        return Snapshot(false, [], 0, maxSeqEverPushed);
      }
      var low, high := q[0].seqNo, q[|q| - 1].seqNo;
      if since == 0 {
        return Snapshot(true, [], low, high);
      }
      if (since + 1) % U64 < low {
        return Snapshot(false, [], low, high);
      }
      var entries: seq<Entry> := [];
      for i := 0 to |q|
        invariant entries == Newer(q[..i], since)
      {
        assert q[..i + 1][..i] == q[..i];
        if q[i].seqNo > since {
          entries := entries + [q[i]];
        }
      }
      assert q[..|q|] == q;
      snap := Snapshot(true, entries, low, high);
    }
  }

  // ----- Histories ----------------------------------------------------------------------

  datatype Op = Add(entry: Entry) | Take(n: nat)

  /** A ring with its history: all entries pushed, those popped, and how many were evicted. */
  datatype History = History(ring: Ring, pushed: seq<Entry>, popped: seq<Entry>, evicted: nat)

  function Begin(capacity: nat): History {
    History(Create(capacity), [], [], 0)
  }

  function Do(h: History, op: Op): History {
    match op
    case Add(e) =>
      var lost := if |h.ring.entries| >= h.ring.capacity then 1 else 0;
      History(Push(h.ring, e), h.pushed + [e], h.popped, h.evicted + lost)
    case Take(n) =>
      var (ring, out) := PopBatch(h.ring, n);
      History(ring, h.pushed, h.popped + out, h.evicted)
  }

  function Run(h: History, ops: seq<Op>): History
    decreases |ops|
  {
    if ops == [] then h else Run(Do(h, ops[0]), ops[1..])
  }

  /** How many entries have left the ring. */
  function Gone(h: History): int {
    |h.pushed| - |h.ring.entries|
  }

  predicate MaxOf(entries: seq<Entry>, max: nat) {
    && (forall i :: 0 <= i < |entries| ==> entries[i].seqNo <= max)
    && (max == 0 || exists i :: 0 <= i < |entries| && entries[i].seqNo == max)
  }

  /** The ring is the end of what was pushed, within its capacity, and no entry is lost
      uncounted. */
  predicate Window(h: History) {
    && h.ring.capacity >= 1 && |h.ring.entries| <= h.ring.capacity
    && 0 <= Gone(h) && h.ring.entries == h.pushed[Gone(h)..]
    && |h.pushed| == |h.popped| + h.evicted + |h.ring.entries|
    && MaxOf(h.pushed, h.ring.maxSeq)
  }

  lemma AddWindow(h: History, e: Entry)
    requires Window(h)
    ensures Window(Do(h, Add(e)))
  {
    var h' := Do(h, Add(e));
    assert forall i :: 0 <= i < |h.pushed| ==> h'.pushed[i] == h.pushed[i];
    assert h'.pushed[|h.pushed|] == e;
    if h.ring.maxSeq != 0 {
      var i :| 0 <= i < |h.pushed| && h.pushed[i].seqNo == h.ring.maxSeq;
      assert h'.pushed[i].seqNo == h.ring.maxSeq;
    }
  }

  lemma {:induction false} WindowRun(h: History, ops: seq<Op>)
    requires Window(h)
    ensures Window(Run(h, ops))
    decreases |ops|
  {
    if ops != [] {
      if ops[0].Add? { AddWindow(h, ops[0].entry); }
      WindowRun(Do(h, ops[0]), ops[1..]);
    }
  }

  // ----- Delivery -----------------------------------------------------------------------

  /** `keep` marks, among the entries that have left the ring, those handed to a consumer: they
      were handed out in the order they were pushed, the others were evicted, and the ring holds
      the rest. */
  predicate Marked(h: History, keep: seq<bool>) {
    && |keep| <= |h.pushed| && h.ring.entries == h.pushed[|keep|..]
    && h.popped == Select(h.pushed, keep) && h.evicted == Lost(keep)
  }

  lemma AddMarked(h: History, e: Entry, keep: seq<bool>) returns (more: seq<bool>)
    requires h.ring.capacity >= 1 && Marked(h, keep)
    ensures Marked(Do(h, Add(e)), more)
  {
    more := keep;
    SelectMore(h.pushed, keep, e);
    if |h.ring.entries| >= h.ring.capacity {
      more := keep + [false];
      SelectNext(h.pushed + [e], keep, false);
    }
  }

  lemma {:induction false} TakeMarked(h: History, n: nat, keep: seq<bool>) returns (more: seq<bool>)
    requires Marked(h, keep)
    ensures Marked(Do(h, Take(n)), more)
    decreases n
  {
    more := keep;
    if n == 0 || h.ring.entries == [] {
      assert h.popped + [] == h.popped;
    } else {
      more := keep + [true];
      SelectNext(h.pushed, keep, true);
      OneThenRest(h, n);
      more := TakeMarked(Do(h, Take(1)), n - 1, more);
    }
  }

  /** A batch is its first entry and a batch of the others. */
  lemma OneThenRest(h: History, n: nat)
    requires n > 0 && h.ring.entries != []
    ensures Do(Do(h, Take(1)), Take(n - 1)) == Do(h, Take(n))
  {
    var (all, k) := (h.ring.entries, Taken(h.ring, n));
    assert [all[0]] + all[1..][..k - 1] == all[..k];
    Append(h.popped, [all[0]], all[1..][..k - 1]);
  }

  lemma {:induction false} MarkedRun(h: History, ops: seq<Op>, keep: seq<bool>) returns (more: seq<bool>)
    requires h.ring.capacity >= 1 && Marked(h, keep)
    ensures Marked(Run(h, ops), more)
    decreases |ops|
  {
    more := keep;
    if ops != [] {
      if ops[0].Add? {
        more := AddMarked(h, ops[0].entry, keep);
      } else {
        more := TakeMarked(h, ops[0].n, keep);
      }
      more := MarkedRun(Do(h, ops[0]), ops[1..], more);
    }
  }

  /** In every run, the entries handed out are an in-order selection of those pushed, each once;
      those missing were evicted, counted, or are still in the ring. Without evictions nothing
      is missing. */
  lemma DeliveredInOrder(capacity: nat, ops: seq<Op>) returns (keep: seq<bool>)
    ensures var h := Run(Begin(capacity), ops);
            && |keep| == Gone(h) && h.ring.entries == h.pushed[|keep|..]
            && h.popped == Select(h.pushed, keep) && h.evicted == Lost(keep)
            && (h.evicted == 0 ==> h.popped + h.ring.entries == h.pushed)
  {
    keep := MarkedRun(Begin(capacity), ops, []);
    var h := Run(Begin(capacity), ops);
    if h.evicted == 0 { SelectAll(h.pushed, keep); }
  }

  // ----- Replay -------------------------------------------------------------------------

  lemma NewerSnoc(entries: seq<Entry>, last: Entry, since: nat)
    ensures Newer(entries + [last], since) == Newer(entries, since) + if last.seqNo > since then [last] else []
  {
    assert (entries + [last])[..|entries|] == entries;
  }

  lemma {:induction false} NewerAppend(a: seq<Entry>, b: seq<Entry>, since: nat)
    ensures Newer(a + b, since) == Newer(a, since) + Newer(b, since)
    decreases |b|
  {
    if b == [] {
      assert a + b == a;
    } else {
      var n := |b| - 1;
      NewerAppend(a, b[..n], since);
      LastOfBoth(a, b);
      NewerSnoc(a + b[..n], b[n], since);
      Append(Newer(a, since), Newer(b[..n], since), if b[n].seqNo > since then [b[n]] else []);
    }
  }

  lemma {:induction false} NoneNewer(entries: seq<Entry>, since: nat)
    ensures Newer(entries, since) == [] <==> forall i :: 0 <= i < |entries| ==> entries[i].seqNo <= since
  {
    if entries != [] { NoneNewer(entries[..|entries| - 1], since); }
  }

  /** None of the entries that have left the ring comes after `since`. */
  predicate NoneMissed(h: History, since: nat)
    requires 0 <= Gone(h)
  {
    forall i :: 0 <= i < Gone(h) ==> h.pushed[i].seqNo <= since
  }

  /** What has left adds nothing to a replay exactly when none of it comes after `since`. */
  lemma NothingAdded(gone: seq<Entry>, ring: seq<Entry>, since: nat)
    ensures Newer(ring, since) == Newer(gone + ring, since) <==> forall e <- gone :: e.seqNo <= since
  {
    NewerAppend(gone, ring, since);
    EmptyPrefix(Newer(gone, since), Newer(ring, since));
    NoneNewer(gone, since);
  }

  /** An answer that is found holds the entries of the ring after `since`. */
  lemma FoundHolds(r: Ring, since: nat)
    requires 1 <= since && Replay(r, since).found
    ensures Replay(r, since).entries == Newer(r.entries, since)
  {
  }

  /** In whatever order entries were pushed, a replay that is found is complete exactly when
      no entry after `since` has left the ring. */
  lemma ReplayExact(capacity: nat, ops: seq<Op>, since: nat)
    requires 1 <= since < U64 && Replay(Run(Begin(capacity), ops).ring, since).found
    ensures var h := Run(Begin(capacity), ops);
            0 <= Gone(h) && (Replay(h.ring, since).entries == Newer(h.pushed, since) <==> NoneMissed(h, since))
  {
    WindowRun(Begin(capacity), ops);
    ExactInWindow(Run(Begin(capacity), ops), since);
  }

  lemma ExactInWindow(h: History, since: nat)
    requires Window(h) && 1 <= since && Replay(h.ring, since).found
    ensures Replay(h.ring, since).entries == Newer(h.pushed, since) <==> NoneMissed(h, since)
  {
    var gone := h.pushed[..Gone(h)];
    FoundHolds(h.ring, since);
    NothingAdded(gone, h.ring.entries, since);
    assert gone + h.ring.entries == h.pushed;
    assert forall i :: 0 <= i < |gone| ==> gone[i] == h.pushed[i];
  }

  /** Every number a caller can resume from is answered truthfully: what is found is complete. */
  ghost predicate Truthful(h: History) {
    forall since :: 1 <= since < U64 - 1 && Replay(h.ring, since).found ==>
      Replay(h.ring, since).entries == Newer(h.pushed, since)
  }

  /** The lowest number that is found while the ring has entries. */
  function Lowest(r: Ring): nat
    requires r.entries != []
  {
    if r.entries[0].seqNo <= 2 then 1 else r.entries[0].seqNo - 1
  }

  /** In whatever order entries were pushed, the ring answers truthfully if and only if it is
      empty or nothing that has left it is numbered above the lowest number it serves. */
  lemma TruthfulIff(capacity: nat, ops: seq<Op>)
    requires forall e <- Run(Begin(capacity), ops).pushed :: 1 <= e.seqNo < U64 - 1
    ensures var h := Run(Begin(capacity), ops);
            Truthful(h) <==>
              (h.ring.entries == [] || forall i :: 0 <= i < Gone(h) ==> h.pushed[i].seqNo <= Lowest(h.ring))
  {
    var h := Run(Begin(capacity), ops);
    WindowRun(Begin(capacity), ops);
    forall since | 1 <= since < U64 - 1 && Replay(h.ring, since).found
      ensures Replay(h.ring, since).entries == Newer(h.pushed, since) <==> NoneMissed(h, since)
      ensures h.ring.entries == [] ==> NoneMissed(h, since)
      ensures h.ring.entries != [] ==> Lowest(h.ring) <= since
    {
      ReplayExact(capacity, ops, since);
    }
    if h.ring.entries != [] {
      assert h.ring.entries[0] in h.pushed;
      assert Replay(h.ring, Lowest(h.ring)).found;
    }
  }

  predicate Increasing(entries: seq<Entry>) {
    forall i, j :: 0 <= i < j < |entries| ==> entries[i].seqNo < entries[j].seqNo
  }

  predicate Gapless(entries: seq<Entry>) {
    forall i :: 0 <= i < |entries| ==> entries[i].seqNo == i + 1
  }

  /** Replay truthfulness: if sequence numbers were pushed in increasing order, a found
      snapshot holds exactly every entry ever pushed with a larger one. */
  lemma ReplayComplete(capacity: nat, ops: seq<Op>, since: nat)
    requires Increasing(Run(Begin(capacity), ops).pushed) && 1 <= since < U64 - 1
    requires Replay(Run(Begin(capacity), ops).ring, since).found
    ensures Replay(Run(Begin(capacity), ops).ring, since).entries == Newer(Run(Begin(capacity), ops).pushed, since)
  {
    var h := Run(Begin(capacity), ops);
    WindowRun(Begin(capacity), ops);
    ReplayExact(capacity, ops, since);
    assert NoneMissed(h, since);
  }

  /** Without gaps the numbers tell how many entries were pushed and how many have left. */
  lemma GaplessNumbers(h: History)
    requires Window(h) && Gapless(h.pushed)
    ensures h.ring.maxSeq == |h.pushed|
    ensures h.ring.entries != [] ==> h.ring.entries[0].seqNo == Gone(h) + 1
  {
    GaplessMax(h.pushed, h.ring.maxSeq);
  }

  lemma GaplessMax(pushed: seq<Entry>, max: nat)
    requires Gapless(pushed) && MaxOf(pushed, max)
    ensures max == |pushed|
  {
    if pushed != [] { assert pushed[|pushed| - 1].seqNo == |pushed|; }
  }

  /** So a number is found exactly when at most that many entries have left. */
  lemma FoundFrom(r: Ring, gone: nat, since: nat)
    requires 1 <= since < U64 - 1 && (if r.entries == [] then r.maxSeq == gone else r.entries[0].seqNo == gone + 1)
    ensures Replay(r, since).found <==> gone <= since
  {
  }

  lemma NextIsGone(pushed: seq<Entry>, gone: nat, since: nat)
    requires Gapless(pushed) && gone <= |pushed|
    ensures (exists i :: 0 <= i < gone && pushed[i].seqNo == since + 1) <==> since < gone
  {
    if since < gone { assert pushed[since].seqNo == since + 1; }
  }

  /** With no gaps either, a snapshot is refused exactly when the entry to resume at has been
      pushed and has left the ring. */
  lemma RefusedIffGone(capacity: nat, ops: seq<Op>, since: nat)
    requires Gapless(Run(Begin(capacity), ops).pushed) && 1 <= since < U64 - 1
    ensures var h := Run(Begin(capacity), ops);
            !Replay(h.ring, since).found <==> exists i :: 0 <= i < Gone(h) && h.pushed[i].seqNo == since + 1
  {
    var h := Run(Begin(capacity), ops);
    WindowRun(Begin(capacity), ops);
    GaplessNumbers(h);
    FoundFrom(h.ring, Gone(h), since);
    NextIsGone(h.pushed, Gone(h), since);
  }

  /** When a ring with entries serves a number, and the one number for which it is not a comparison
      with the oldest entry: the largest of 64 bits, whose successor is 0. */
  lemma ServedIff(r: Ring, since: nat)
    requires r.entries != [] && since < U64
    ensures Replay(r, since).found <==>
              since == 0 || r.entries[0].seqNo == 0 || (since < U64 - 1 && r.entries[0].seqNo <= since + 1)
  {
  }

  /** The range a snapshot reports: the numbers of the oldest and the newest entry in the ring,
      between which all its entries lie when they were pushed in order; for a drained ring that
      refuses, the largest number ever pushed. A live tail gets no entries. */
  lemma SnapshotRange(capacity: nat, ops: seq<Op>, since: nat)
    requires Increasing(Run(Begin(capacity), ops).pushed)
    ensures var h := Run(Begin(capacity), ops); var snap := Replay(h.ring, since);
            && (h.ring.entries != [] ==>
                  && h.pushed != [] && snap.minSeq == h.ring.entries[0].seqNo
                  && snap.maxSeq == h.pushed[|h.pushed| - 1].seqNo
                  && forall e <- h.ring.entries :: snap.minSeq <= e.seqNo <= snap.maxSeq)
            && (h.ring.entries == [] && !snap.found ==>
                  h.pushed != [] && snap.minSeq == 0 && snap.maxSeq == h.pushed[|h.pushed| - 1].seqNo)
            && (since == 0 || !snap.found ==> snap.entries == [])
  {
    var h := Run(Begin(capacity), ops);
    WindowRun(Begin(capacity), ops);
    if h.pushed != [] { IncreasingMax(h.pushed, h.ring.maxSeq); }
  }

  lemma IncreasingMax(pushed: seq<Entry>, max: nat)
    requires pushed != [] && Increasing(pushed) && MaxOf(pushed, max)
    ensures max == pushed[|pushed| - 1].seqNo
  {
  }

  /** A live-tail subscriber (`since` 0) is refused exactly when the ring was used and has been
      drained, although the header promises it is always served. */
  lemma LiveTailRefused(capacity: nat, ops: seq<Op>)
    requires forall i :: 0 <= i < |Run(Begin(capacity), ops).pushed| ==> Run(Begin(capacity), ops).pushed[i].seqNo >= 1
    ensures var h := Run(Begin(capacity), ops);
            !Replay(h.ring, 0).found <==> h.pushed != [] && h.ring.entries == []
  {
    var h := Run(Begin(capacity), ops);
    WindowRun(Begin(capacity), ops);
    if h.pushed != [] { assert h.pushed[0].seqNo <= h.ring.maxSeq; }
  }

  /** Such a ring, at every capacity: one entry pushed and consumed. */
  lemma LiveTailInput(capacity: nat)
    ensures !Replay(Run(Begin(capacity), [Add(Entry(1, "")), Take(1)]).ring, 0).found
  {
    var ops := [Add(Entry(1, "")), Take(1)];
    var h := Do(Begin(capacity), ops[0]);
    assert h.ring.entries == [Entry(1, "")] && h.ring.maxSeq == 1;
    assert ops[1..] == [ops[1]] && [ops[1]][1..] == [];
    assert Run(h, [ops[1]]) == Run(Do(h, ops[1]), []) == Do(h, ops[1]);
  }
}
