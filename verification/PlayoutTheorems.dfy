/** What the playout buffer promises over whole sessions. */
module PlayoutTheorems {
  import opened Basics
  import opened PlayoutBuffer

  datatype Op = Feed(frame: Frame) | Call(cap: nat, early: bool, late: bool) | Signal

  /** A buffer with its history: the frames accepted, and the real samples delivered. */
  datatype Session = Session(buffer: Buffer, pushed: seq<Frame>, heard: seq<Sample>)

  function Do(cfg: Config, s: Session, op: Op): Session
    requires FramesFull(s.buffer)
  {
    match op
    case Feed(f) => Session(Push(cfg, s.buffer, f), if f.samples == [] then s.pushed else s.pushed + [f], s.heard)
    case Call(cap, early, late) =>
      var p := Pop(cfg, s.buffer, cap, early, late);
      PlayedBound(cfg, s.buffer, cap, early, late);
      Session(p.buffer, s.pushed, s.heard + p.out[..p.played])
    case Signal => s.(buffer := s.buffer.(eos := true))
  }

  lemma PlayedBound(cfg: Config, b: Buffer, cap: nat, early: bool, late: bool)
    requires FramesFull(b)
    ensures Pop(cfg, b, cap, early, late).played <= |Pop(cfg, b, cap, early, late).out|
  {
  }

  function Run(cfg: Config, s: Session, ops: seq<Op>): Session
    requires FramesFull(s.buffer)
    decreases |ops|
  {
    if ops == [] then s else
      FullKept(cfg, s, ops[0]);
      Run(cfg, Do(cfg, s, ops[0]), ops[1..])
  }

  function Begin(): Session {
    Session(Empty(), [], [])
  }

  lemma {:induction false} DrainSuffix(queue: seq<Frame>, offset: nat, n: nat)
    ensures forall f <- Drain(queue, offset, n).0 :: f in queue
    decreases |queue|
  {
    if n != 0 && queue != [] && n >= Left(queue[0], offset) {
      DrainSuffix(queue[1..], 0, n - Left(queue[0], offset));
    }
  }

  lemma {:induction false} DropSuffix(mark: nat, queue: seq<Frame>, offset: nat)
    ensures var (rest, off, dropped) := DropOver(mark, queue, offset);
            dropped <= |queue| && rest == queue[dropped..] && off == if dropped == 0 then offset else 0
    decreases |queue|
  {
    if Depth(queue, offset) > mark && |queue| > 1 {
      DropSuffix(mark, queue[1..], 0);
    }
  }

  lemma FeedKeepsFull(cfg: Config, b: Buffer, f: Frame)
    requires FramesFull(b)
    ensures FramesFull(Push(cfg, b, f))
  {
    if f.samples != [] { DropSuffix(cfg.highWater, b.queue + [f], b.offset); }
  }

  lemma PopKeepsFull(cfg: Config, b: Buffer, cap: nat, early: bool, late: bool)
    requires FramesFull(b)
    ensures FramesFull(Pop(cfg, b, cap, early, late).buffer)
  {
    DrainSuffix(b.queue, b.offset, cap);
    LastUsedFull(b.queue, b.offset, cap, b.last);
  }

  lemma FullKept(cfg: Config, s: Session, op: Op)
    requires FramesFull(s.buffer)
    ensures FramesFull(Do(cfg, s, op).buffer)
  {
    match op
    case Feed(f) => FeedKeepsFull(cfg, s.buffer, f);
    case Call(cap, early, late) => PopKeepsFull(cfg, s.buffer, cap, early, late);
    case Signal =>
  }

  // ----- Fidelity -----------------------------------------------------------------------

  /** The first `cuts[i]` samples of each frame, one after the other. */
  function Pieces(frames: seq<Frame>, cuts: seq<nat>): seq<Sample>
    requires |frames| == |cuts| && forall i :: 0 <= i < |cuts| ==> cuts[i] <= |frames[i].samples|
  {
    if frames == [] then []
    else
      var n := |frames| - 1;
      Pieces(frames[..n], cuts[..n]) + frames[n].samples[..cuts[n]]
  }

  predicate Fits(frames: seq<Frame>, cuts: seq<nat>) {
    |frames| == |cuts| && forall i :: 0 <= i < |cuts| ==> cuts[i] <= |frames[i].samples|
  }

  predicate Whole(frames: seq<Frame>, cuts: seq<nat>)
    requires |frames| == |cuts|
  {
    forall i :: 0 <= i < |cuts| ==> cuts[i] == |frames[i].samples|
  }

  function Played(queue: seq<Frame>, offset: nat): seq<Sample>
    requires queue == [] || offset <= |queue[0].samples|
  {
    if queue == [] then [] else queue[0].samples[..offset]
  }

  /** The frames that have left the queue were heard up to their cut, the front frame up to
      the offset, and the queue is the rest of what was pushed. */
  predicate Tracks(pushed: seq<Frame>, cuts: seq<nat>, queue: seq<Frame>, offset: nat, heard: seq<Sample>) {
    && |cuts| <= |pushed| && queue == pushed[|cuts|..] && Fits(pushed[..|cuts|], cuts)
    && (queue == [] || offset <= |queue[0].samples|)
    && heard == Pieces(pushed[..|cuts|], cuts) + Played(queue, offset)
  }

  /** The front frame leaves, heard up to the offset. */
  lemma Leave(pushed: seq<Frame>, cuts: seq<nat>, queue: seq<Frame>, offset: nat, heard: seq<Sample>)
    requires Tracks(pushed, cuts, queue, offset, heard) && queue != []
    ensures Tracks(pushed, cuts + [offset], queue[1..], 0, heard)
  {
    var k, more := |cuts|, cuts + [offset];
    assert pushed[..k + 1][..k] == pushed[..k] && more[..k] == cuts && pushed[..k + 1][k] == queue[0];
    assert Fits(pushed[..k + 1], more);
    assert Pieces(pushed[..k + 1], more) == Pieces(pushed[..k], cuts) + queue[0].samples[..offset];
    assert Played(queue[1..], 0) == [];
  }

  /** `n` more samples of the front frame are heard. */
  lemma Hear(pushed: seq<Frame>, cuts: seq<nat>, queue: seq<Frame>, offset: nat, heard: seq<Sample>, n: nat)
    requires Tracks(pushed, cuts, queue, offset, heard) && queue != [] && offset + n <= |queue[0].samples|
    ensures Tracks(pushed, cuts, queue, offset + n, heard + queue[0].samples[offset..offset + n])
  {
    var front := queue[0].samples;
    assert front[..offset] + front[offset..offset + n] == front[..offset + n];
    Append(Pieces(pushed[..|cuts|], cuts), front[..offset], front[offset..offset + n]);
  }

  lemma WholeMore(frames: seq<Frame>, cuts: seq<nat>, pushed: seq<Frame>)
    requires |cuts| < |pushed| && frames == pushed[..|cuts|] && Whole(frames, cuts)
    ensures Whole(pushed[..|cuts| + 1], cuts + [|pushed[|cuts|].samples|])
  {
  }

  /** The rest of the front frame is heard, and it leaves whole. */
  lemma HearOut(pushed: seq<Frame>, cuts: seq<nat>, queue: seq<Frame>, offset: nat, heard: seq<Sample>)
    returns (more: seq<nat>)
    requires Tracks(pushed, cuts, queue, offset, heard) && queue != []
    ensures Tracks(pushed, more, queue[1..], 0, heard + Part(queue[0], offset, Left(queue[0], offset)))
    ensures |more| == |cuts| + 1 <= |pushed| && (Whole(pushed[..|cuts|], cuts) ==> Whole(pushed[..|more|], more))
  {
    var left := Left(queue[0], offset);
    Hear(pushed, cuts, queue, offset, heard, left);
    assert Part(queue[0], offset, left) == queue[0].samples[offset..offset + left];
    more := cuts + [offset + left];
    Leave(pushed, cuts, queue, offset + left, heard + Part(queue[0], offset, left));
    if Whole(pushed[..|cuts|], cuts) { WholeMore(pushed[..|cuts|], cuts, pushed); }
  }

  lemma {:induction false} DrainTracks(
    pushed: seq<Frame>, cuts: seq<nat>, queue: seq<Frame>, offset: nat, n: nat, heard: seq<Sample>)
    returns (more: seq<nat>)
    requires Tracks(pushed, cuts, queue, offset, heard)
    ensures var (rest, off) := Drain(queue, offset, n);
            Tracks(pushed, more, rest, off, heard + Delivered(queue, offset, n))
    ensures |cuts| <= |more| <= |pushed| && (Whole(pushed[..|cuts|], cuts) ==> Whole(pushed[..|more|], more))
    decreases |queue|
  {
    more := cuts;
    if n == 0 || queue == [] {
      assert heard + [] == heard;
    } else if n < Left(queue[0], offset) {
      Hear(pushed, cuts, queue, offset, heard, n);
    } else {
      var left := Left(queue[0], offset);
      var part := Part(queue[0], offset, left);
      more := HearOut(pushed, cuts, queue, offset, heard);
      more := DrainTracks(pushed, more, queue[1..], 0, n - left, heard + part);
      Append(heard, part, Delivered(queue[1..], 0, n - left));
    }
  }

  lemma {:induction false} DropTracks(
    mark: nat, pushed: seq<Frame>, cuts: seq<nat>, queue: seq<Frame>, offset: nat, heard: seq<Sample>)
    returns (more: seq<nat>)
    requires Tracks(pushed, cuts, queue, offset, heard)
    ensures var (rest, off, dropped) := DropOver(mark, queue, offset);
            Tracks(pushed, more, rest, off, heard) && (dropped == 0 ==> more == cuts)
    decreases |queue|
  {
    more := cuts;
    if Depth(queue, offset) > mark && |queue| > 1 {
      Leave(pushed, cuts, queue, offset, heard);
      more := DropTracks(mark, pushed, cuts + [offset], queue[1..], 0, heard);
    }
  }

  lemma FeedTracks(pushed: seq<Frame>, cuts: seq<nat>, queue: seq<Frame>, offset: nat, heard: seq<Sample>, f: Frame)
    requires Tracks(pushed, cuts, queue, offset, heard) && (queue == [] ==> offset == 0)
    ensures Tracks(pushed + [f], cuts, queue + [f], offset, heard)
  {
    assert (pushed + [f])[..|cuts|] == pushed[..|cuts|];
  }

  /** A session is faithful: `cuts` tells how much of each departed frame was heard, and
      without overruns that is all of it. */
  predicate Faithful(s: Session, cuts: seq<nat>) {
    && Tracks(s.pushed, cuts, s.buffer.queue, s.buffer.offset, s.heard)
    && (s.buffer.queue == [] ==> s.buffer.offset == 0)
    && (s.buffer.overruns == 0 ==> Whole(s.pushed[..|cuts|], cuts))
  }

  lemma {:induction false} EmptyOffset(queue: seq<Frame>, offset: nat, n: nat)
    requires queue == [] ==> offset == 0
    ensures Drain(queue, offset, n).0 == [] ==> Drain(queue, offset, n).1 == 0
    decreases |queue|
  {
    if n != 0 && queue != [] && n >= Left(queue[0], offset) {
      EmptyOffset(queue[1..], 0, n - Left(queue[0], offset));
    }
  }

  lemma FaithfulStep(cfg: Config, s: Session, op: Op, cuts: seq<nat>) returns (more: seq<nat>)
    requires FramesFull(s.buffer) && Faithful(s, cuts)
    ensures Faithful(Do(cfg, s, op), more)
  {
    var b := s.buffer;
    more := cuts;
    match op
    case Feed(f) =>
      if f.samples != [] {
        more := FeedFaithful(cfg, s, f, cuts);
      }
    case Call(cap, early, late) => more := CallFaithful(cfg, s, op, cuts);
    case Signal =>
  }

  lemma FeedFaithful(cfg: Config, s: Session, f: Frame, cuts: seq<nat>) returns (more: seq<nat>)
    requires FramesFull(s.buffer) && Faithful(s, cuts) && f.samples != []
    ensures Faithful(Do(cfg, s, Feed(f)), more)
  {
    var b := s.buffer;
    FeedTracks(s.pushed, cuts, b.queue, b.offset, s.heard, f);
    more := DropTracks(cfg.highWater, s.pushed + [f], cuts, b.queue + [f], b.offset, s.heard);
    DropSuffix(cfg.highWater, b.queue + [f], b.offset);
    assert (s.pushed + [f])[..|cuts|] == s.pushed[..|cuts|];
  }

  /** A Pop either leaves the queue alone or drains it and delivers what it drained. */
  lemma PopShape(cfg: Config, b: Buffer, cap: nat, early: bool, late: bool)
    requires FramesFull(b)
    ensures var p := Pop(cfg, b, cap, early, late);
            && p.buffer.overruns == b.overruns && p.played <= |p.out|
            && ((p.buffer.queue == b.queue && p.buffer.offset == b.offset && p.played == 0)
                || ((p.buffer.queue, p.buffer.offset) == Drain(b.queue, b.offset, cap)
                    && p.out[..p.played] == Delivered(b.queue, b.offset, cap)))
  {
  }

  lemma CallFaithful(cfg: Config, s: Session, op: Op, cuts: seq<nat>) returns (more: seq<nat>)
    requires FramesFull(s.buffer) && Faithful(s, cuts) && op.Call?
    ensures Faithful(Do(cfg, s, op), more)
  {
    var b := s.buffer;
    var p := Pop(cfg, b, op.cap, op.early, op.late);
    PopShape(cfg, b, op.cap, op.early, op.late);
    if (p.buffer.queue, p.buffer.offset) == Drain(b.queue, b.offset, op.cap)
       && p.out[..p.played] == Delivered(b.queue, b.offset, op.cap) {
      more := DrainTracks(s.pushed, cuts, b.queue, b.offset, op.cap, s.heard);
      EmptyOffset(b.queue, b.offset, op.cap);
    } else {
      more := cuts;
      assert s.heard + p.out[..0] == s.heard;
    }
  }

  lemma {:induction false} FaithfulRun(cfg: Config, s: Session, ops: seq<Op>, cuts: seq<nat>) returns (more: seq<nat>)
    requires FramesFull(s.buffer) && Faithful(s, cuts)
    ensures FramesFull(Run(cfg, s, ops).buffer) && Faithful(Run(cfg, s, ops), more)
    decreases |ops|
  {
    if ops == [] {
      more := cuts;
    } else {
      FullKept(cfg, s, ops[0]);
      var next := FaithfulStep(cfg, s, ops[0], cuts);
      more := FaithfulRun(cfg, Do(cfg, s, ops[0]), ops[1..], next);
    }
  }

  /** All samples of the frames, one after the other. */
  function Concat(frames: seq<Frame>): seq<Sample> {
    if frames == [] then [] else Concat(frames[..|frames| - 1]) + frames[|frames| - 1].samples
  }

  /** The cuts of all frames: departed, front, and untouched. */
  lemma {:induction false} Uncut(frames: seq<Frame>) returns (cuts: seq<nat>)
    ensures Fits(frames, cuts) && Pieces(frames, cuts) == []
  {
    cuts := seq(|frames|, _ => 0);
    if frames != [] {
      var n := |frames| - 1;
      var rest := Uncut(frames[..n]);
      cuts := rest + [0];
      assert cuts[..n] == rest;
    }
  }

  lemma FitsAppend(a: seq<Frame>, ca: seq<nat>, b: seq<Frame>, cb: seq<nat>)
    requires Fits(a, ca) && Fits(b, cb)
    ensures Fits(a + b, ca + cb)
  {
  }

  lemma PiecesSnoc(frames: seq<Frame>, cuts: seq<nat>, f: Frame, cut: nat)
    requires Fits(frames, cuts) && cut <= |f.samples| && Fits(frames + [f], cuts + [cut])
    ensures Pieces(frames + [f], cuts + [cut]) == Pieces(frames, cuts) + f.samples[..cut]
  {
    assert (frames + [f])[..|frames|] == frames && (cuts + [cut])[..|cuts|] == cuts;
  }

  lemma {:induction false} PiecesAppend(a: seq<Frame>, ca: seq<nat>, b: seq<Frame>, cb: seq<nat>)
    requires Fits(a, ca) && Fits(b, cb) && Fits(a + b, ca + cb)
    ensures Pieces(a + b, ca + cb) == Pieces(a, ca) + Pieces(b, cb)
    decreases |b|
  {
    if b == [] {
      assert a + b == a && ca + cb == ca && Pieces(b, cb) == [];
    } else {
      var n := |b| - 1;
      FitsAppend(a, ca, b[..n], cb[..n]);
      PiecesAppend(a, ca, b[..n], cb[..n]);
      LastOfBoth(a, b);
      LastOfBoth(ca, cb);
      PiecesSnoc(a + b[..n], ca + cb[..n], b[n], cb[n]);
      Append(Pieces(a, ca), Pieces(b[..n], cb[..n]), b[n].samples[..cb[n]]);
    }
  }

  /** A queue as far as it was heard. */
  lemma QueueCuts(queue: seq<Frame>, offset: nat) returns (cuts: seq<nat>)
    requires queue == [] || offset <= |queue[0].samples|
    ensures Fits(queue, cuts) && Pieces(queue, cuts) == Played(queue, offset)
  {
    if queue == [] {
      cuts := [];
    } else {
      var rest := Uncut(queue[1..]);
      var front := [offset];
      assert queue[..1][..0] == [] && front[..0] == [];
      assert Pieces(queue[..1], front) == queue[0].samples[..offset];
      FitsAppend(queue[..1], front, queue[1..], rest);
      PiecesAppend(queue[..1], front, queue[1..], rest);
      assert queue[..1] + queue[1..] == queue;
      cuts := front + rest;
    }
  }

  /** Playout fidelity, in every session: what was heard is a prefix of each pushed frame, in
      the order they were pushed, nothing repeated and nothing reordered. */
  lemma HeardInOrder(cfg: Config, ops: seq<Op>) returns (cuts: seq<nat>)
    ensures var s := Run(cfg, Begin(), ops);
            Fits(s.pushed, cuts) && s.heard == Pieces(s.pushed, cuts)
  {
    var s := Run(cfg, Begin(), ops);
    var left := FaithfulRun(cfg, Begin(), ops, []);
    cuts := AllCuts(s.pushed, left, s.buffer.queue, s.buffer.offset, s.heard);
  }

  lemma AllCuts(pushed: seq<Frame>, left: seq<nat>, queue: seq<Frame>, offset: nat, heard: seq<Sample>)
    returns (cuts: seq<nat>)
    requires Tracks(pushed, left, queue, offset, heard)
    ensures Fits(pushed, cuts) && heard == Pieces(pushed, cuts)
  {
    var right := QueueCuts(queue, offset);
    assert pushed == pushed[..|left|] + queue;
    JoinedPieces(pushed[..|left|], left, queue, right);
    cuts := left + right;
  }

  lemma JoinedPieces(a: seq<Frame>, ca: seq<nat>, b: seq<Frame>, cb: seq<nat>)
    requires Fits(a, ca) && Fits(b, cb)
    ensures Fits(a + b, ca + cb) && Pieces(a + b, ca + cb) == Pieces(a, ca) + Pieces(b, cb)
  {
    FitsAppend(a, ca, b, cb);
    PiecesAppend(a, ca, b, cb);
  }

  lemma {:induction false} WholePieces(frames: seq<Frame>, cuts: seq<nat>)
    requires Fits(frames, cuts) && Whole(frames, cuts)
    ensures Pieces(frames, cuts) == Concat(frames)
  {
    if frames != [] {
      WholePieces(frames[..|frames| - 1], cuts[..|frames| - 1]);
    }
  }

  lemma ConcatSnoc(frames: seq<Frame>, f: Frame)
    ensures Concat(frames + [f]) == Concat(frames) + f.samples
  {
    assert (frames + [f])[..|frames|] == frames;
  }

  lemma {:induction false} ConcatAppend(a: seq<Frame>, b: seq<Frame>)
    ensures Concat(a + b) == Concat(a) + Concat(b)
    decreases |b|
  {
    if b == [] {
      assert a + b == a;
    } else {
      var n := |b| - 1;
      ConcatAppend(a, b[..n]);
      LastOfBoth(a, b);
      ConcatSnoc(a + b[..n], b[n]);
      Append(Concat(a), Concat(b[..n]), b[n].samples);
    }
  }

  lemma {:induction false} RemainingIsConcat(queue: seq<Frame>)
    ensures Remaining(queue, 0) == Concat(queue)
    decreases |queue|
  {
    if queue != [] {
      RemainingIsConcat(queue[1..]);
      ConcatAppend(queue[..1], queue[1..]);
      assert queue[..1] + queue[1..] == queue;
      assert Concat(queue[..1]) == queue[0].samples by { assert queue[..1][..0] == []; }
      assert Unplayed(queue[0], 0) == queue[0].samples;
    }
  }

  lemma PlayedThenRemaining(queue: seq<Frame>, offset: nat)
    requires queue == [] || offset <= |queue[0].samples|
    ensures Played(queue, offset) + Remaining(queue, offset) == Concat(queue)
  {
    RemainingIsConcat(queue);
    if queue != [] {
      var front := queue[0].samples;
      assert front[..offset] + Unplayed(queue[0], offset) == front == Unplayed(queue[0], 0);
      Append(front[..offset], Unplayed(queue[0], offset), Remaining(queue[1..], 0));
    }
  }

  /** Without overruns nothing is lost: what was heard, followed by what is still queued, is
      everything that was pushed. */
  lemma NothingLost(cfg: Config, ops: seq<Op>)
    ensures var s := Run(cfg, Begin(), ops);
            s.buffer.overruns == 0 ==> s.heard + Remaining(s.buffer.queue, s.buffer.offset) == Concat(s.pushed)
  {
    var s := Run(cfg, Begin(), ops);
    var cuts := FaithfulRun(cfg, Begin(), ops, []);
    if s.buffer.overruns == 0 {
      AllAccounted(s.pushed, cuts, s.buffer.queue, s.buffer.offset, s.heard);
    }
  }

  lemma AllAccounted(pushed: seq<Frame>, cuts: seq<nat>, queue: seq<Frame>, offset: nat, heard: seq<Sample>)
    requires Tracks(pushed, cuts, queue, offset, heard) && Whole(pushed[..|cuts|], cuts)
    ensures heard + Remaining(queue, offset) == Concat(pushed)
  {
    var k := |cuts|;
    WholePieces(pushed[..k], cuts);
    ConcatAppend(pushed[..k], queue);
    assert pushed == pushed[..k] + queue;
    PlayedThenRemaining(queue, offset);
    Append(Concat(pushed[..k]), Played(queue, offset), Remaining(queue, offset));
  }

  lemma PartSplits(f: Frame, offset: nat, k: nat)
    requires k <= Left(f, offset)
    ensures Part(f, offset, k) + Unplayed(f, offset + k) == Unplayed(f, offset)
    ensures k == Left(f, offset) ==> Part(f, offset, k) == Unplayed(f, offset)
  {
  }

  /** One drain takes the next samples to be played, as many as there are up to `n`, and leaves
      exactly the others. */
  lemma {:induction false} DrainSplits(queue: seq<Frame>, offset: nat, n: nat)
    ensures var (rest, off) := Drain(queue, offset, n);
            Delivered(queue, offset, n) + Remaining(rest, off) == Remaining(queue, offset)
    decreases |queue|
  {
    if n == 0 || queue == [] {
      assert [] + Remaining(queue, offset) == Remaining(queue, offset);
    } else {
      var front, left := queue[0], Left(queue[0], offset);
      if n < left {
        PartSplits(front, offset, n);
        Append(Part(front, offset, n), Unplayed(front, offset + n), Remaining(queue[1..], 0));
      } else {
        var (rest, off) := Drain(queue[1..], 0, n - left);
        DrainSplits(queue[1..], 0, n - left);
        PartSplits(front, offset, left);
        Append(Unplayed(front, offset), Delivered(queue[1..], 0, n - left), Remaining(rest, off));
      }
    }
  }

  /** The repeat policy plays the last frame in a circle: first the frame, then each sample
      again one frame later. */
  lemma {:induction false} RepeatIsCyclic(samples: seq<Sample>, n: nat, i: nat)
    requires samples != [] && i < n
    ensures Repeat(samples, n)[i] == if i < |samples| then samples[i] else Repeat(samples, n)[i - |samples|]
    decreases n
  {
    if i >= |samples| {
      RepeatIsCyclic(samples, n - |samples|, i - |samples|);
    }
  }

  // ----- The state machine of Pop -------------------------------------------------------

  /** A Pop with room returns nothing exactly when the queue is empty and it reads the end of
      the stream, and a full callback frame otherwise. */
  lemma PopIsAllOrNothing(cfg: Config, b: Buffer, cap: nat, early: bool, late: bool)
    requires FramesFull(b) && cap > 0
    ensures var ended := b.eos || ((b.primed || early) && (early || late));
            |Pop(cfg, b, cap, early, late).out| == if b.queue == [] && ended then 0 else cap
  {
  }

  /** Without a signal in mid-call that is: end of stream and nothing queued. */
  lemma PopEndsCleanly(cfg: Config, b: Buffer, cap: nat)
    requires FramesFull(b) && cap > 0
    ensures Pop(cfg, b, cap, false, false).out == [] <==> b.eos && b.queue == []
    ensures Pop(cfg, b, cap, false, false).out != [] ==> |Pop(cfg, b, cap, false, false).out| == cap
  {
  }

  /** An underrun is counted only once playback has started and while the stream goes on. */
  lemma UnderrunsCounted(cfg: Config, b: Buffer, cap: nat, early: bool, late: bool)
    requires FramesFull(b)
    ensures var p := Pop(cfg, b, cap, early, late);
            && b.underruns <= p.buffer.underruns <= b.underruns + 1
            && (p.buffer.underruns > b.underruns ==>
                  p.buffer.started && !p.buffer.eos && p.buffer.queue == [] && p.played < cap)
  {
    if |Delivered(b.queue, b.offset, cap)| < cap { DrainedDry(b.queue, b.offset, cap); }
  }

  lemma {:induction false} DrainedDry(queue: seq<Frame>, offset: nat, n: nat)
    requires |Delivered(queue, offset, n)| < n
    ensures Drain(queue, offset, n).0 == []
    decreases |queue|
  {
    if queue != [] {
      var left := Left(queue[0], offset);
      DrainedDry(queue[1..], 0, n - left);
    }
  }

  predicate SignalsEnd(op: Op) {
    op.Signal? || (op.Call? && (op.early || op.late))
  }

  /** Priming: before the depth first reaches the pre-roll mark and before any end of stream,
      not one queued sample is played and no underrun is counted. */
  lemma {:induction false} NothingBeforePreroll(cfg: Config, s: Session, ops: seq<Op>)
    requires FramesFull(s.buffer) && !s.buffer.primed && !s.buffer.eos && !s.buffer.started
    requires forall i :: 0 <= i < |ops| ==> !SignalsEnd(ops[i])
    requires forall i :: 0 <= i <= |ops| ==> i == 0 || Run(cfg, s, ops[..i]).buffer.depth < cfg.preroll
    ensures Run(cfg, s, ops).heard == s.heard && Run(cfg, s, ops).buffer.underruns == s.buffer.underruns
    decreases |ops|
  {
    if ops != [] {
      var next, rest := Do(cfg, s, ops[0]), ops[1..];
      FullKept(cfg, s, ops[0]);
      assert ops[..1][1..] == [] && Run(cfg, s, ops[..1]) == Run(cfg, next, []) == next;
      forall i | 0 < i <= |rest|
        ensures Run(cfg, next, rest[..i]).buffer.depth < cfg.preroll
      {
        assert ops[..i + 1][1..] == rest[..i];
        assert Run(cfg, s, ops[..i + 1]) == Run(cfg, next, rest[..i]);
      }
      assert !SignalsEnd(ops[0]) && next.buffer.depth < cfg.preroll;
      if ops[0].Call? { assert s.heard + Zeros(ops[0].cap)[..0] == s.heard; }
      assert next.heard == s.heard && !next.buffer.primed && !next.buffer.eos && !next.buffer.started;
      NothingBeforePreroll(cfg, next, rest);
    }
  }

  // ----- High water ---------------------------------------------------------------------

  /** The depth of the queue once its `d` oldest frames are gone. */
  function DepthWithout(queue: seq<Frame>, offset: nat, d: nat): nat
    requires d <= |queue|
  {
    Depth(queue[d..], if d == 0 then offset else 0)
  }

  lemma {:induction false} DropsNoMore(mark: nat, queue: seq<Frame>, offset: nat)
    ensures var (rest, off, dropped) := DropOver(mark, queue, offset);
            && (Depth(rest, off) <= mark || |rest| <= 1)
            && dropped <= |queue|
            && forall d :: 0 <= d < dropped ==> DepthWithout(queue, offset, d) > mark
    decreases |queue|
  {
    if Depth(queue, offset) > mark && |queue| > 1 {
      DropsNoMore(mark, queue[1..], 0);
      var dropped := DropOver(mark, queue, offset).2;
      forall d | 0 <= d < dropped
        ensures DepthWithout(queue, offset, d) > mark
      {
        if d == 0 {
          assert queue[0..] == queue;
        } else {
          assert queue[1..][d - 1..] == queue[d..];
          assert DepthWithout(queue[1..], 0, d - 1) > mark;
        }
      }
    }
  }

  /** After a Push the depth is at or below the mark or only the new frame remains; the frames
      dropped are the oldest ones, counted, and with one fewer the mark would be exceeded. */
  lemma HighWater(cfg: Config, b: Buffer, f: Frame)
    requires f.samples != []
    ensures var b' := Push(cfg, b, f); var all := b.queue + [f]; var dropped := b'.overruns - b.overruns;
            && 0 <= dropped < |all| && b'.queue == all[dropped..] && b'.queue != []
            && b'.depth == Depth(b'.queue, b'.offset)
            && (b'.depth <= cfg.highWater || b'.queue == [f])
            && forall d :: 0 <= d < dropped ==> DepthWithout(all, b.offset, d) > cfg.highWater
  {
    var all := b.queue + [f];
    DropSuffix(cfg.highWater, all, b.offset);
    DropsNoMore(cfg.highWater, all, b.offset);
    KeepsOne(cfg.highWater, all, b.offset);
    var dropped := DropOver(cfg.highWater, all, b.offset).2;
    assert dropped == |all| - 1 ==> all[dropped..] == [f];
  }

  lemma {:induction false} KeepsOne(mark: nat, queue: seq<Frame>, offset: nat)
    requires queue != []
    ensures DropOver(mark, queue, offset).2 < |queue|
    decreases |queue|
  {
    if Depth(queue, offset) > mark && |queue| > 1 { KeepsOne(mark, queue[1..], 0); }
  }

  /** The exact duration of the queue, in milliseconds. */
  ghost function TrueMs(queue: seq<Frame>, offset: nat): real
    requires forall f <- queue :: f.rate > 0 && f.channels > 0
  {
    if queue == [] then 0.0
    else FrameMs(queue[0], offset) + TrueMs(queue[1..], 0)
  }

  ghost function FrameMs(f: Frame, offset: nat): real
    requires f.rate > 0 && f.channels > 0
  {
    Positive(f.rate, f.channels);
    (Left(f, offset) * 1000) as real / (f.rate * f.channels) as real
  }

  lemma Positive(a: nat, b: nat)
    requires a > 0 && b > 0
    ensures a * b > 0
  {
  }

  lemma Floor(a: nat, b: nat)
    requires b > 0
    ensures (a / b) as real <= a as real / b as real < (a / b) as real + 1.0
  {
    var q, r := a / b, a % b;
    assert a == q * b + r && 0 <= r < b;
    assert a as real == q as real * b as real + r as real;
    assert a as real / b as real == q as real + r as real / b as real;
  }

  /** No frame is so long, or so slow, that its milliseconds leave 32 bits. */
  predicate Countable(queue: seq<Frame>) {
    forall f <- queue :: f.rate > 0 && f.channels > 0 && |f.samples| * 1000 / (f.rate * f.channels) < U32
  }

  lemma FrameBound(f: Frame, offset: nat)
    requires f.rate > 0 && f.channels > 0
    ensures DurationMs(Left(f, offset), f.rate, f.channels) as real <= FrameMs(f, offset)
    ensures |f.samples| * 1000 / (f.rate * f.channels) < U32 ==>
              FrameMs(f, offset) < DurationMs(Left(f, offset), f.rate, f.channels) as real + 1.0
  {
    var n, d := Left(f, offset) * 1000, f.rate * f.channels;
    Positive(f.rate, f.channels);
    Floor(n, d);
    QuotientGrows(n, |f.samples| * 1000, d);
  }

  lemma QuotientGrows(a: nat, b: nat, d: nat)
    requires a <= b && d > 0
    ensures a / d <= b / d
  {
    var q, p := a / d, b / d;
    assert q * d <= a && b < p * d + d;
    Cancels(q, p + 1, d) by { assert (p + 1) * d == p * d + d; }
  }

  lemma Cancels(q: int, r: int, d: int)
    requires q * d < r * d && d > 0
    ensures q < r
  {
    assert (r - q) * d > 0;
  }

  /** The cached depth never exceeds the true duration, and falls short of it by less than a
      millisecond a frame as long as nothing leaves 32 bits. */
  lemma {:induction false} DepthBounds(queue: seq<Frame>, offset: nat)
    requires forall f <- queue :: f.rate > 0 && f.channels > 0
    ensures Total(queue, offset) as real <= TrueMs(queue, offset)
    ensures Countable(queue) && queue != [] ==> TrueMs(queue, offset) < Total(queue, offset) as real + |queue| as real
    decreases |queue|
  {
    if queue != [] {
      FrameBound(queue[0], offset);
      DepthBounds(queue[1..], 0);
    }
  }

  lemma DepthIsClose(queue: seq<Frame>, offset: nat)
    requires forall f <- queue :: f.rate > 0 && f.channels > 0
    ensures Depth(queue, offset) as real <= TrueMs(queue, offset)
    ensures Countable(queue) && queue != [] && Total(queue, offset) < U32 ==>
              TrueMs(queue, offset) - Depth(queue, offset) as real < |queue| as real
  {
    DepthBounds(queue, offset);
  }

  /** The cached depth is the depth of the queue in every state of every session. */
  lemma {:induction false} DepthCached(cfg: Config, s: Session, ops: seq<Op>)
    requires FramesFull(s.buffer) && s.buffer.depth == Depth(s.buffer.queue, s.buffer.offset)
    ensures var b := Run(cfg, s, ops).buffer; b.depth == Depth(b.queue, b.offset)
    decreases |ops|
  {
    if ops != [] {
      FullKept(cfg, s, ops[0]);
      DepthCached(cfg, Do(cfg, s, ops[0]), ops[1..]);
    }
  }
}
