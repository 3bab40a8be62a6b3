/** What each call on the playout buffer hears and leaves behind, told by the samples that are
    still to be played, and what its flags and counters mean over whole sessions. */
module PlayoutCalls {
  import opened Basics
  import opened PlayoutBuffer
  import opened PlayoutTheorems

  predicate Silent(out: seq<Sample>) {
    forall i :: 0 <= i < |out| ==> out[i] == 0
  }

  /** `samples` over and over: first the samples, then each one again a round later. */
  predicate Cycles(out: seq<Sample>, samples: seq<Sample>) {
    && samples != []
    && forall i :: 0 <= i < |out| ==> out[i] == if i < |samples| then samples[i] else out[i - |samples|]
  }

  /** What fills a callback frame: the last frame in a circle under the repeat policy while the
      stream goes on, silence otherwise. */
  predicate Fills(cfg: Config, last: Option<Frame>, ended: bool, pad: seq<Sample>) {
    if cfg.policy == RepeatLast && !ended && last.Some? then Cycles(pad, last.value.samples) else Silent(pad)
  }

  lemma RepeatCycles(samples: seq<Sample>, n: nat)
    requires samples != []
    ensures Cycles(Repeat(samples, n), samples)
  {
    forall i | 0 <= i < n { RepeatIsCyclic(samples, n, i); }
  }

  lemma PaddingFills(cfg: Config, last: Option<Frame>, n: nat)
    requires last.Some? ==> last.value.samples != []
    ensures Fills(cfg, last, false, Padding(cfg, last, n))
  {
    if last.Some? { RepeatCycles(last.value.samples, n); }
  }

  // ----- A call with frames queued ------------------------------------------------------

  function Min(a: nat, b: nat): nat { if a < b then a else b }

  /** The frame that holds sample `i` of what is to be played. */
  function Holder(queue: seq<Frame>, offset: nat, i: nat): Frame
    requires i < |Remaining(queue, offset)|
  {
    var front := Unplayed(queue[0], offset);
    if i < |front| then queue[0] else Holder(queue[1..], 0, i - |front|)
  }

  /** The frame that gave the last of `k` samples; an earlier one if there are none. */
  function Voice(queue: seq<Frame>, offset: nat, k: nat, last: Option<Frame>): Option<Frame>
    requires k <= |Remaining(queue, offset)|
  {
    if k == 0 then last else Some(Holder(queue, offset, k - 1))
  }

  lemma {:induction false} LastUsedIs(queue: seq<Frame>, offset: nat, n: nat, last: Option<Frame>)
    ensures LastUsed(queue, offset, n, last) == Voice(queue, offset, Min(n, |Remaining(queue, offset)|), last)
    decreases |queue|
  {
    if n != 0 && queue != [] {
      var left := Left(queue[0], offset);
      assert |Unplayed(queue[0], offset)| == left;
      if n >= left { LastUsedIs(queue[1..], 0, n - left, if left == 0 then last else Some(queue[0])); }
    }
  }

  /** A drain delivers the next samples, as many as are wanted and there, and leaves the others. */
  lemma DrainTakes(queue: seq<Frame>, offset: nat, n: nat)
    ensures var all := Remaining(queue, offset); var k := Min(n, |all|); var (rest, off) := Drain(queue, offset, n);
            Delivered(queue, offset, n) == all[..k] && Remaining(rest, off) == all[k..]
  {
    var (rest, off) := Drain(queue, offset, n);
    DrainSplits(queue, offset, n);
    if |Delivered(queue, offset, n)| < n { DrainedDry(queue, offset, n); }
    Halves(Delivered(queue, offset, n), Remaining(rest, off), Remaining(queue, offset));
  }

  lemma FillFills(cfg: Config, last: Option<Frame>, ended: bool, n: nat)
    requires last.Some? ==> last.value.samples != []
    ensures Fills(cfg, last, ended, Fill(cfg, last, ended, n))
  {
    if !ended { PaddingFills(cfg, last, n); }
  }

  lemma SoundSplits(cfg: Config, b: Buffer, cap: nat)
    requires FramesFull(b)
    ensures var audio, out := Delivered(b.queue, b.offset, cap), Sound(cfg, b, cap);
            && |out| == cap && out[..|audio|] == audio
            && out[|audio|..] == Fill(cfg, Kept(cfg, b, cap), b.eos, cap - |audio|)
  {
    var audio := Delivered(b.queue, b.offset, cap);
    Halves(audio, Fill(cfg, Kept(cfg, b, cap), b.eos, cap - |audio|), Sound(cfg, b, cap));
  }

  lemma SoundIs(cfg: Config, b: Buffer, cap: nat)
    requires FramesFull(b)
    ensures var audio, out := Delivered(b.queue, b.offset, cap), Sound(cfg, b, cap);
            && |out| == cap && out[..|audio|] == audio
            && Fills(cfg, Kept(cfg, b, cap), b.eos, out[|audio|..])
  {
    SoundSplits(cfg, b, cap);
    FillFills(cfg, Kept(cfg, b, cap), b.eos, cap - |Delivered(b.queue, b.offset, cap)|);
  }

  lemma PlayParts(cfg: Config, b: Buffer, cap: nat)
    requires FramesFull(b)
    ensures var p := Play(cfg, b, cap);
            && (p.buffer.queue, p.buffer.offset) == Drain(b.queue, b.offset, cap)
            && p.out == Sound(cfg, b, cap) && p.played == |Delivered(b.queue, b.offset, cap)|
            && p.buffer.last == Kept(cfg, b, cap)
  {
  }

  lemma PlayIs(cfg: Config, b: Buffer, cap: nat)
    requires FramesFull(b)
    ensures var all := Remaining(b.queue, b.offset); var k := Min(cap, |all|); var p := Play(cfg, b, cap);
            && p.played == k && |p.out| == cap && p.out[..k] == all[..k]
            && Fills(cfg, p.buffer.last, b.eos, p.out[k..])
            && Remaining(p.buffer.queue, p.buffer.offset) == all[k..]
  {
    DrainTakes(b.queue, b.offset, cap);
    PlayParts(cfg, b, cap);
    SoundIs(cfg, b, cap);
  }

  lemma PlayLeaves(cfg: Config, b: Buffer, cap: nat)
    requires FramesFull(b)
    ensures var all := Remaining(b.queue, b.offset); var k := Min(cap, |all|); var after := Play(cfg, b, cap).buffer;
            && after.last == (if cfg.policy == RepeatLast then Voice(b.queue, b.offset, k, b.last) else b.last)
            && after.started && after.primed == b.primed && after.eos == b.eos && after.overruns == b.overruns
            && after.underruns == b.underruns + (if k < cap && !b.eos then 1 else 0)
  {
    DrainTakes(b.queue, b.offset, cap);
    LastUsedIs(b.queue, b.offset, cap, b.last);
  }

  /** The end of the stream as Pop has seen it when it plays or pads. */
  predicate Ended(b: Buffer, early: bool, late: bool) {
    b.eos || early || late
  }

  /** Pop with frames queued, once primed or at the end of the stream: it plays the next samples,
      as many as are wanted and there, fills the rest, and leaves the other samples queued. */
  lemma PopPlays(cfg: Config, b: Buffer, cap: nat, early: bool, late: bool)
    requires FramesFull(b) && cap > 0 && b.queue != [] && (b.primed || b.eos || early)
    ensures var all := Remaining(b.queue, b.offset); var k := Min(cap, |all|);
            var p := Pop(cfg, b, cap, early, late);
            && p.played == k && |p.out| == cap && p.out[..k] == all[..k]
            && Fills(cfg, p.buffer.last, p.buffer.eos, p.out[k..])
            && Remaining(p.buffer.queue, p.buffer.offset) == all[k..]
  {
    PlayIs(cfg, b.(eos := Ended(b, early, late)), cap);
  }

  /** And this is the rest of what it leaves: the frame to repeat is the one that gave the last
      sample, playback has started, and an underrun is counted exactly when samples were missing
      before the end of the stream. */
  lemma PopLeaves(cfg: Config, b: Buffer, cap: nat, early: bool, late: bool)
    requires FramesFull(b) && cap > 0 && b.queue != [] && (b.primed || b.eos || early)
    ensures var k := Min(cap, |Remaining(b.queue, b.offset)|); var after := Pop(cfg, b, cap, early, late).buffer;
            && after.last == (if cfg.policy == RepeatLast then Voice(b.queue, b.offset, k, b.last) else b.last)
            && after.started && after.primed == b.primed && after.eos == Ended(b, early, late)
            && after.underruns == b.underruns + (if k < cap && !after.eos then 1 else 0)
            && after.overruns == b.overruns
  {
    PlayLeaves(cfg, b.(eos := Ended(b, early, late)), cap);
  }

  // ----- The other calls ----------------------------------------------------------------

  /** Before pre-roll and the end of the stream a callback frame is silence, and nothing changes. */
  lemma PopWaits(cfg: Config, b: Buffer, cap: nat, late: bool)
    requires FramesFull(b) && cap > 0 && !b.primed && !b.eos
    ensures var p := Pop(cfg, b, cap, false, late);
            |p.out| == cap && Silent(p.out) && p.played == 0 && p.buffer == b
  {
  }

  /** With nothing queued: nothing at the end of the stream, silence before playback has started,
      and filling with an underrun counted after that. */
  lemma PopStarves(cfg: Config, b: Buffer, cap: nat, early: bool, late: bool)
    requires FramesFull(b) && cap > 0 && b.queue == [] && !b.eos && (b.primed || early)
    ensures var p := Pop(cfg, b, cap, early, late);
            && p.played == 0
            && (early || late ==> p.out == [] && p.buffer == b.(eos := true))
            && (!early && !late ==> |p.out| == cap && Fills(cfg, if b.started then b.last else None, false, p.out))
            && (!early && !late ==> p.buffer == b.(underruns := b.underruns + if b.started then 1 else 0))
  {
    PaddingFills(cfg, b.last, cap);
  }

  /** A finished stream, or a call for no samples, gives nothing and changes nothing. */
  lemma PopIsOver(cfg: Config, b: Buffer, cap: nat, early: bool, late: bool)
    requires FramesFull(b) && (cap == 0 || (b.eos && b.queue == []))
    ensures Pop(cfg, b, cap, early, late) == Popped(b, [], 0)
  {
  }

  /** What a Push does not touch. */
  lemma PushKeeps(cfg: Config, b: Buffer, f: Frame)
    ensures var after := Push(cfg, b, f);
            && after.last == b.last && after.eos == b.eos && after.started == b.started
            && after.underruns == b.underruns && (f.samples == [] ==> after == b)
  {
  }

  // ----- Flags and counters over sessions -----------------------------------------------

  predicate Coherent(s: Session) {
    var b := s.buffer;
    && FramesFull(b) && (b.queue != [] ==> b.offset < |b.queue[0].samples|)
    && (b.started <==> s.heard != []) && (b.started ==> b.primed || b.eos)
  }

  lemma {:induction false} DrainInside(queue: seq<Frame>, offset: nat, n: nat)
    requires forall f <- queue :: f.samples != []
    requires queue != [] ==> offset < |queue[0].samples|
    ensures var (rest, off) := Drain(queue, offset, n); rest != [] ==> off < |rest[0].samples|
    decreases |queue|
  {
    if n != 0 && queue != [] && n >= Left(queue[0], offset) {
      assert queue[1..] != [] ==> queue[1..][0] in queue;
      DrainInside(queue[1..], 0, n - Left(queue[0], offset));
    }
  }

  lemma FeedInside(cfg: Config, b: Buffer, f: Frame)
    requires FramesFull(b) && (if b.queue == [] then b.offset == 0 else b.offset < |b.queue[0].samples|)
    ensures var after := Push(cfg, b, f); after.queue != [] ==> after.offset < |after.queue[0].samples|
  {
    if f.samples != [] {
      var all := b.queue + [f];
      var (rest, off, dropped) := DropOver(cfg.highWater, all, b.offset);
      DropSuffix(cfg.highWater, all, b.offset);
      if rest != [] { assert rest[0] == all[dropped]; }
    }
  }

  lemma SomethingLeft(queue: seq<Frame>, offset: nat)
    requires queue != [] && offset < |queue[0].samples|
    ensures |Remaining(queue, offset)| > 0
  {
  }

  lemma CallCoherent(cfg: Config, s: Session, op: Op)
    requires Coherent(s) && op.Call?
    ensures Coherent(Do(cfg, s, op))
  {
    var b := s.buffer;
    FullKept(cfg, s, op);
    DrainInside(b.queue, b.offset, op.cap);
    if op.cap > 0 && b.queue != [] && (b.primed || b.eos || op.early) {
      PopPlays(cfg, b, op.cap, op.early, op.late);
      SomethingLeft(b.queue, b.offset);
      PlayedQueue(cfg, b, op.cap, op.early, op.late);
      PopLeaves(cfg, b, op.cap, op.early, op.late);
    }
  }

  lemma PlayedQueue(cfg: Config, b: Buffer, cap: nat, early: bool, late: bool)
    requires FramesFull(b) && cap > 0 && b.queue != [] && (b.primed || b.eos || early)
    ensures var p := Pop(cfg, b, cap, early, late); (p.buffer.queue, p.buffer.offset) == Drain(b.queue, b.offset, cap)
  {
  }

  /** An empty queue has nothing of its front frame played. */
  predicate Fresh(s: Session) {
    s.buffer.queue == [] ==> s.buffer.offset == 0
  }

  lemma FreshStep(cfg: Config, s: Session, op: Op)
    requires FramesFull(s.buffer) && Fresh(s)
    ensures Fresh(Do(cfg, s, op))
  {
    var b := s.buffer;
    if op.Feed? && op.frame.samples != [] {
      KeepsOne(cfg.highWater, b.queue + [op.frame], b.offset);
      DropSuffix(cfg.highWater, b.queue + [op.frame], b.offset);
    } else if op.Call? {
      EmptyOffset(b.queue, b.offset, op.cap);
      PopShape(cfg, b, op.cap, op.early, op.late);
    }
  }

  lemma CoherentStep(cfg: Config, s: Session, op: Op)
    requires Coherent(s) && Fresh(s)
    ensures Coherent(Do(cfg, s, op)) && Fresh(Do(cfg, s, op))
  {
    FreshStep(cfg, s, op);
    match op
    case Call(_, _, _) => CallCoherent(cfg, s, op);
    case Feed(f) =>
      FullKept(cfg, s, op);
      FeedInside(cfg, s.buffer, f);
      PushKeeps(cfg, s.buffer, f);
    case Signal =>
  }

  /** Some Push of the session reached the pre-roll mark. */
  predicate Reached(cfg: Config, s: Session, ops: seq<Op>)
    requires FramesFull(s.buffer)
    decreases |ops|
  {
    && ops != []
    && (FullKept(cfg, s, ops[0]);
        || (ops[0].Feed? && ops[0].frame.samples != [] && Do(cfg, s, ops[0]).buffer.depth >= cfg.preroll)
        || Reached(cfg, Do(cfg, s, ops[0]), ops[1..]))
  }

  /** A call counts as an underrun if something has been heard, the stream goes on, and it asked
      for more than it heard. */
  predicate Short(cfg: Config, s: Session, op: Op)
    requires FramesFull(s.buffer)
  {
    var after := Do(cfg, s, op);
    op.Call? && after.heard != [] && !after.buffer.eos && |after.heard| - |s.heard| < op.cap
  }

  function Shorts(cfg: Config, s: Session, ops: seq<Op>): nat
    requires FramesFull(s.buffer)
    decreases |ops|
  {
    if ops == [] then 0
    else
      FullKept(cfg, s, ops[0]);
      (if Short(cfg, s, ops[0]) then 1 else 0) + Shorts(cfg, Do(cfg, s, ops[0]), ops[1..])
  }

  lemma UnderrunStep(cfg: Config, s: Session, op: Op)
    requires Coherent(s)
    ensures Do(cfg, s, op).buffer.underruns == s.buffer.underruns + if Short(cfg, s, op) then 1 else 0
  {
    var b := s.buffer;
    if op.Call? {
      if op.cap > 0 && b.queue != [] && (b.primed || b.eos || op.early) {
        PopPlays(cfg, b, op.cap, op.early, op.late);
        PopLeaves(cfg, b, op.cap, op.early, op.late);
        SomethingLeft(b.queue, b.offset);
      }
    } else if op.Feed? {
      PushKeeps(cfg, b, op.frame);
    }
  }

  lemma PrimedStep(cfg: Config, s: Session, op: Op)
    requires FramesFull(s.buffer)
    ensures Do(cfg, s, op).buffer.primed <==>
              || s.buffer.primed
              || (op.Feed? && op.frame.samples != [] && Do(cfg, s, op).buffer.depth >= cfg.preroll)
  {
  }

  lemma {:induction false} FlagsRun(cfg: Config, s: Session, ops: seq<Op>)
    requires Coherent(s) && Fresh(s)
    ensures Coherent(Run(cfg, s, ops))
    ensures Run(cfg, s, ops).buffer.primed <==> s.buffer.primed || Reached(cfg, s, ops)
    ensures Run(cfg, s, ops).buffer.underruns == s.buffer.underruns + Shorts(cfg, s, ops)
    decreases |ops|
  {
    if ops != [] {
      CoherentStep(cfg, s, ops[0]);
      PrimedStep(cfg, s, ops[0]);
      UnderrunStep(cfg, s, ops[0]);
      FlagsRun(cfg, Do(cfg, s, ops[0]), ops[1..]);
    }
  }

  /** In every session: playback has started exactly when something was heard; the buffer is primed
      exactly when a Push reached the pre-roll mark; and the underruns counted are exactly the
      calls that came up short after something was heard and before the end of the stream. */
  lemma FlagsExact(cfg: Config, ops: seq<Op>)
    ensures FramesFull(Begin().buffer)
    ensures var s := Run(cfg, Begin(), ops);
            && (s.buffer.started <==> s.heard != [])
            && (s.buffer.primed <==> Reached(cfg, Begin(), ops))
            && s.buffer.underruns == Shorts(cfg, Begin(), ops)
  {
    FlagsRun(cfg, Begin(), ops);
  }

  /** The end of the stream, once signalled, stays, and nothing but a signal brings it. */
  lemma EndsOnSignal(cfg: Config, s: Session, op: Op)
    requires FramesFull(s.buffer)
    ensures s.buffer.eos ==> Do(cfg, s, op).buffer.eos
    ensures Do(cfg, s, op).buffer.eos ==> s.buffer.eos || SignalsEnd(op)
    ensures op.Signal? ==> Do(cfg, s, op).buffer == s.buffer.(eos := true)
  {
  }

  // ----- Depth --------------------------------------------------------------------------

  /** The milliseconds of one frame wrap: 4294968 seconds count as 704 ms. */
  lemma DurationWraps()
    ensures DurationMs(4294968, 1, 1) == 704
  {
  }

  lemma {:induction false} TotalGrows(queue: seq<Frame>, offset: nat, f: Frame)
    requires queue != []
    ensures Total(queue + [f], offset) == Total(queue, offset) + DurationMs(|f.samples|, f.rate, f.channels)
    decreases |queue|
  {
    assert (queue + [f])[1..] == queue[1..] + [f];
    if |queue| > 1 {
      TotalGrows(queue[1..], 0, f);
    } else {
      assert queue[1..] + [f] == [f] && [f][1..] == [] && Left(f, 0) == |f.samples|;
    }
  }

  /** The depth saturates instead of wrapping: another frame never makes it smaller. */
  lemma DepthGrows(queue: seq<Frame>, offset: nat, f: Frame)
    requires queue != []
    ensures Depth(queue, offset) <= Depth(queue + [f], offset) < U32
  {
    TotalGrows(queue, offset, f);
  }
}
