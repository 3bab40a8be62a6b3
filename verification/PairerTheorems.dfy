/** What the stereo pairer keeps over whole recordings. */
module PairerTheorems {
  import opened Basics
  import opened Pcm
  import opened StereoPairer

  datatype Op = Push(side: Side, frame: Frame, now: Time) | Tick(now: Time)

  /** A value for each side. */
  datatype Sides<T> = Sides(left: T, right: T) {
    function Of(side: Side): T {
      if side == Left then left else right
    }

    function Set(side: Side, x: T): Sides<T> {
      if side == Left then Sides(x, right) else Sides(left, x)
    }
  }

  /** A pairer with its history: per side the frames pushed and the frames that have left the
      queue, popped or dropped, and all frames handed out. */
  datatype Recording = Recording(
    pairer: Pairer,
    pushed: Sides<seq<Frame>>,
    gone: Sides<seq<Frame>>,
    emissions: seq<Emission>,
    outputs: seq<PairedFrame>)

  function Begin(): Recording {
    Recording(Fresh(), Sides([], []), Sides([], []), [], [])
  }

  /** What enters a queue, and what its overflow pushes out. */
  function Enter(r: Recording, side: Side, f: Frame): Recording {
    var queue := r.pairer.Queue(side);
    r.(pairer := Enqueue(r.pairer, side, f),
       pushed := r.pushed.Set(side, r.pushed.Of(side) + [f]),
       gone := if |queue| == RING then r.gone.Set(side, r.gone.Of(side) + [queue[0]]) else r.gone)
  }

  /** Which frames an emission takes out of a queue. */
  function Taken(e: Emission, side: Side): seq<Frame> {
    match e
    case Quiet => []
    case Both(l, r) => if side == Left then [l] else [r]
    case _ => if side == e.side then [e.frame] else []
  }

  function Exit(cfg: Config, r: Recording, now: Time): Recording {
    var e := Emit(cfg, r.pairer, now);
    var out := Output(cfg, r.pairer, e);
    Recording(Advance(cfg, r.pairer, e), r.pushed,
              Sides(r.gone.left + Taken(e, Left), r.gone.right + Taken(e, Right)),
              if e.Quiet? then r.emissions else r.emissions + [e],
              if out.None? then r.outputs else r.outputs + [out.value])
  }

  /** The first half of an operation: the push, if it is one. */
  function Half(r: Recording, op: Op): Recording {
    if op.Push? then Enter(r, op.side, op.frame) else r
  }

  function Do(cfg: Config, r: Recording, op: Op): Recording {
    Exit(cfg, Half(r, op), op.now)
  }

  function Run(cfg: Config, r: Recording, ops: seq<Op>): Recording
    decreases |ops|
  {
    if ops == [] then r else Run(cfg, Do(cfg, r, ops[0]), ops[1..])
  }

  // ----- Conservation -------------------------------------------------------------------

  /** Frames leave in the order they came, and the queue is the rest. */
  predicate Fifo(r: Recording, side: Side) {
    r.gone.Of(side) + r.pairer.Queue(side) == r.pushed.Of(side) && |r.pairer.Queue(side)| <= RING
  }

  /** Counters and sequence numbers agree with what happened. */
  predicate Counted(r: Recording) {
    var p := r.pairer;
    && |r.gone.left| + |r.gone.right| == p.dropped + 2 * p.paired - p.desync
    && p.desync <= p.warned <= p.paired
    && p.seqNo == p.paired == |r.outputs|
    && (forall i :: 0 <= i < |r.outputs| ==> r.outputs[i].seqNo == i)
  }

  lemma EnterFifo(r: Recording, side: Side, f: Frame, s: Side)
    requires Fifo(r, s)
    ensures Fifo(Enter(r, side, f), s)
  {
    var queue, gone := r.pairer.Queue(side), r.gone.Of(side);
    if s == side {
      if |queue| == RING {
        assert (gone + [queue[0]]) + (queue[1..] + [f]) == (gone + queue) + [f];
      } else {
        assert gone + (queue + [f]) == (gone + queue) + [f];
      }
    }
  }

  lemma TakenFromFront(cfg: Config, p: Pairer, now: Time, s: Side)
    ensures Taken(Emit(cfg, p, now), s) + Advance(cfg, p, Emit(cfg, p, now)).Queue(s) == p.Queue(s)
  {
  }

  lemma ExitFifo(cfg: Config, r: Recording, now: Time, s: Side)
    requires Fifo(r, s)
    ensures Fifo(Exit(cfg, r, now), s)
  {
    var e := Emit(cfg, r.pairer, now);
    TakenFromFront(cfg, r.pairer, now, s);
    Append(r.gone.Of(s), Taken(e, s), Advance(cfg, r.pairer, e).Queue(s));
  }

  lemma HalfCounted(r: Recording, op: Op)
    requires Counted(r)
    ensures Counted(Half(r, op))
  {
  }

  lemma ExitCounted(cfg: Config, r: Recording, now: Time)
    requires Counted(r)
    ensures Counted(Exit(cfg, r, now))
  {
  }

  lemma {:induction false} BalancedRun(cfg: Config, r: Recording, ops: seq<Op>)
    requires Counted(r) && Fifo(r, Left) && Fifo(r, Right)
    ensures Counted(Run(cfg, r, ops)) && Fifo(Run(cfg, r, ops), Left) && Fifo(Run(cfg, r, ops), Right)
    decreases |ops|
  {
    if ops != [] {
      var op, half := ops[0], Half(r, ops[0]);
      assert Counted(half) && Fifo(half, Left) && Fifo(half, Right) by {
        HalfCounted(r, op);
        if op.Push? {
          EnterFifo(r, op.side, op.frame, Left);
          EnterFifo(r, op.side, op.frame, Right);
        }
      }
      ExitCounted(cfg, half, op.now);
      ExitFifo(cfg, half, op.now, Left);
      ExitFifo(cfg, half, op.now, Right);
      BalancedRun(cfg, Do(cfg, r, op), ops[1..]);
    }
  }

  /** Conservation, in every recording: the frames that left and the frames still queued are
      exactly the frames pushed, in order, on both sides; the counters add up; and the frames
      handed out are numbered 0, 1, 2, ... */
  lemma Conservation(cfg: Config, ops: seq<Op>)
    ensures var r := Run(cfg, Begin(), ops); var p := r.pairer;
            && r.gone.left + p.left == r.pushed.left && r.gone.right + p.right == r.pushed.right
            && |r.pushed.left| + |r.pushed.right| == p.dropped + |p.left| + |p.right| + 2 * p.paired - p.desync
            && p.desync <= p.warned <= p.paired
            && |r.outputs| == p.paired && forall i :: 0 <= i < |r.outputs| ==> r.outputs[i].seqNo == i
  {
    BalancedRun(cfg, Begin(), ops);
  }

  // ----- Which frames are heard ---------------------------------------------------------

  /** The frames of one side that emissions took, in order. */
  function Carried(emissions: seq<Emission>, side: Side): seq<Frame> {
    if emissions == [] then []
    else Carried(emissions[..|emissions| - 1], side) + Taken(emissions[|emissions| - 1], side)
  }

  lemma CarriedMore(emissions: seq<Emission>, e: Emission, side: Side)
    ensures Carried(emissions + [e], side) == Carried(emissions, side) + Taken(e, side)
  {
    assert (emissions + [e])[..|emissions|] == emissions;
  }

  /** `keep` marks, among the frames that have left the queue, those an emission took: it took
      them in the order they were pushed, each once, and the queue holds the rest. */
  predicate Marked(r: Recording, side: Side, keep: seq<bool>) {
    var pushed := r.pushed.Of(side);
    && |keep| <= |pushed| && r.pairer.Queue(side) == pushed[|keep|..]
    && Carried(r.emissions, side) == Select(pushed, keep)
  }

  lemma EnterMarked(r: Recording, side: Side, f: Frame, s: Side, keep: seq<bool>) returns (more: seq<bool>)
    requires Marked(r, s, keep)
    ensures Marked(Enter(r, side, f), s, more)
    ensures Lost(more) == Lost(keep) + if s == side && |r.pairer.Queue(side)| == RING then 1 else 0
  {
    more := keep;
    if s == side {
      SelectMore(r.pushed.Of(s), keep, f);
      if |r.pairer.Queue(side)| == RING {
        more := keep + [false];
        SelectNext(r.pushed.Of(s) + [f], keep, false);
      }
    }
  }

  lemma MarkNext(pushed: seq<Frame>, keep: seq<bool>, queue: seq<Frame>)
    requires |keep| <= |pushed| && queue == pushed[|keep|..] && queue != []
    ensures |keep| < |pushed| && queue[1..] == pushed[|keep + [true]|..]
    ensures Select(pushed, keep + [true]) == Select(pushed, keep) + [queue[0]] && Lost(keep + [true]) == Lost(keep)
  {
    SelectNext(pushed, keep, true);
  }

  lemma ExitMarked(cfg: Config, r: Recording, now: Time, s: Side, keep: seq<bool>) returns (more: seq<bool>)
    requires Marked(r, s, keep)
    ensures Marked(Exit(cfg, r, now), s, more) && Lost(more) == Lost(keep)
  {
    more := keep;
    var e := Emit(cfg, r.pairer, now);
    if !e.Quiet? { CarriedMore(r.emissions, e, s); }
    TakenFromFront(cfg, r.pairer, now, s);
    if Taken(e, s) != [] {
      more := keep + [true];
      MarkNext(r.pushed.Of(s), keep, r.pairer.Queue(s));
    } else {
      assert Carried(r.emissions, s) + [] == Carried(r.emissions, s);
    }
  }

  predicate BothMarked(r: Recording, keep: Sides<seq<bool>>) {
    Marked(r, Left, keep.left) && Marked(r, Right, keep.right)
  }

  predicate DropsMarked(r: Recording, keep: Sides<seq<bool>>) {
    r.pairer.dropped == Lost(keep.left) + Lost(keep.right)
  }

  lemma HalfMarked(r: Recording, op: Op, keep: Sides<seq<bool>>) returns (more: Sides<seq<bool>>)
    requires BothMarked(r, keep) && DropsMarked(r, keep)
    ensures BothMarked(Half(r, op), more) && DropsMarked(Half(r, op), more)
  {
    more := keep;
    if op.Push? {
      var left := EnterMarked(r, op.side, op.frame, Left, keep.left);
      var right := EnterMarked(r, op.side, op.frame, Right, keep.right);
      more := Sides(left, right);
    }
  }

  lemma ExitDrops(cfg: Config, r: Recording, now: Time)
    ensures Exit(cfg, r, now).pairer.dropped == r.pairer.dropped
  {
  }

  lemma ExitBothMarked(cfg: Config, r: Recording, now: Time, keep: Sides<seq<bool>>) returns (more: Sides<seq<bool>>)
    requires BothMarked(r, keep)
    ensures BothMarked(Exit(cfg, r, now), more)
    ensures Lost(more.left) == Lost(keep.left) && Lost(more.right) == Lost(keep.right)
  {
    var left := ExitMarked(cfg, r, now, Left, keep.left);
    var right := ExitMarked(cfg, r, now, Right, keep.right);
    more := Sides(left, right);
  }

  lemma {:induction false} MarkedRun(cfg: Config, r: Recording, ops: seq<Op>, keep: Sides<seq<bool>>)
    returns (more: Sides<seq<bool>>)
    requires BothMarked(r, keep) && DropsMarked(r, keep)
    ensures BothMarked(Run(cfg, r, ops), more) && DropsMarked(Run(cfg, r, ops), more)
    decreases |ops|
  {
    more := keep;
    if ops != [] {
      more := HalfMarked(r, ops[0], keep);
      more := ExitBothMarked(cfg, Half(r, ops[0]), ops[0].now, more);
      ExitDrops(cfg, Half(r, ops[0]), ops[0].now);
      more := MarkedRun(cfg, Do(cfg, r, ops[0]), ops[1..], more);
    }
  }

  /** What an emission has of one side: the samples of the frame it took, or nothing. */
  function Voice(e: Emission, side: Side): seq<Sample> {
    if Taken(e, side) == [] then [] else Taken(e, side)[0].samples
  }

  /** Decoded, a frame handed out has both sides alternately, the shorter one silent at its end. */
  predicate Carries(out: PairedFrame, left: seq<Sample>, right: seq<Sample>) {
    var samples := Decode(out.interleaved);
    && |samples| == 2 * Longer(left, right) && out.perChannel == Longer(left, right)
    && forall j :: 0 <= j < Longer(left, right) ==>
         && samples[2 * j] == (if j < |left| then left[j] else 0)
         && samples[2 * j + 1] == (if j < |right| then right[j] else 0)
  }

  lemma OutputCarries(cfg: Config, p: Pairer, e: Emission)
    requires !e.Quiet?
    ensures Carries(Output(cfg, p, e).value, Voice(e, Left), Voice(e, Right))
  {
    var left, right := Voice(e, Left), Voice(e, Right);
    assert left == LeftSamples(e) && right == RightSamples(e);
    DecodeEncoded(Interleave(left, right));
    forall j | 0 <= j < Longer(left, right) { InterleaveAt(left, right, j); }
  }

  lemma HalfHandsOutNothing(r: Recording, op: Op)
    ensures var half := Half(r, op);
            && half.outputs == r.outputs && half.emissions == r.emissions
            && half.pairer.desync == r.pairer.desync && half.pairer.warned == r.pairer.warned
  {
  }

  predicate Sounding(cfg: Config, r: Recording) {
    && |r.outputs| == |r.emissions|
    && forall i :: 0 <= i < |r.outputs| ==>
         && r.outputs[i].rate == cfg.rate
         && Carries(r.outputs[i], Voice(r.emissions[i], Left), Voice(r.emissions[i], Right))
  }

  lemma ExitSounding(cfg: Config, r: Recording, now: Time)
    requires Sounding(cfg, r)
    ensures Sounding(cfg, Exit(cfg, r, now))
  {
    var e := Emit(cfg, r.pairer, now);
    if !e.Quiet? { OutputCarries(cfg, r.pairer, e); }
  }

  lemma {:induction false} SoundingRun(cfg: Config, r: Recording, ops: seq<Op>)
    requires Sounding(cfg, r)
    ensures Sounding(cfg, Run(cfg, r, ops))
    decreases |ops|
  {
    if ops != [] {
      HalfHandsOutNothing(r, ops[0]);
      assert Sounding(cfg, Half(r, ops[0]));
      ExitSounding(cfg, Half(r, ops[0]), ops[0].now);
      SoundingRun(cfg, Do(cfg, r, ops[0]), ops[1..]);
    }
  }

  /** Which frames are heard, in every recording: per side, the frames carried by outputs 0, 1,
      2, ... are those marked among the frames pushed, in order and each once; the others that
      have left the queue are the dropped ones, and the rest are still queued. */
  lemma FramesHeard(cfg: Config, ops: seq<Op>) returns (keep: Sides<seq<bool>>)
    ensures var r := Run(cfg, Begin(), ops);
            && Marked(r, Left, keep.left) && Marked(r, Right, keep.right)
            && r.pairer.dropped == Lost(keep.left) + Lost(keep.right)
            && |r.outputs| == |r.emissions|
            && forall i :: 0 <= i < |r.outputs| ==>
                 && r.outputs[i].rate == cfg.rate
                 && Carries(r.outputs[i], Voice(r.emissions[i], Left), Voice(r.emissions[i], Right))
  {
    keep := MarkedRun(cfg, Begin(), ops, Sides([], []));
    SoundingRun(cfg, Begin(), ops);
  }

  // ----- Timestamps ---------------------------------------------------------------------

  /** The timestamps are within the timeout: as many milliseconds at the sample rate. */
  predicate Near(cfg: Config, f: Frame, g: Frame) {
    && 1000 * f.timestamp <= 1000 * g.timestamp + cfg.timeoutMs * cfg.rate
    && 1000 * g.timestamp <= 1000 * f.timestamp + cfg.timeoutMs * cfg.rate
  }

  lemma NearIff(cfg: Config, f: Frame, g: Frame)
    ensures Near(cfg, f, g) <==> Diff(f.timestamp, g.timestamp) <= TimeoutThreshold(cfg)
  {
    AtMostThousandth(Diff(f.timestamp, g.timestamp), cfg.timeoutMs * cfg.rate);
  }

  lemma AtMostThousandth(d: nat, x: nat)
    ensures d <= x / 1000 <==> 1000 * d <= x
  {
  }

  predicate Close(cfg: Config, e: Emission) {
    e.Both? ==> Near(cfg, e.left, e.right)
  }

  /** Every frame with two real sides has timestamps within the timeout threshold. */
  lemma {:induction false} PairsAreClose(cfg: Config, r: Recording, ops: seq<Op>)
    requires forall e <- r.emissions :: Close(cfg, e)
    ensures forall e <- Run(cfg, r, ops).emissions :: Close(cfg, e)
    decreases |ops|
  {
    if ops != [] {
      EmissionExact(cfg, Half(r, ops[0]).pairer, ops[0].now);
      PairsAreClose(cfg, Do(cfg, r, ops[0]), ops[1..]);
    }
  }

  // ----- When something is emitted ------------------------------------------------------

  /** The frame has waited longer than the timeout, to the whole millisecond. */
  predicate Overdue(cfg: Config, f: Frame, now: Time) {
    now - f.arrived >= (cfg.timeoutMs + 1) * 1_000_000
  }

  lemma OverdueIff(cfg: Config, f: Frame, now: Time)
    ensures Expired(cfg, f, now) <==> Overdue(cfg, f, now)
  {
  }

  /** What is emitted, for every pairer and clock reading: two near fronts together; of two fronts
      that are not near, the earlier one; a lone front that is overdue; and nothing otherwise. */
  lemma EmissionExact(cfg: Config, p: Pairer, now: Time)
    ensures var e := Emit(cfg, p, now); var both := p.left != [] && p.right != [];
            && (e.Both? <==> both && Near(cfg, p.left[0], p.right[0]))
            && (e.Both? ==> e == Both(p.left[0], p.right[0]))
            && (e.TooFar? <==> both && !Near(cfg, p.left[0], p.right[0]))
            && (e.TooFar? ==> e.frame == p.Queue(e.side)[0] && e.frame.timestamp < p.Queue(Other(e.side))[0].timestamp)
            && (e.TooLate? ==> p.Queue(Other(e.side)) == [] && p.Queue(e.side) != [])
            && (e.TooLate? ==> e.frame == p.Queue(e.side)[0] && Overdue(cfg, e.frame, now))
            && (e.Quiet? <==> && !both
                              && (p.left != [] ==> !Overdue(cfg, p.left[0], now))
                              && (p.right != [] ==> !Overdue(cfg, p.right[0], now)))
  {
    if p.left != [] && p.right != [] { NearIff(cfg, p.left[0], p.right[0]); }
    if p.left != [] { OverdueIff(cfg, p.left[0], now); }
    if p.right != [] { OverdueIff(cfg, p.right[0], now); }
  }

  /** In every recording, an operation hands out nothing if and only if, after its push, at most one
      side is queued and its front is not overdue; a front filled with silence because nobody came
      was overdue, with nothing queued on the other side. */
  lemma HandsOutIff(cfg: Config, ops: seq<Op>, op: Op)
    ensures var r := Run(cfg, Begin(), ops); var p := Half(r, op).pairer; var after := Do(cfg, r, op);
            && (after.outputs == r.outputs <==>
                  && (p.left == [] || p.right == [])
                  && (p.left != [] ==> !Overdue(cfg, p.left[0], op.now))
                  && (p.right != [] ==> !Overdue(cfg, p.right[0], op.now)))
            && |r.outputs| <= |after.outputs| <= |r.outputs| + 1
  {
    var r := Run(cfg, Begin(), ops);
    EmissionExact(cfg, Half(r, op).pairer, op.now);
  }

  lemma SilenceWasOverdue(cfg: Config, ops: seq<Op>, op: Op)
    requires Emit(cfg, Half(Run(cfg, Begin(), ops), op).pairer, op.now).TooLate?
    ensures var p := Half(Run(cfg, Begin(), ops), op).pairer; var e := Emit(cfg, p, op.now);
            && p.Queue(e.side) != [] && e.frame == p.Queue(e.side)[0] && p.Queue(Other(e.side)) == []
            && op.now - e.frame.arrived >= (cfg.timeoutMs + 1) * 1_000_000
  {
    EmissionExact(cfg, Half(Run(cfg, Begin(), ops), op).pairer, op.now);
  }

  // ----- Warnings and drops -------------------------------------------------------------

  predicate Filled(e: Emission) {
    e.TooFar? || e.TooLate?
  }

  /** Worth a warning: one side only, or two whose timestamps differ, by no less than the warning
      threshold to the whole sample. */
  predicate Notable(cfg: Config, e: Emission) {
    Filled(e) || (e.Both? && Uneven(cfg, e.left.timestamp, e.right.timestamp))
  }

  predicate Uneven(cfg: Config, a: nat, b: nat) {
    a != b && (1000 * (a - b + 1) > cfg.warnMs * cfg.rate || 1000 * (b - a + 1) > cfg.warnMs * cfg.rate)
  }

  lemma WarnsIff(cfg: Config, l: Frame, r: Frame)
    ensures Warns(cfg, l, r) <==> Uneven(cfg, l.timestamp, r.timestamp)
  {
    var d, x := Diff(l.timestamp, r.timestamp), cfg.warnMs * cfg.rate;
    AtLeastThousandth(d, x);
  }

  lemma AtLeastThousandth(d: nat, x: nat)
    ensures d >= x / 1000 <==> 1000 * (d + 1) > x
  {
  }

  function CountFilled(emissions: seq<Emission>): nat {
    if emissions == [] then 0
    else CountFilled(emissions[..|emissions| - 1]) + if Filled(emissions[|emissions| - 1]) then 1 else 0
  }

  function CountNotable(cfg: Config, emissions: seq<Emission>): nat {
    if emissions == [] then 0
    else CountNotable(cfg, emissions[..|emissions| - 1]) + if Notable(cfg, emissions[|emissions| - 1]) then 1 else 0
  }

  lemma CountMore(cfg: Config, emissions: seq<Emission>, e: Emission)
    ensures CountFilled(emissions + [e]) == CountFilled(emissions) + if Filled(e) then 1 else 0
    ensures CountNotable(cfg, emissions + [e]) == CountNotable(cfg, emissions) + if Notable(cfg, e) then 1 else 0
  {
    assert (emissions + [e])[..|emissions|] == emissions;
  }

  predicate Tallied(cfg: Config, p: Pairer, emissions: seq<Emission>) {
    p.desync == CountFilled(emissions) && p.warned == CountNotable(cfg, emissions)
  }

  lemma CountersMove(cfg: Config, p: Pairer, e: Emission)
    requires e.Both? ==> p.left != [] && p.right != []
    requires Filled(e) ==> p.Queue(e.side) != []
    ensures var after := Advance(cfg, p, e);
            && after.desync == p.desync + (if Filled(e) then 1 else 0)
            && after.warned == p.warned + (if Notable(cfg, e) then 1 else 0)
  {
    if e.Both? { WarnsIff(cfg, e.left, e.right); }
  }

  lemma AdvanceTallied(cfg: Config, p: Pairer, emissions: seq<Emission>, e: Emission)
    requires Tallied(cfg, p, emissions)
    requires e.Both? ==> p.left != [] && p.right != []
    requires Filled(e) ==> p.Queue(e.side) != []
    ensures Tallied(cfg, Advance(cfg, p, e), if e.Quiet? then emissions else emissions + [e])
  {
    CountersMove(cfg, p, e);
    CountMore(cfg, emissions, e);
  }

  lemma ExitTallied(cfg: Config, r: Recording, now: Time)
    requires Tallied(cfg, r.pairer, r.emissions)
    ensures var after := Exit(cfg, r, now); Tallied(cfg, after.pairer, after.emissions)
  {
    AdvanceTallied(cfg, r.pairer, r.emissions, Emit(cfg, r.pairer, now));
  }

  lemma {:induction false} TalliedRun(cfg: Config, r: Recording, ops: seq<Op>)
    requires Tallied(cfg, r.pairer, r.emissions)
    ensures var after := Run(cfg, r, ops); Tallied(cfg, after.pairer, after.emissions)
    decreases |ops|
  {
    if ops != [] {
      HalfHandsOutNothing(r, ops[0]);
      ExitTallied(cfg, Half(r, ops[0]), ops[0].now);
      TalliedRun(cfg, Do(cfg, r, ops[0]), ops[1..]);
    }
  }

  /** In every recording the counters say what was handed out: desync counts the frames with one
      silent side, the warnings those and the uneven pairs. */
  lemma WarningsExact(cfg: Config, ops: seq<Op>)
    ensures var r := Run(cfg, Begin(), ops);
            r.pairer.desync == CountFilled(r.emissions) && r.pairer.warned == CountNotable(cfg, r.emissions)
  {
    TalliedRun(cfg, Begin(), ops);
  }

  /** A push loses a frame, the oldest of its side, exactly when sixteen of that side are queued;
      the other side is left alone. */
  lemma DropsWhenFull(cfg: Config, ops: seq<Op>, op: Op)
    requires op.Push?
    ensures var p := Run(cfg, Begin(), ops).pairer; var q := Half(Run(cfg, Begin(), ops), op).pairer;
            var queue := p.Queue(op.side);
            && |queue| <= 16 && q.Queue(Other(op.side)) == p.Queue(Other(op.side))
            && (|queue| < 16 ==> q.Queue(op.side) == queue + [op.frame] && q.dropped == p.dropped)
            && (|queue| == 16 ==> q.Queue(op.side) == queue[1..] + [op.frame] && q.dropped == p.dropped + 1)
  {
    BalancedRun(cfg, Begin(), ops);
  }

  /** The latest timestamp of each side after an operation. */
  function Seen(last: Sides<nat>, op: Op): Sides<nat> {
    if op.Push? then last.Set(op.side, op.frame.timestamp) else last
  }

  function SeenAll(last: Sides<nat>, ops: seq<Op>): Sides<nat>
    decreases |ops|
  {
    if ops == [] then last else SeenAll(Seen(last, ops[0]), ops[1..])
  }

  /** Timestamps on each side are equal or later from push to push. */
  predicate InTime(ops: seq<Op>, last: Sides<nat>)
    decreases |ops|
  {
    ops == []
    || ((ops[0].Push? ==> last.Of(ops[0].side) <= ops[0].frame.timestamp) && InTime(ops[1..], Seen(last, ops[0])))
  }

  /** A queue in timestamp order, none later than `last`. */
  predicate Ascending(queue: seq<Frame>, last: nat) {
    && (forall i, j :: 0 <= i < j < |queue| ==> queue[i].timestamp <= queue[j].timestamp)
    && (forall i :: 0 <= i < |queue| ==> queue[i].timestamp <= last)
  }

  predicate Timely(p: Pairer, last: Sides<nat>) {
    Ascending(p.left, last.left) && Ascending(p.right, last.right)
  }

  lemma GrowAscending(queue: seq<Frame>, last: nat, f: Frame)
    requires Ascending(queue, last) && last <= f.timestamp
    ensures Ascending(queue + [f], f.timestamp)
  {
  }

  lemma CutAscending(queue: seq<Frame>, last: nat)
    requires Ascending(queue, last) && queue != []
    ensures Ascending(queue[1..], last)
  {
  }

  lemma HalfTimely(r: Recording, op: Op, last: Sides<nat>)
    requires Timely(r.pairer, last) && (op.Push? ==> last.Of(op.side) <= op.frame.timestamp)
    ensures Timely(Half(r, op).pairer, Seen(last, op))
  {
    if op.Push? {
      var queue := r.pairer.Queue(op.side);
      if |queue| == RING { CutAscending(queue, last.Of(op.side)); }
      GrowAscending(if |queue| == RING then queue[1..] else queue, last.Of(op.side), op.frame);
    }
  }

  lemma ExitTimely(cfg: Config, p: Pairer, now: Time, last: Sides<nat>)
    requires Timely(p, last)
    ensures Timely(Advance(cfg, p, Emit(cfg, p, now)), last)
  {
    if p.left != [] { CutAscending(p.left, last.left); }
    if p.right != [] { CutAscending(p.right, last.right); }
  }

  lemma {:induction false} TimelyRun(cfg: Config, r: Recording, ops: seq<Op>, last: Sides<nat>)
    requires Timely(r.pairer, last) && InTime(ops, last)
    ensures Timely(Run(cfg, r, ops).pairer, SeenAll(last, ops))
    decreases |ops|
  {
    if ops != [] {
      HalfTimely(r, ops[0], last);
      ExitTimely(cfg, Half(r, ops[0]).pairer, ops[0].now, Seen(last, ops[0]));
      TimelyRun(cfg, Do(cfg, r, ops[0]), ops[1..], Seen(last, ops[0]));
    }
  }

  /** A later push on a side has a timestamp no earlier than any before it. */
  lemma {:induction false} LaterPush(ops: seq<Op>, last: Sides<nat>, i: nat)
    requires InTime(ops, last) && i < |ops| && ops[i].Push?
    ensures last.Of(ops[i].side) <= ops[i].frame.timestamp
    decreases |ops|
  {
    if i > 0 {
      assert ops[1..][i - 1] == ops[i];
      LaterPush(ops[1..], Seen(last, ops[0]), i - 1);
    }
  }

  lemma {:induction false} InTimeSplit(a: seq<Op>, b: seq<Op>, last: Sides<nat>)
    requires InTime(a + b, last)
    ensures InTime(a, last) && InTime(b, SeenAll(last, a))
    decreases |a|
  {
    if a == [] {
      assert a + b == b;
    } else {
      assert (a + b)[0] == a[0] && (a + b)[1..] == a[1..] + b;
      InTimeSplit(a[1..], b, Seen(last, a[0]));
    }
  }

  /** `f` and `g` are further apart than the timeout threshold. */
  predicate Apart(cfg: Config, f: Frame, g: Frame) {
    !Near(cfg, f, g)
  }

  /** A frame given up because of timestamps is far from all the other side has. */
  lemma GivenUp(cfg: Config, p: Pairer, now: Time, last: Sides<nat>)
    requires Timely(p, last) && Emit(cfg, p, now).TooFar?
    ensures var e := Emit(cfg, p, now);
            && 1000 * e.frame.timestamp + cfg.timeoutMs * cfg.rate < 1000 * last.Of(Other(e.side))
            && forall g <- p.Queue(Other(e.side)) :: Apart(cfg, e.frame, g)
  {
    var e := Emit(cfg, p, now);
    var queue := p.Queue(Other(e.side));
    assert Ascending(queue, last.Of(Other(e.side)));
    EmissionExact(cfg, p, now);
    forall g | g in queue
      ensures Apart(cfg, e.frame, g)
    {
      var i :| 0 <= i < |queue| && queue[i] == g;
    }
  }

  /** A frame filled with silence because of its timestamp has no partner within the timeout
      threshold: not among the frames the other side still has queued, and not among those
      pushed at any later time, if timestamps never go back on either side. */
  lemma SilenceIsJustified(cfg: Config, pre: seq<Op>, op: Op, later: seq<Op>)
    requires InTime(pre + ([op] + later), Sides(0, 0))
    requires Emit(cfg, Half(Run(cfg, Begin(), pre), op).pairer, op.now).TooFar?
    ensures var p := Half(Run(cfg, Begin(), pre), op).pairer;
            var e := Emit(cfg, p, op.now);
            && (forall g <- p.Queue(Other(e.side)) :: Apart(cfg, e.frame, g))
            && forall i :: 0 <= i < |later| && later[i].Push? && later[i].side == Other(e.side) ==>
                 Apart(cfg, e.frame, later[i].frame)
  {
    var r := Run(cfg, Begin(), pre);
    var p := Half(r, op).pairer;
    var e := Emit(cfg, p, op.now);
    InTimeSplit(pre, [op] + later, Sides(0, 0));
    TimelyRun(cfg, Begin(), pre, Sides(0, 0));
    var last := SeenAll(Sides(0, 0), pre);
    assert ([op] + later)[0] == op && ([op] + later)[1..] == later;
    HalfTimely(r, op, last);
    GivenUp(cfg, p, op.now, Seen(last, op));
    forall i | 0 <= i < |later| && later[i].Push? && later[i].side == Other(e.side)
      ensures Apart(cfg, e.frame, later[i].frame)
    {
      LaterPush(later, Seen(last, op), i);
    }
  }
}
