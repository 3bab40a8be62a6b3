/** The stereo frame pairer (src/media/stereo_pairer.cc): caller audio on the left, written
    audio on the right, each in a ring of 16 frames, paired by timestamp or by timeout. */
module StereoPairer {
  import opened Basics
  import opened Circular
  import opened Pcm

  const RING: nat := 16

  /** Nanoseconds of the steady clock. */
  type Time = int

  datatype Side = Left | Right

  datatype Frame = Frame(timestamp: nat, arrived: Time, samples: seq<Sample>)

  datatype Config = Config(rate: nat, warnMs: nat, timeoutMs: nat)

  datatype Pairer = Pairer(
    left: seq<Frame>,
    right: seq<Frame>,
    seqNo: nat,
    paired: nat,
    desync: nat,
    warned: nat,
    dropped: nat)
  {
    function Queue(side: Side): seq<Frame> {
      if side == Left then left else right
    }

    function With(side: Side, queue: seq<Frame>): Pairer {
      if side == Left then this.(left := queue) else this.(right := queue)
    }
  }

  function Fresh(): Pairer {
    Pairer([], [], 0, 0, 0, 0, 0)
  }

  function Other(side: Side): Side {
    if side == Left then Right else Left
  }

  // ----- Pure helpers -------------------------------------------------------------------

  function Diff(a: nat, b: nat): nat {
    if a >= b then a - b else b - a
  }

  function WarnThreshold(cfg: Config): nat { cfg.warnMs * cfg.rate / 1000 }

  function TimeoutThreshold(cfg: Config): nat { cfg.timeoutMs * cfg.rate / 1000 }

  /** duration_cast to milliseconds: towards zero. */
  function Millis(ns: Time): int {
    if ns >= 0 then ns / 1_000_000 else -(-ns / 1_000_000)
  }

  predicate Expired(cfg: Config, f: Frame, now: Time) {
    Millis(now - f.arrived) > cfg.timeoutMs
  }

  // ----- Steps --------------------------------------------------------------------------

  /** EnqueueLocked: a full ring loses its oldest frame. */
  function Enqueue(p: Pairer, side: Side, f: Frame): Pairer {
    var queue := p.Queue(side);
    if |queue| == RING then p.With(side, queue[1..] + [f]).(dropped := p.dropped + 1)
    else p.With(side, queue + [f])
  }

  /** Why a frame was emitted: both sides real, or one with silence because its partner's
      timestamp is too far away or did not come in time. */
  datatype Emission =
    | Quiet
    | Both(left: Frame, right: Frame)
    | TooFar(side: Side, frame: Frame)
    | TooLate(side: Side, frame: Frame)

  function Emit(cfg: Config, p: Pairer, now: Time): Emission {
    if p.left != [] && p.right != [] then
      var l, r := p.left[0], p.right[0];
      if Diff(l.timestamp, r.timestamp) > TimeoutThreshold(cfg) then
        if l.timestamp < r.timestamp then TooFar(Left, l) else TooFar(Right, r)
      else Both(l, r)
    else if p.left != [] && Expired(cfg, p.left[0], now) then TooLate(Left, p.left[0])
    else if p.right != [] && Expired(cfg, p.right[0], now) then TooLate(Right, p.right[0])
    else Quiet
  }

  /** A difference worth a warning. */
  predicate Warns(cfg: Config, l: Frame, r: Frame) {
    var diff := Diff(l.timestamp, r.timestamp);
    diff > 0 && (WarnThreshold(cfg) == 0 || diff >= WarnThreshold(cfg))
  }

  /** The state after an emission. */
  function Advance(cfg: Config, p: Pairer, e: Emission): Pairer
    requires e.Both? ==> p.left != [] && p.right != []
    requires e.TooFar? || e.TooLate? ==> p.Queue(e.side) != []
  {
    match e
    case Quiet => p
    case Both(l, r) =>
      p.(left := p.left[1..], right := p.right[1..], seqNo := p.seqNo + 1, paired := p.paired + 1,
         warned := if Warns(cfg, l, r) then p.warned + 1 else p.warned)
    case _ => SilenceFilled(p, e.side)
  }

  /** The state after one side went out with silence. */
  function SilenceFilled(p: Pairer, side: Side): Pairer
    requires p.Queue(side) != []
  {
    p.With(side, p.Queue(side)[1..])
     .(seqNo := p.seqNo + 1, paired := p.paired + 1, desync := p.desync + 1, warned := p.warned + 1)
  }

  function LeftSamples(e: Emission): seq<Sample> {
    match e
    case Quiet => []
    case Both(l, _) => l.samples
    case _ => if e.side == Left then e.frame.samples else []
  }

  function RightSamples(e: Emission): seq<Sample> {
    match e
    case Quiet => []
    case Both(_, r) => r.samples
    case _ => if e.side == Right then e.frame.samples else []
  }

  /** The frame an emission hands out. */
  function Output(cfg: Config, p: Pairer, e: Emission): Option<PairedFrame> {
    if e.Quiet? then None
    else Some(Framed(cfg, LeftSamples(e), RightSamples(e), p.seqNo))
  }

  function Framed(cfg: Config, left: seq<Sample>, right: seq<Sample>, seqNo: nat): PairedFrame {
    PairedFrame(Encode(Interleave(left, right)), Longer(left, right), cfg.rate, seqNo)
  }

  // ----- The class ----------------------------------------------------------------------

  const BLANK: Frame := Frame(0, 0, [])

  class StereoFramePairer {
    const cfg: Config
    const left: SlotRing<Frame>
    const right: SlotRing<Frame>
    var seqNo: nat
    var paired: nat
    var desync: nat
    var warned: nat
    var dropped: nat

    ghost predicate Valid()
      reads this, left, left.slots, right, right.slots
    {
      && left.Valid() && right.Valid() && left.slots.Length == RING == right.slots.Length
      && left != right && left.slots != right.slots
    }

    ghost function Value(): Pairer
      requires Valid()
      reads this, left, left.slots, right, right.slots
    {
      Pairer(left.Queue(), right.Queue(), seqNo, paired, desync, warned, dropped)
    }

    constructor (cfg: Config)
      ensures Valid() && Value() == Fresh() && this.cfg == cfg
      ensures fresh(left) && fresh(right) && fresh(left.slots) && fresh(right.slots)
    {
      this.cfg := cfg;
      left := new SlotRing(RING, BLANK);
      right := new SlotRing(RING, BLANK);
      seqNo, paired, desync, warned, dropped := 0, 0, 0, 0, 0;
    }

    method EnqueueFrame(side: Side, f: Frame)
      requires Valid()
      modifies this, left, left.slots, right, right.slots
      ensures Valid() && Value() == Enqueue(old(Value()), side, f)
    {
      var lost := false;
      if side == Left {
        lost := left.Push(f, BLANK);
      } else {
        lost := right.Push(f, BLANK);
      }
      if lost {
        dropped := dropped + 1;
      }
    }

    /** MakePairedFrameLocked. */
    method MakePairedFrame(l: seq<Sample>, r: seq<Sample>) returns (out: PairedFrame)
      requires Valid()
      modifies `seqNo, `paired
      ensures out == Framed(cfg, l, r, old(seqNo))
      ensures Valid() && Value() == old(Value()).(seqNo := old(seqNo) + 1, paired := old(paired) + 1)
    {
      var bytes := AppendAll(l, r);
      out := PairedFrame(bytes, Longer(l, r), cfg.rate, seqNo);
      seqNo := seqNo + 1;
      paired := paired + 1;
    }

    /** RecordTimeoutLocked. */
    method RecordTimeout()
      requires Valid()
      modifies `desync, `warned
      ensures Valid() && Value() == old(Value()).(desync := old(desync) + 1, warned := old(warned) + 1)
    {
      desync := desync + 1;
      warned := warned + 1;
    }

    method FillLeft() returns (out: PairedFrame)
      requires Valid() && Value().left != []
      modifies this, left, left.slots
      ensures Valid() && Value() == SilenceFilled(old(Value()), Left)
      ensures out == Framed(cfg, old(Value()).left[0].samples, [], old(seqNo))
    {
      var f := left.Pop(BLANK);
      RecordTimeout();
      out := MakePairedFrame(f.samples, []);
    }

    method FillRight() returns (out: PairedFrame)
      requires Valid() && Value().right != []
      modifies this, right, right.slots
      ensures Valid() && Value() == SilenceFilled(old(Value()), Right)
      ensures out == Framed(cfg, [], old(Value()).right[0].samples, old(seqNo))
    {
      var f := right.Pop(BLANK);
      RecordTimeout();
      out := MakePairedFrame([], f.samples);
    }

    /** EmitSilenceFillLocked. */
    method SilenceFill(side: Side, ghost e: Emission) returns (out: PairedFrame)
      requires Valid() && Value().Queue(side) != []
      requires (e.TooFar? || e.TooLate?) && e.side == side && e.frame == Value().Queue(side)[0]
      modifies this, left, left.slots, right, right.slots
      ensures Valid() && Value() == Advance(cfg, old(Value()), e)
      ensures Some(out) == Output(cfg, old(Value()), e)
    {
      if side == Left {
        out := FillLeft();
      } else {
        out := FillRight();
      }
    }

    method EmitBoth() returns (out: PairedFrame)
      requires Valid() && left.count > 0 && right.count > 0
      modifies this, left, left.slots, right, right.slots
      ensures Valid()
      ensures var e := Both(old(left.Queue()[0]), old(right.Queue()[0]));
              Value() == Advance(cfg, old(Value()), e) && Some(out) == Output(cfg, old(Value()), e)
    {
      var l := left.Pop(BLANK);
      var r := right.Pop(BLANK);
      var d := Diff(l.timestamp, r.timestamp);
      if d > 0 && (WarnThreshold(cfg) == 0 || d >= WarnThreshold(cfg)) {
        warned := warned + 1;
      }
      out := MakePairedFrame(l.samples, r.samples);
    }

    /** TryEmitLocked and TryEmitExpiredLocked. */
    method TryEmit(now: Time) returns (out: Option<PairedFrame>)
      requires Valid()
      modifies this, left, left.slots, right, right.slots
      ensures Valid()
      ensures var e := Emit(cfg, old(Value()), now);
              Value() == Advance(cfg, old(Value()), e) && out == Output(cfg, old(Value()), e)
    {
      ghost var e := Emit(cfg, Value(), now);
      if left.count > 0 && right.count > 0 {
        var l := left.Front();
        var r := right.Front();
        if Diff(l.timestamp, r.timestamp) > TimeoutThreshold(cfg) {
          var f := SilenceFill(if l.timestamp < r.timestamp then Left else Right, e);
          return Some(f);
        }
        var f := EmitBoth();
        return Some(f);
      }
      if left.count > 0 {
        var l := left.Front();
        if Millis(now - l.arrived) > cfg.timeoutMs {
          var f := SilenceFill(Left, e);
          return Some(f);
        }
      }
      if right.count > 0 {
        var r := right.Front();
        if Millis(now - r.arrived) > cfg.timeoutMs {
          var f := SilenceFill(Right, e);
          return Some(f);
        }
      }
      out := None;
    }

    /** PushLeft and PushRight. */
    method PushSide(side: Side, f: Frame, now: Time) returns (out: Option<PairedFrame>)
      requires Valid()
      modifies this, left, left.slots, right, right.slots
      ensures Valid()
      ensures var p := Enqueue(old(Value()), side, f); var e := Emit(cfg, p, now);
              Value() == Advance(cfg, p, e) && out == Output(cfg, p, e)
    {
      EnqueueFrame(side, f);
      out := TryEmit(now);
    }
  }
}
