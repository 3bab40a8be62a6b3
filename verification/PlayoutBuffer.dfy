/** The TTS playout buffer (src/media/tts_playout_buffer.cc): frames pushed by the stream
    reader, samples popped by the FreeSWITCH media thread, with pre-roll, high water, partial
    frames, underrun padding and end of stream. */
module PlayoutBuffer {
  import opened Basics

  const U32: int := 0x1_0000_0000

  /** Rates and channel counts are 32-bit, and so is the number of samples of a frame. */
  datatype Frame = Frame(samples: seq<Sample>, rate: nat, channels: nat)

  datatype Policy = Silence | RepeatLast

  datatype Config = Config(preroll: nat, highWater: nat, policy: Policy)

  /** `offset` samples of the front frame are already played; `depth` is in milliseconds. */
  datatype Buffer = Buffer(
    queue: seq<Frame>,
    offset: nat,
    depth: nat,
    last: Option<Frame>,
    primed: bool,
    eos: bool,
    started: bool,
    underruns: nat,
    overruns: nat)

  function Empty(): Buffer {
    Buffer([], 0, 0, None, false, false, false, 0, 0)
  }

  // ----- Depth --------------------------------------------------------------------------

  /** Whole milliseconds, in 32 bits. */
  function DurationMs(samples: nat, rate: nat, channels: nat): (ms: nat)
    ensures ms < U32
    ensures samples == 0 || rate == 0 || channels == 0 ==> ms == 0
  {
    if samples == 0 || rate == 0 || channels == 0 then 0
    else Low32(samples * 1000 / (rate * channels))
  }

  /** The cast to 32 bits. */
  function Low32(x: nat): (low: nat)
    ensures low < U32 && low <= x && (x < U32 ==> low == x)
  {
    x % U32
  }

  function Left(f: Frame, offset: nat): nat {
    if offset >= |f.samples| then 0 else |f.samples| - offset
  }

  function Total(queue: seq<Frame>, offset: nat): nat {
    if queue == [] then 0
    else DurationMs(Left(queue[0], offset), queue[0].rate, queue[0].channels) + Total(queue[1..], 0)
  }

  function Depth(queue: seq<Frame>, offset: nat): nat {
    if Total(queue, offset) < U32 then Total(queue, offset) else U32 - 1
  }

  // ----- Push ---------------------------------------------------------------------------

  /** Oldest frames go while the depth is over the mark and another frame remains. */
  function DropOver(mark: nat, queue: seq<Frame>, offset: nat): (seq<Frame>, nat, nat)
    decreases |queue|
  {
    if Depth(queue, offset) > mark && |queue| > 1 then
      var (rest, off, dropped) := DropOver(mark, queue[1..], 0);
      (rest, off, dropped + 1)
    else
      (queue, offset, 0)
  }

  function Push(cfg: Config, b: Buffer, f: Frame): Buffer {
    if f.samples == [] then b
    else
      var (queue, offset, dropped) := DropOver(cfg.highWater, b.queue + [f], b.offset);
      var depth := Depth(queue, offset);
      b.(queue := queue, offset := offset, depth := depth, overruns := b.overruns + dropped,
         primed := b.primed || depth >= cfg.preroll)
  }

  // ----- Pop ----------------------------------------------------------------------------

  /** The samples of a frame from `offset` on. */
  function Unplayed(f: Frame, offset: nat): seq<Sample> {
    if offset >= |f.samples| then [] else f.samples[offset..]
  }

  /** Everything still to be played. */
  function Remaining(queue: seq<Frame>, offset: nat): seq<Sample> {
    if queue == [] then [] else Unplayed(queue[0], offset) + Remaining(queue[1..], 0)
  }

  /** The queue after `n` samples were taken from it, or all of them. */
  function Drain(queue: seq<Frame>, offset: nat, n: nat): (seq<Frame>, nat)
    decreases |queue|
  {
    if n == 0 || queue == [] then (queue, offset)
    else if n < Left(queue[0], offset) then (queue, offset + n)
    else Drain(queue[1..], 0, n - Left(queue[0], offset))
  }

  /** `k` samples of a frame from `offset` on. */
  function Part(f: Frame, offset: nat, k: nat): (part: seq<Sample>)
    requires k <= Left(f, offset)
    ensures |part| == k
  {
    if k == 0 then [] else f.samples[offset..offset + k]
  }

  /** The samples taken, frame by frame. */
  function Delivered(queue: seq<Frame>, offset: nat, n: nat): (audio: seq<Sample>)
    ensures |audio| <= n
    decreases |queue|
  {
    if n == 0 || queue == [] then []
    else
      var left := Left(queue[0], offset);
      if n < left then Part(queue[0], offset, n)
      else Part(queue[0], offset, left) + Delivered(queue[1..], 0, n - left)
  }

  /** The frame that gave the last sample taken, for the repeat policy. */
  function LastUsed(queue: seq<Frame>, offset: nat, n: nat, last: Option<Frame>): Option<Frame>
    decreases |queue|
  {
    if n == 0 || queue == [] then last
    else
      var left := Left(queue[0], offset);
      var used := if left == 0 then last else Some(queue[0]);
      if n < left then used else LastUsed(queue[1..], 0, n - left, used)
  }

  function Zeros(n: nat): (zeros: seq<Sample>)
    ensures |zeros| == n && forall i :: 0 <= i < n ==> zeros[i] == 0
  {
    seq(n, _ => 0)
  }

  /** `n` samples of a frame played over and over. */
  function Repeat(samples: seq<Sample>, n: nat): (out: seq<Sample>)
    requires samples != []
    ensures |out| == n
    decreases n
  {
    if n <= |samples| then samples[..n] else samples + Repeat(samples, n - |samples|)
  }

  function Padding(cfg: Config, last: Option<Frame>, n: nat): (pad: seq<Sample>)
    requires last.Some? ==> last.value.samples != []
    ensures |pad| == n
  {
    if cfg.policy == RepeatLast && last.Some? then Repeat(last.value.samples, n) else Zeros(n)
  }

  /** What one Pop leaves behind, writes, and how much of that is real audio. */
  datatype Popped = Popped(buffer: Buffer, out: seq<Sample>, played: nat)

  predicate FramesFull(b: Buffer) {
    && (forall f <- b.queue :: f.samples != [])
    && (b.last.Some? ==> b.last.value.samples != [])
  }

  /** The end-of-stream flag is set without the lock, so a signal may land inside a Pop:
      `early` before its second reading of the flag, `late` before its third. */
  function Pop(cfg: Config, b: Buffer, cap: nat, early: bool, late: bool): Popped
    requires FramesFull(b)
  {
    if cap == 0 || (b.eos && b.queue == []) then Popped(b, [], 0)
    else
      var b := b.(eos := b.eos || early);
      if !b.primed && !b.eos then Popped(b, Zeros(cap), 0)
      else
        var b := b.(eos := b.eos || late);
        if b.queue != [] then Play(cfg, b, cap)
        else if b.eos then Popped(b, [], 0)
        else if !b.started then Popped(b, Zeros(cap), 0)
        else Popped(b.(underruns := b.underruns + 1), Padding(cfg, b.last, cap), 0)
  }

  /** What pads a callback frame that came up short. */
  function Fill(cfg: Config, last: Option<Frame>, ended: bool, n: nat): (pad: seq<Sample>)
    requires last.Some? ==> last.value.samples != []
    ensures |pad| == n
  {
    if ended then Zeros(n) else Padding(cfg, last, n)
  }

  /** The frame to repeat after a drain. */
  function Kept(cfg: Config, b: Buffer, cap: nat): (last: Option<Frame>)
    requires FramesFull(b)
    ensures last.Some? ==> last.value.samples != []
  {
    LastUsedFull(b.queue, b.offset, cap, b.last);
    if cfg.policy == RepeatLast then LastUsed(b.queue, b.offset, cap, b.last) else b.last
  }

  /** What the case with frames puts out: what it drains, padded to a full callback frame. */
  function Sound(cfg: Config, b: Buffer, cap: nat): seq<Sample>
    requires FramesFull(b)
  {
    var audio := Delivered(b.queue, b.offset, cap);
    audio + Fill(cfg, Kept(cfg, b, cap), b.eos, cap - |audio|)
  }

  /** The case with frames: drain across them, then pad. */
  function Play(cfg: Config, b: Buffer, cap: nat): Popped
    requires FramesFull(b)
  {
    var played := |Delivered(b.queue, b.offset, cap)|;
    var (queue, offset) := Drain(b.queue, b.offset, cap);
    var short := if played < cap && !b.eos then 1 else 0;
    Popped(b.(queue := queue, offset := offset, depth := Depth(queue, offset), last := Kept(cfg, b, cap),
              started := true, underruns := b.underruns + short),
           Sound(cfg, b, cap), played)
  }

  lemma {:induction false} LastUsedFull(queue: seq<Frame>, offset: nat, n: nat, last: Option<Frame>)
    requires (forall f <- queue :: f.samples != []) && (last.Some? ==> last.value.samples != [])
    ensures LastUsed(queue, offset, n, last).Some? ==> LastUsed(queue, offset, n, last).value.samples != []
    decreases |queue|
  {
    if n != 0 && queue != [] {
      var left := Left(queue[0], offset);
      if n >= left {
        LastUsedFull(queue[1..], 0, n - left, if left == 0 then last else Some(queue[0]));
      }
    }
  }

  /** The queue after `k` samples of its front frame were taken. */
  function Take(queue: seq<Frame>, offset: nat, k: nat): (seq<Frame>, nat)
    requires queue != []
  {
    if offset + k >= |queue[0].samples| then (queue[1..], 0) else (queue, offset + k)
  }

  /** One turn of the copy loop is one step of the three functions above. */
  lemma TakeStep(queue: seq<Frame>, offset: nat, n: nat, k: nat, last: Option<Frame>)
    requires queue != [] && n > 0 && k == if n < Left(queue[0], offset) then n else Left(queue[0], offset)
    ensures var (rest, off) := Take(queue, offset, k);
            var used := if k == 0 then last else Some(queue[0]);
            && Drain(queue, offset, n) == Drain(rest, off, n - k)
            && LastUsed(queue, offset, n, last) == LastUsed(rest, off, n - k, used)
  {
  }

  lemma TakeDelivers(queue: seq<Frame>, offset: nat, n: nat, k: nat)
    requires queue != [] && n > 0 && k == if n < Left(queue[0], offset) then n else Left(queue[0], offset)
    ensures var (rest, off) := Take(queue, offset, k);
            Delivered(queue, offset, n) == Part(queue[0], offset, k) + Delivered(rest, off, n - k)
  {
  }

  /** The state of the copy loop. */
  datatype Cursor = Cursor(queue: seq<Frame>, offset: nat, last: Option<Frame>, audio: seq<Sample>)

  /** Going on from `now` gives what the whole loop gives from `start`. */
  ghost predicate OnTrack(start: Cursor, now: Cursor, cap: nat) {
    && |now.audio| <= cap
    && Drain(now.queue, now.offset, cap - |now.audio|) == Drain(start.queue, start.offset, cap)
    && LastUsed(now.queue, now.offset, cap - |now.audio|, now.last)
       == LastUsed(start.queue, start.offset, cap, start.last)
  }

  ghost predicate AudioOnTrack(start: Cursor, now: Cursor, cap: nat) {
    && |now.audio| <= cap
    && now.audio + Delivered(now.queue, now.offset, cap - |now.audio|) == Delivered(start.queue, start.offset, cap)
  }

  lemma OneTurn(start: Cursor, now: Cursor, cap: nat, n: nat)
    requires OnTrack(start, now, cap) && |now.audio| < cap && now.queue != []
    requires var left := Left(now.queue[0], now.offset);
             n == if cap - |now.audio| < left then cap - |now.audio| else left
    ensures OnTrack(start, Advance(now, n), cap)
  {
    TakeStep(now.queue, now.offset, cap - |now.audio|, n, now.last);
  }

  lemma OneTurnAudio(start: Cursor, now: Cursor, cap: nat, n: nat)
    requires AudioOnTrack(start, now, cap) && |now.audio| < cap && now.queue != []
    requires var left := Left(now.queue[0], now.offset);
             n == if cap - |now.audio| < left then cap - |now.audio| else left
    ensures AudioOnTrack(start, Advance(now, n), cap)
  {
    var want := cap - |now.audio|;
    TakeDelivers(now.queue, now.offset, want, n);
    var (rest, off) := Take(now.queue, now.offset, n);
    Append(now.audio, Part(now.queue[0], now.offset, n), Delivered(rest, off, want - n));
  }

  function Advance(now: Cursor, n: nat): Cursor
    requires now.queue != [] && n <= Left(now.queue[0], now.offset)
  {
    var (rest, off) := Take(now.queue, now.offset, n);
    Cursor(rest, off, if n == 0 then now.last else Some(now.queue[0]), now.audio + Part(now.queue[0], now.offset, n))
  }

  lemma RepeatStep(samples: seq<Sample>, n: nat, chunk: nat)
    requires samples != [] && chunk == if n < |samples| then n else |samples|
    ensures Repeat(samples, n) == samples[..chunk] + Repeat(samples, n - chunk)
  {
  }

  /** `out` is a part of the repetition, and the rest of it is still to come. */
  ghost predicate RepeatOnTrack(samples: seq<Sample>, n: nat, out: seq<Sample>)
    requires samples != []
  {
    |out| <= n && out + Repeat(samples, n - |out|) == Repeat(samples, n)
  }

  lemma RepeatOn(samples: seq<Sample>, n: nat, out: seq<Sample>, chunk: nat)
    requires samples != [] && RepeatOnTrack(samples, n, out) && |out| < n
    requires chunk == if n - |out| < |samples| then n - |out| else |samples|
    ensures RepeatOnTrack(samples, n, out + samples[..chunk])
  {
    RepeatStep(samples, n - |out|, chunk);
    Append(out, samples[..chunk], Repeat(samples, n - |out| - chunk));
  }

  lemma RepeatDone(samples: seq<Sample>, out: seq<Sample>)
    requires samples != [] && RepeatOnTrack(samples, |out|, out)
    ensures out == Repeat(samples, |out|)
  {
    assert Repeat(samples, 0) == [];
  }

  /** FillRepeatLast: whole copies of the frame, then a part of it. */
  method FillRepeatLast(n: nat, frame: Frame) returns (out: seq<Sample>)
    ensures out == if frame.samples == [] then [] else Repeat(frame.samples, n)
  {
    out := [];
    if frame.samples == [] {
      return;
    }
    assert RepeatOnTrack(frame.samples, n, out);
    while |out| < n
      invariant RepeatOnTrack(frame.samples, n, out)
    {
      var chunk := if n - |out| < |frame.samples| then n - |out| else |frame.samples|;
      RepeatOn(frame.samples, n, out, chunk);
      out := out + frame.samples[..chunk];
    }
    RepeatDone(frame.samples, out);
  }

  // ----- The class ----------------------------------------------------------------------

  class TtsPlayoutBuffer {
    const cfg: Config
    var queue: seq<Frame>
    var offset: nat
    var depth: nat
    var last: Option<Frame>
    var primed: bool
    var eos: bool
    var started: bool
    var underruns: nat
    var overruns: nat

    ghost function Value(): Buffer
      reads this
    {
      Buffer(queue, offset, depth, last, primed, eos, started, underruns, overruns)
    }

    ghost predicate Valid()
      reads this
    {
      FramesFull(Value())
    }

    constructor (cfg: Config)
      ensures Valid() && Value() == Empty() && this.cfg == cfg
    {
      this.cfg := cfg;
      queue, offset, depth, last := [], 0, 0, None;
      primed, eos, started, underruns, overruns := false, false, false, 0, 0;
    }

    /** One pass over the queue, the front frame without its played part. */
    method RecomputeDepth()
      modifies `depth
      ensures depth == Depth(queue, offset)
    {
      var total := 0;
      var first := true;
      for i := 0 to |queue|
        invariant first <==> i == 0
        invariant total + Total(queue[i..], if first then offset else 0) == Total(queue, offset)
      {
        var samples := |queue[i].samples|;
        if first {
          samples := if offset >= samples then 0 else samples - offset;
          first := false;
        }
        total := total + DurationMs(samples, queue[i].rate, queue[i].channels);
        assert queue[i..][1..] == queue[i + 1..];
      }
      depth := if total < U32 then total else U32 - 1;
    }

    /** The loop of Push that drops the oldest frames. */
    method TrimToHighWater() returns (dropped: nat)
      requires depth == Depth(queue, offset)
      modifies `queue, `offset, `depth
      ensures (queue, offset, dropped) == DropOver(cfg.highWater, old(queue), old(offset))
      ensures depth == Depth(queue, offset) && forall f <- queue :: f in old(queue)
    {
      dropped := 0;
      while depth > cfg.highWater && |queue| > 1
        invariant depth == Depth(queue, offset) && forall f <- queue :: f in old(queue)
        invariant var (q, o, d) := DropOver(cfg.highWater, queue, offset);
                  DropOver(cfg.highWater, old(queue), old(offset)) == (q, o, d + dropped)
        decreases |queue|
      {
        offset := 0;
        queue := queue[1..];
        dropped := dropped + 1;
        RecomputeDepth();
      }
    }

    method PushFrame(f: Frame)
      requires Valid()
      modifies this
      ensures Valid() && Value() == Push(cfg, old(Value()), f)
    {
      if |f.samples| == 0 {
        return;
      }
      queue := queue + [f];
      RecomputeDepth();
      var dropped := TrimToHighWater();
      if dropped > 0 {
        overruns := overruns + dropped;
      }
      if !primed && depth >= cfg.preroll {
        primed := true;
      }
    }

    /** One turn of the copy loop: as much of the front frame as is wanted. */
    method TakeFront(want: nat) returns (part: seq<Sample>)
      requires Valid() && queue != [] && want > 0
      modifies `queue, `offset, `last
      ensures |part| == if want < Left(old(queue)[0], old(offset)) then want else Left(old(queue)[0], old(offset))
      ensures Valid() && (queue, offset) == Take(old(queue), old(offset), |part|)
      ensures part == Part(old(queue)[0], old(offset), |part|)
      ensures last == if cfg.policy == RepeatLast && part != [] then Some(old(queue)[0]) else old(last)
    {
      var front := queue[0];
      var total := |front.samples|;
      var avail := if offset >= total then 0 else total - offset;
      if avail == 0 {
        queue := queue[1..];
        offset := 0;
        return [];
      }
      var n := if want < avail then want else avail;
      part := front.samples[offset..offset + n];
      if cfg.policy == RepeatLast {
        last := Some(front);
      }
      offset := offset + n;
      if offset >= total {
        queue := queue[1..];
        offset := 0;
      }
    }

    /** The loop of Pop that copies across frames. */
    method DrainFrames(cap: nat) returns (audio: seq<Sample>)
      requires Valid()
      modifies `queue, `offset, `last
      ensures Valid() && (queue, offset) == Drain(old(queue), old(offset), cap)
      ensures audio == Delivered(old(queue), old(offset), cap)
      ensures last == if cfg.policy == RepeatLast then LastUsed(old(queue), old(offset), cap, old(last)) else old(last)
    {
      audio := [];
      ghost var start := Cursor(queue, offset, last, []);
      ghost var now := start;
      while |audio| < cap && queue != []
        invariant Valid() && OnTrack(start, now, cap) && AudioOnTrack(start, now, cap)
        invariant now.queue == queue && now.offset == offset && now.audio == audio
        invariant last == if cfg.policy == RepeatLast then now.last else old(last)
        decreases |queue|, cap - |audio|
      {
        var part := TakeFront(cap - |audio|);
        OneTurn(start, now, cap, |part|);
        OneTurnAudio(start, now, cap, |part|);
        now := Advance(now, |part|);
        audio := audio + part;
      }
    }

    method Pad(n: nat) returns (pad: seq<Sample>)
      requires Valid()
      ensures pad == Padding(cfg, last, n)
    {
      if cfg.policy == RepeatLast && last.Some? {
        pad := FillRepeatLast(n, last.value);
      } else {
        pad := Zeros(n);
      }
    }

    method PlayFrames(cap: nat) returns (out: seq<Sample>)
      requires Valid() && queue != []
      modifies this
      ensures Valid() && Value() == Play(cfg, old(Value()), cap).buffer
      ensures out == Play(cfg, old(Value()), cap).out
    {
      out := DrainFrames(cap);
      RecomputeDepth();
      started := true;
      if |out| == cap {
        assert out + Fill(cfg, last, eos, 0) == out;
        return;
      }
      if eos {
        out := out + Zeros(cap - |out|);
      } else {
        underruns := underruns + 1;
        var pad := Pad(cap - |out|);
        out := out + pad;
      }
    }

    /** What Pop writes; the buffer `out` of the callback receives it in one piece. */
    method PopSamples(cap: nat, early: bool, late: bool) returns (out: seq<Sample>)
      requires Valid()
      modifies this
      ensures Valid()
      ensures var p := Pop(cfg, old(Value()), cap, early, late); Value() == p.buffer && out == p.out
    {
      if cap == 0 {
        return [];
      }
      if eos && queue == [] {
        return [];
      }
      eos := eos || early;
      if !primed && !eos {
        return Zeros(cap);
      }
      eos := eos || late;
      if queue != [] {
        out := PlayFrames(cap);
        return;
      }
      if eos {
        return [];
      }
      if !started {
        return Zeros(cap);
      }
      underruns := underruns + 1;
      out := Pad(cap);
    }

    /** Pop into the caller's buffer, which may be null. */
    method PopInto(out: array?<Sample>, cap: nat, early: bool, late: bool) returns (n: nat)
      requires Valid() && (out != null ==> cap <= out.Length)
      modifies this, if out == null then {} else {out}
      ensures Valid()
      ensures var p := Pop(cfg, old(Value()), if out == null then 0 else cap, early, late);
              && Value() == p.buffer && n == |p.out|
              && (out != null ==> n <= out.Length && out[..n] == p.out && out[n..] == old(out[n..]))
    {
      if out == null {
        return 0;
      }
      var samples := PopSamples(cap, early, late);
      n := |samples|;
      assert n <= cap;
      forall i | 0 <= i < n {
        out[i] := samples[i];
      }
    }

    method SignalEndOfStream()
      modifies `eos
      ensures Value() == old(Value()).(eos := true)
    {
      eos := true;
    }
  }
}
