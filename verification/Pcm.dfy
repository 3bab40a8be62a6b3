/** 16-bit samples as bytes: the little-endian interleaving of the stereo pairer
    (src/media/stereo_pairer.cc), its decoding in the recording relay
    (src/media/recording_relay.cc) and the wire frame (src/media/audio_frame.cc). */
module Pcm {
  import opened Basics

  /** The two bytes AppendInt16Le pushes: the two's complement of the sample, low byte first. */
  function Le(sample: Sample): (bytes: seq<Byte>)
    ensures |bytes| == 2
  {
    var value := if sample < 0 then sample + 65536 else sample;
    [value % 256, value / 256]
  }

  /** ReadInt16Le: the sample at an index of a byte sequence. */
  function ReadInt16Le(bytes: seq<Byte>, index: nat): Sample
    requires 2 * index + 1 < |bytes|
  {
    var value: int := bytes[2 * index] as int + 256 * (bytes[2 * index + 1] as int);
    if value < 32768 then value else value - 65536
  }

  /** The samples one after the other. */
  function Encode(samples: seq<Sample>): (bytes: seq<Byte>)
    ensures |bytes| == 2 * |samples|
  {
    if samples == [] then [] else Encode(samples[..|samples| - 1]) + Le(samples[|samples| - 1])
  }

  lemma ReadBack(sample: Sample, before: seq<Byte>, after: seq<Byte>, index: nat)
    requires |before| == 2 * index
    ensures ReadInt16Le(before + Le(sample) + after, index) == sample
  {
  }

  lemma {:induction false} ReadEncoded(samples: seq<Sample>, index: nat)
    requires index < |samples|
    ensures ReadInt16Le(Encode(samples), index) == samples[index]
  {
    var n := |samples| - 1;
    if index == n {
      ReadBack(samples[n], Encode(samples[..n]), [], n);
      assert Encode(samples) == Encode(samples[..n]) + Le(samples[n]) + [];
    } else {
      ReadEncoded(samples[..n], index);
    }
  }

  /** Left and right alternately, the shorter side padded with silence. */
  function Interleave(left: seq<Sample>, right: seq<Sample>): (out: seq<Sample>)
    ensures |out| == 2 * Longer(left, right)
  {
    seq(2 * Longer(left, right),
        k requires 0 <= k < 2 * Longer(left, right) => SampleAt(if k % 2 == 0 then left else right, k / 2))
  }

  function SampleAt(side: seq<Sample>, i: nat): Sample {
    if i < |side| then side[i] else 0
  }

  function Longer(left: seq<Sample>, right: seq<Sample>): nat {
    if |left| < |right| then |right| else |left|
  }

  lemma EncodeMore(all: seq<Sample>, k: nat)
    requires k < |all|
    ensures Encode(all[..k + 1]) == Encode(all[..k]) + Le(all[k])
  {
    assert all[..k + 1][..k] == all[..k];
  }

  lemma EncodePair(left: seq<Sample>, right: seq<Sample>, i: nat)
    requires i < Longer(left, right)
    ensures var all := Interleave(left, right);
            Encode(all[..2 * (i + 1)]) == Encode(all[..2 * i]) + Le(SampleAt(left, i)) + Le(SampleAt(right, i))
  {
    var all := Interleave(left, right);
    EncodeMore(all, 2 * i);
    EncodeMore(all, 2 * i + 1);
    InterleaveAt(left, right, i);
  }

  lemma InterleaveAt(left: seq<Sample>, right: seq<Sample>, i: nat)
    requires i < Longer(left, right)
    ensures Interleave(left, right)[2 * i] == SampleAt(left, i)
    ensures Interleave(left, right)[2 * i + 1] == SampleAt(right, i)
  {
  }

  /** The loop of MakePairedFrameLocked. */
  method AppendAll(left: seq<Sample>, right: seq<Sample>) returns (bytes: seq<Byte>)
    ensures bytes == Encode(Interleave(left, right))
  {
    bytes := [];
    for i := 0 to Longer(left, right)
      invariant bytes == Encode(Interleave(left, right)[..2 * i])
    {
      EncodePair(left, right, i);
      bytes := bytes + Le(if i < |left| then left[i] else 0);
      bytes := bytes + Le(if i < |right| then right[i] else 0);
    }
    assert Interleave(left, right)[..2 * Longer(left, right)] == Interleave(left, right);
  }

  /** A module-side frame and the wire message it becomes. */
  datatype AudioFrame = AudioFrame(
    samples: seq<Sample>, rate: nat, channels: nat, seqNo: nat, timestamp: nat, channel: nat, uuid: string)

  datatype WireFrame = WireFrame(
    seqNo: nat, timestamp: nat, duration: nat, channel: nat, uuid: string, payload: seq<Byte>)

  /** Samples per channel. */
  function DurationSamples(f: AudioFrame): nat {
    if f.channels > 0 then |f.samples| / f.channels else 0
  }

  /** The payload is the memory of the samples, on a little-endian host. */
  function ToProto(f: AudioFrame): WireFrame {
    WireFrame(f.seqNo, f.timestamp, DurationSamples(f), f.channel, f.uuid, Encode(f.samples))
  }

  /** memcpy of a payload into samples, on a little-endian host. */
  function Decode(payload: seq<Byte>): seq<Sample> {
    seq(|payload| / 2, i requires 0 <= i < |payload| / 2 => ReadInt16Le(payload, i))
  }

  function FromProto(w: WireFrame, rate: nat, channels: nat): Option<AudioFrame> {
    if |w.payload| != w.duration * channels * 2 then None
    else Some(AudioFrame(Decode(w.payload), rate, channels, w.seqNo, w.timestamp, w.channel, w.uuid))
  }

  lemma DecodeEncoded(samples: seq<Sample>)
    ensures Decode(Encode(samples)) == samples
  {
    forall i | 0 <= i < |samples|
      ensures Decode(Encode(samples))[i] == samples[i]
    {
      ReadEncoded(samples, i);
    }
  }

  /** Two bytes that are a sample, low byte first and modulo 2 to the 16. */
  predicate IsLe(low: int, high: int, sample: int) {
    (low + 256 * high - sample) % 65536 == 0
  }

  lemma LittleEndian(sample: Sample)
    ensures IsLe(Le(sample)[0], Le(sample)[1], sample)
  {
  }

  lemma {:induction false} EncodedAt(samples: seq<Sample>, i: nat)
    requires i < |samples|
    ensures Encode(samples)[2 * i] == Le(samples[i])[0] && Encode(samples)[2 * i + 1] == Le(samples[i])[1]
  {
    var n := |samples| - 1;
    if i < n { EncodedAt(samples[..n], i); }
  }

  /** What is on the wire: the frame's own number, time, channel and uuid; as duration the whole
      sample groups; and as payload two bytes for each sample, low byte first. */
  lemma WireLayout(f: AudioFrame, i: nat)
    requires i < |f.samples|
    ensures var w := ToProto(f);
            && w.seqNo == f.seqNo && w.timestamp == f.timestamp && w.channel == f.channel && w.uuid == f.uuid
            && w.duration * f.channels <= |f.samples|
            && (f.channels > 0 ==> |f.samples| < w.duration * f.channels + f.channels)
            && |w.payload| == 2 * |f.samples|
            && IsLe(w.payload[2 * i], w.payload[2 * i + 1], f.samples[i])
  {
    LittleEndian(f.samples[i]);
    EncodedAt(f.samples, i);
    if f.channels > 0 { Quotient(|f.samples|, f.channels); }
  }

  lemma WholeGroups(n: nat, channels: nat)
    requires channels > 0
    ensures n / channels * channels == n <==> n % channels == 0
  {
    assert n == n / channels * channels + n % channels;
  }

  /** A frame survives the wire exactly when it has whole sample groups; otherwise the
      receiver refuses it. */
  lemma WireRoundTrip(f: AudioFrame)
    ensures FromProto(ToProto(f), f.rate, f.channels) ==
              if (if f.channels == 0 then f.samples == [] else |f.samples| % f.channels == 0) then Some(f) else None
  {
    DecodeEncoded(f.samples);
    if f.channels > 0 { WholeGroups(|f.samples|, f.channels); }
  }

  /** One sample of a stereo frame is such a frame. */
  lemma HalfGroupRefused(sample: Sample, rate: nat)
    ensures FromProto(ToProto(AudioFrame([sample], rate, 2, 0, 0, 0, "")), rate, 2) == None
  {
    WireRoundTrip(AudioFrame([sample], rate, 2, 0, 0, 0, ""));
  }

  /** The frame the pairer hands to the relay. */
  datatype PairedFrame = PairedFrame(interleaved: seq<Byte>, perChannel: nat, rate: nat, seqNo: nat)

  const BOTH_INTERLEAVED: nat := 3

  /** What the recording relay keeps per stream: the counters of its stream client. */
  class RecordingRelay {
    const connected: bool
    const stereo: bool
    const rate: nat
    var nextSeq: nat
    var nextTimestamp: nat

    constructor (connected: bool, stereo: bool, rate: nat)
      ensures this.connected == connected && this.stereo == stereo && this.rate == rate
      ensures nextSeq == 0 && nextTimestamp == 0
    {
      this.connected, this.stereo, this.rate := connected, stereo, rate;
      nextSeq, nextTimestamp := 0, 0;
    }

    /** FlushPairedFrame up to SendAudio; `None` when nothing is sent. The loop reads the first
        four bytes for each sample pair, so there must be as many. */
    method FlushPairedFrame(paired: PairedFrame) returns (sent: Option<AudioFrame>)
      requires paired.interleaved == [] || 4 * paired.perChannel <= |paired.interleaved|
      modifies this
      ensures sent.Some? <==> connected && stereo && paired.perChannel > 0 && paired.interleaved != []
      ensures sent.Some? ==>
                sent.value == AudioFrame(Decode(paired.interleaved[..4 * paired.perChannel]), rate, 2,
                                         old(nextSeq), old(nextTimestamp), BOTH_INTERLEAVED, "")
      ensures nextSeq == old(nextSeq) + (if sent.Some? then 1 else 0)
      ensures nextTimestamp == old(nextTimestamp) + (if sent.Some? then paired.perChannel else 0)
    {
      if !connected || paired.perChannel == 0 || paired.interleaved == [] {
        return None;
      }
      if !stereo {
        return None;
      }
      var samples := ReadAll(paired.interleaved, paired.perChannel);
      sent := Some(AudioFrame(samples, rate, 2, nextSeq, nextTimestamp, BOTH_INTERLEAVED, ""));
      nextSeq := nextSeq + 1;
      nextTimestamp := nextTimestamp + paired.perChannel;
    }

    method ReadAll(bytes: seq<Byte>, perChannel: nat) returns (samples: seq<Sample>)
      requires 4 * perChannel <= |bytes|
      ensures samples == Decode(bytes[..4 * perChannel])
    {
      samples := [];
      for i := 0 to perChannel * 2
        invariant samples == Decode(bytes[..4 * perChannel])[..i]
      {
        assert ReadInt16Le(bytes[..4 * perChannel], i) == ReadInt16Le(bytes, i);
        samples := samples + [ReadInt16Le(bytes, i)];
      }
    }
  }

  /** Stereo samples over the relay and the wire. */
  lemma StereoWire(samples: seq<Sample>, rate: nat, seqNo: nat, timestamp: nat)
    requires |samples| % 2 == 0
    ensures var sent := AudioFrame(Decode(Encode(samples)), rate, 2, seqNo, timestamp, BOTH_INTERLEAVED, "");
            FromProto(ToProto(sent), rate, 2) == Some(sent.(samples := samples))
  {
    DecodeEncoded(samples);
    WireRoundTrip(AudioFrame(samples, rate, 2, seqNo, timestamp, BOTH_INTERLEAVED, ""));
  }

  /** From the bytes of the pairer over the relay and the wire to the receiver: left and right
      arrive alternately, the shorter side padded with zeros. */
  lemma StereoRoundTrip(left: seq<Sample>, right: seq<Sample>, rate: nat, seqNo: nat, timestamp: nat, i: nat)
    requires i < Longer(left, right)
    ensures var bytes := Encode(Interleave(left, right));
            var sent := AudioFrame(Decode(bytes), rate, 2, seqNo, timestamp, BOTH_INTERLEAVED, "");
            var received := FromProto(ToProto(sent), rate, 2);
            && received.Some? && |received.value.samples| == 2 * Longer(left, right)
            && received.value.samples[2 * i] == (if i < |left| then left[i] else 0)
            && received.value.samples[2 * i + 1] == (if i < |right| then right[i] else 0)
  {
    StereoWire(Interleave(left, right), rate, seqNo, timestamp);
    InterleaveAt(left, right, i);
  }
}
