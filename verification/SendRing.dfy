/** The send ring of the stream client (src/media/stream_client.cc): senders that drop the
    oldest message when it is full, one writer thread, and Close. */
module SendRing {
  import opened Basics
  import opened Circular

  datatype Message = Audio(payload: seq<Byte>) | Control(body: string)

  /** A drop-oldest queue: what a full ring of `size` slots keeps when `m` comes. */
  function Squeeze(pending: seq<Message>, size: nat): seq<Message> {
    if |pending| == size && pending != [] then pending[1..] else pending
  }

  // ----- The client as a protocol -------------------------------------------------------

  /** The writer thread: not started, none in half-close mode, else waiting for a message,
      writing one, or on its way out. */
  datatype Writer = Unstarted | Absent | Waiting | Writing(m: Message) | Finishing | Exited

  datatype Phase = Unopened | Open | Joining | Closed

  /** `accepted`, `taken` and `written` are the history; `calls` counts WritesDone. */
  datatype Client = Client(
    size: nat,
    pending: seq<Message>,
    closed: bool,
    dropped: nat,
    writesDone: bool,
    calls: nat,
    writer: Writer,
    phase: Phase,
    failed: bool,
    accepted: seq<Message>,
    taken: seq<Message>,
    written: seq<Message>)

  function Create(capacity: nat): Client {
    Client(if capacity < 1 then 1 else capacity, [], false, 0, false, 0, Unstarted, Unopened, false, [], [], [])
  }

  datatype Step =
    | OpenStream(halfClose: bool)
    | Send(m: Message)
    | TakeNext
    | SeeClosed
    | Write(ok: bool)
    | Finish
    | BeginClose
    | Join

  predicate Enabled(c: Client, step: Step) {
    match step
    case OpenStream(_) => c.phase.Unopened?
    case Send(_) => true
    case TakeNext => c.writer.Waiting? && c.pending != []
    case SeeClosed => c.writer.Waiting? && c.pending == [] && c.closed
    case Write(_) => c.writer.Writing?
    case Finish => c.writer.Finishing?
    case BeginClose => c.phase.Open?
    case Join => c.phase.Joining? && (c.writer.Exited? || c.writer.Absent?)
  }

  predicate Refused(c: Client, m: Message) {
    c.closed || m == Audio([])
  }

  function Apply(c: Client, step: Step): Client
    requires Enabled(c, step)
  {
    match step
    // The handshake half-closes the stream itself, and then there is no writer thread.
    case OpenStream(halfClose) =>
      if halfClose then c.(phase := Open, closed := true, writesDone := true, calls := c.calls + 1, writer := Absent)
      else c.(phase := Open, writer := Waiting)
    case Send(m) =>
      if Refused(c, m) then c
      else c.(pending := Squeeze(c.pending, c.size) + [m], accepted := c.accepted + [m],
              dropped := c.dropped + if |c.pending| == c.size then 1 else 0)
    case TakeNext =>
      c.(pending := c.pending[1..], taken := c.taken + [c.pending[0]], writer := Writing(c.pending[0]))
    case SeeClosed => c.(writer := Finishing)
    case Write(ok) =>
      if ok then c.(written := c.written + [c.writer.m], writer := Waiting)
      else c.(failed := true, writer := Exited)
    case Finish =>
      c.(writer := Exited, writesDone := true, calls := if c.writesDone then c.calls else c.calls + 1)
    case BeginClose => c.(closed := true, phase := Joining)
    case Join => c.(phase := Closed)
  }

  predicate Legal(c: Client, steps: seq<Step>)
    decreases |steps|
  {
    steps == [] || (Enabled(c, steps[0]) && Legal(Apply(c, steps[0]), steps[1..]))
  }

  function After(c: Client, steps: seq<Step>): Client
    requires Legal(c, steps)
    decreases |steps|
  {
    if steps == [] then c else After(Apply(c, steps[0]), steps[1..])
  }

  // ----- The circular buffer ------------------------------------------------------------

  const BLANK: Message := Control("")

  class Ring {
    const ring: SlotRing<Message>
    var closed: bool
    var dropped: nat

    ghost predicate Valid()
      reads this, ring, ring.slots
    {
      ring.Valid()
    }

    ghost function Pending(): seq<Message>
      requires Valid()
      reads this, ring, ring.slots
    {
      ring.Queue()
    }

    /** The ring of a client in the protocol. */
    ghost predicate Shows(c: Client)
      reads this, ring, ring.slots
    {
      && Valid() && ring.slots.Length == c.size
      && Pending() == c.pending && closed == c.closed && dropped == c.dropped
    }

    /** A configured capacity of 0 becomes 1. */
    constructor (capacity: nat)
      ensures Shows(Create(capacity)) && fresh(ring) && fresh(ring.slots)
      ensures Pending() == [] && ring.slots.Length == if capacity < 1 then 1 else capacity
    {
      ring := new SlotRing(if capacity < 1 then 1 else capacity, BLANK);
      closed, dropped := false, 0;
    }

    /** RingPushLocked, as both senders do it. */
    method Push(m: Message) returns (evicted: bool)
      requires Valid()
      modifies this, ring, ring.slots
      ensures Valid() && closed == old(closed)
      ensures evicted == (|old(Pending())| == ring.slots.Length)
      ensures Pending() == Squeeze(old(Pending()), ring.slots.Length) + [m]
      ensures dropped == old(dropped) + if evicted then 1 else 0
    {
      evicted := ring.Push(m, BLANK);
      if evicted {
        dropped := dropped + 1;
      }
    }

    /** SendAudio: true when the frame got in without pushing another one out. */
    method SendAudio(payload: seq<Byte>, ghost c: Client) returns (ok: bool)
      requires Shows(c)
      modifies this, ring, ring.slots
      ensures Shows(Apply(c, Send(Audio(payload)))) && closed == old(closed)
      ensures payload == [] || closed ==> !ok && Pending() == old(Pending()) && dropped == old(dropped)
      ensures payload != [] && !closed ==>
                && ok == (|old(Pending())| < ring.slots.Length)
                && Pending() == Squeeze(old(Pending()), ring.slots.Length) + [Audio(payload)]
                && dropped == old(dropped) + if ok then 0 else 1
    {
      if payload == [] || closed {
        return false;
      }
      var evicted := Push(Audio(payload));
      ok := !evicted;
    }

    method SendControl(body: string, ghost c: Client)
      requires Shows(c)
      modifies this, ring, ring.slots
      ensures Shows(Apply(c, Send(Control(body)))) && closed == old(closed)
      ensures closed ==> Pending() == old(Pending()) && dropped == old(dropped)
      ensures !closed ==> Pending() == Squeeze(old(Pending()), ring.slots.Length) + [Control(body)]
      ensures !closed ==> dropped == old(dropped) + if |old(Pending())| == ring.slots.Length then 1 else 0
    {
      if closed {
        return;
      }
      var _ := Push(Control(body));
    }

    /** RingPopLocked; for the writer thread that waits, the step TakeNext. */
    method Pop(ghost c: Client) returns (m: Option<Message>)
      requires Shows(c)
      modifies ring, ring.slots
      ensures Valid()
      ensures old(Pending()) == [] ==> m == None && Shows(c)
      ensures old(Pending()) != [] ==> m == Some(old(Pending())[0]) && Pending() == old(Pending())[1..]
      ensures Enabled(c, TakeNext) ==> Shows(Apply(c, TakeNext)) && m == Some(Apply(c, TakeNext).writer.m)
    {
      if ring.count == 0 {
        return None;
      }
      var front := ring.Pop(BLANK);
      m := Some(front);
    }

    /** Close, and the handshake of a half-closed stream. */
    method CloseRing(ghost c: Client)
      requires Shows(c)
      modifies `closed
      ensures Valid() && closed && Pending() == old(Pending())
      ensures Enabled(c, BeginClose) ==> Shows(Apply(c, BeginClose))
      ensures Enabled(c, OpenStream(true)) ==> Shows(Apply(c, OpenStream(true)))
    {
      closed := true;
    }
  }

  // ----- What a run shows of its steps --------------------------------------------------

  /** Close, and the handshake when it half-closes. */
  predicate Closes(step: Step) {
    step.BeginClose? || (step.OpenStream? && step.halfClose)
  }

  /** What a sender offers: anything but an empty audio frame. */
  function Offered(step: Step): seq<Message> {
    if step.Send? && step.m != Audio([]) then [step.m] else []
  }

  /** The messages offered before the ring is closed. */
  function SentInTime(steps: seq<Step>): seq<Message> {
    if steps == [] || Closes(steps[0]) then [] else Offered(steps[0]) + SentInTime(steps[1..])
  }

  lemma AcceptedStep(c: Client, step: Step)
    requires Enabled(c, step)
    ensures Apply(c, step).accepted == c.accepted + if c.closed then [] else Offered(step)
    ensures Apply(c, step).closed <==> c.closed || Closes(step)
  {
  }

  lemma {:induction false} AcceptedFrom(c: Client, steps: seq<Step>)
    requires Legal(c, steps)
    ensures After(c, steps).accepted == c.accepted + if c.closed then [] else SentInTime(steps)
    decreases |steps|
  {
    if steps != [] {
      AcceptedStep(c, steps[0]);
      AcceptedFrom(Apply(c, steps[0]), steps[1..]);
      Append(c.accepted, Offered(steps[0]), SentInTime(steps[1..]));
    }
  }

  lemma {:induction false} FlagsFrom(c: Client, steps: seq<Step>)
    requires Legal(c, steps)
    ensures var after := After(c, steps);
            && after.size == c.size
            && (after.closed <==> c.closed || exists i :: 0 <= i < |steps| && Closes(steps[i]))
            && (after.failed <==> c.failed || Write(false) in steps)
    decreases |steps|
  {
    if steps != [] {
      FlagsFrom(Apply(c, steps[0]), steps[1..]);
      assert steps == [steps[0]] + steps[1..];
    }
  }

  /** Which sends are accepted, under every interleaving: in order, exactly those before the first
      step that closes the ring, except empty audio frames. The ring is closed once there was such
      a step, and a write has failed if and only if one was refused. */
  lemma AcceptedExact(capacity: nat, steps: seq<Step>)
    requires Legal(Create(capacity), steps)
    ensures var c := After(Create(capacity), steps);
            && c.accepted == SentInTime(steps)
            && (c.closed <==> exists i :: 0 <= i < |steps| && Closes(steps[i]))
            && (c.failed <==> Write(false) in steps)
  {
    AcceptedFrom(Create(capacity), steps);
    FlagsFrom(Create(capacity), steps);
  }

  // ----- Drop-oldest FIFO ---------------------------------------------------------------

  /** `keep` marks, among the messages that have left the ring, those the writer took: it took
      them in order, the others are counted as dropped, and the ring holds the rest. */
  predicate Accounted(c: Client, keep: seq<bool>) {
    && |keep| <= |c.accepted| && c.pending == c.accepted[|keep|..]
    && c.taken == Select(c.accepted, keep)
    && c.dropped == Lost(keep)
  }

  /** Messages taken but not written: the one in hand, or the one whose write failed. */
  function Lag(c: Client): nat {
    if c.writer.Writing? || c.failed then 1 else 0
  }

  predicate Inv(c: Client) {
    && c.size >= 1 && |c.pending| <= c.size
    && c.written <= c.taken && |c.taken| == |c.written| + Lag(c)
    && (c.writer.Writing? ==> c.taken[|c.taken| - 1] == c.writer.m)
    && (c.failed ==> c.writer.Exited?)
    && (c.writer.Finishing? || (c.writer.Exited? && !c.failed) ==> c.closed && c.pending == [])
    && (c.phase.Unopened? <==> c.writer.Unstarted?)
    && (c.calls == if c.writesDone then 1 else 0)
    && (c.writesDone <==> c.writer.Absent? || (c.writer.Exited? && !c.failed))
    && (c.writer.Absent? || c.phase.Joining? || c.phase.Closed? ==> c.closed)
    && (c.phase.Closed? ==> c.writer.Exited? || c.writer.Absent?)
  }

  lemma InvStep(c: Client, step: Step)
    requires Inv(c) && Enabled(c, step)
    ensures Inv(Apply(c, step))
  {
  }

  lemma SendAccounted(c: Client, m: Message, keep: seq<bool>) returns (more: seq<bool>)
    requires Inv(c) && Accounted(c, keep) && !Refused(c, m)
    ensures Accounted(Apply(c, Send(m)), more)
  {
    more := keep;
    SelectMore(c.accepted, keep, m);
    if |c.pending| == c.size {
      more := keep + [false];
      SelectNext(c.accepted + [m], keep, false);
    }
  }

  lemma AccountedStep(c: Client, step: Step, keep: seq<bool>) returns (more: seq<bool>)
    requires Inv(c) && Accounted(c, keep) && Enabled(c, step)
    ensures Accounted(Apply(c, step), more)
  {
    more := keep;
    if step.Send? && !Refused(c, step.m) {
      more := SendAccounted(c, step.m, keep);
    } else if step.TakeNext? {
      more := keep + [true];
      SelectNext(c.accepted, keep, true);
    }
  }

  lemma {:induction false} AccountedRun(c: Client, steps: seq<Step>, keep: seq<bool>) returns (more: seq<bool>)
    requires Inv(c) && Accounted(c, keep) && Legal(c, steps)
    ensures Inv(After(c, steps)) && Accounted(After(c, steps), more)
    decreases |steps|
  {
    if steps == [] {
      more := keep;
    } else {
      InvStep(c, steps[0]);
      more := AccountedStep(c, steps[0], keep);
      more := AccountedRun(Apply(c, steps[0]), steps[1..], more);
    }
  }

  /** When a send pushes another message out: exactly when it is accepted and there are as many
      pending as the ring has slots, and then it is the oldest. */
  lemma DropsWhenFull(capacity: nat, steps: seq<Step>, m: Message)
    requires Legal(Create(capacity), steps)
    ensures var c := After(Create(capacity), steps); var after := Apply(c, Send(m));
            var size := if capacity < 1 then 1 else capacity;
            && |c.pending| <= size
            && (c.closed || m == Audio([]) ==> after == c)
            && (!c.closed && m != Audio([]) && |c.pending| < size ==>
                  after.pending == c.pending + [m] && after.dropped == c.dropped)
            && (!c.closed && m != Audio([]) && |c.pending| == size ==>
                  after.pending == c.pending[1..] + [m] && after.dropped == c.dropped + 1)
  {
    assert Accounted(Create(capacity), []);
    var _ := AccountedRun(Create(capacity), steps, []);
    FlagsFrom(Create(capacity), steps);
  }

  /** Drop-oldest FIFO, under every interleaving of senders, writer and closer: what was
      written is the beginning of what the writer took, which is an in-order selection of what
      was accepted; the rest has been counted as dropped or is still pending. WritesDone is
      issued at most once. */
  lemma SendsAccounted(capacity: nat, steps: seq<Step>) returns (keep: seq<bool>)
    requires Legal(Create(capacity), steps)
    ensures var c := After(Create(capacity), steps);
            && c.written <= c.taken && |c.taken| <= |c.written| + 1 && |keep| + |c.pending| == |c.accepted|
            && c.taken == Select(c.accepted, keep)
            && |c.accepted| == |c.taken| + c.dropped + |c.pending|
            && c.calls <= 1
  {
    assert Accounted(Create(capacity), []);
    keep := AccountedRun(Create(capacity), steps, []);
    SelectSize(After(Create(capacity), steps).accepted, keep);
  }

  /** Close in writer-thread mode, if no write failed: every accepted message was written or
      counted as dropped, in order, and WritesDone was issued exactly once. */
  lemma CloseDrains(capacity: nat, steps: seq<Step>) returns (keep: seq<bool>)
    requires Legal(Create(capacity), steps)
    ensures var c := After(Create(capacity), steps);
            c.phase.Closed? && !c.failed && !c.writer.Absent? ==>
              && |keep| == |c.accepted| && c.written == Select(c.accepted, keep)
              && |c.accepted| == |c.written| + c.dropped && c.pending == [] && c.calls == 1
  {
    assert Accounted(Create(capacity), []);
    keep := AccountedRun(Create(capacity), steps, []);
    var c := After(Create(capacity), steps);
    SelectSize(c.accepted[..|keep|], keep);
    assert |keep| == |c.accepted| ==> c.accepted[..|keep|] == c.accepted;
  }

  /** How far the writer is from its exit. */
  function Distance(c: Client): nat {
    2 * |c.pending| + match c.writer
                      case Waiting => 2
                      case Writing(_) => 3
                      case Finishing => 1
                      case _ => 0
  }

  /** If every write on the stream returns, Close does not hang on the writer: until the join is
      possible the writer has a step, and every step of its own brings it nearer to its exit,
      while senders are refused. The join has no timeout, so a write that blocks blocks Close. */
  lemma CloseMakesProgress(c: Client)
    requires Inv(c) && c.phase.Joining?
    ensures Enabled(c, Join) || Enabled(c, TakeNext) || Enabled(c, SeeClosed) || Enabled(c, Write(true))
         || Enabled(c, Finish)
    ensures forall step :: Enabled(c, step) && !step.Send? && !step.Join? ==> Distance(Apply(c, step)) < Distance(c)
    ensures forall m :: Apply(c, Send(m)) == c
  {
  }

  function NonSends(steps: seq<Step>): nat {
    if steps == [] then 0 else (if steps[0].Send? then 0 else 1) + NonSends(steps[1..])
  }

  /** So Close returns if every write does: once it has closed the ring, a run up to its join has
      only as many steps besides refused sends as the distance that was left. */
  lemma {:induction false} CloseEnds(c: Client, steps: seq<Step>)
    requires Inv(c) && c.phase.Joining? && Legal(c, steps)
    requires forall i :: 0 <= i < |steps| ==> !steps[i].Join?
    ensures NonSends(steps) <= Distance(c)
    decreases |steps|
  {
    if steps != [] {
      InvStep(c, steps[0]);
      CloseMakesProgress(c);
      CloseEnds(Apply(c, steps[0]), steps[1..]);
    }
  }
}
