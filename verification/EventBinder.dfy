/** The binder's producers (src/events/binder.cc), many at a time: an event gets its number, is
    pushed, and is counted in separate steps, and other producers may get in between. */
module EventBinder {
  import opened Basics
  import opened EventRing

  type Tid = nat

  datatype Tier = Tier1 | Tier2 | Tier3

  /** A value for each tier. */
  datatype Tiers<T> = Tiers(one: T, two: T, three: T) {
    function Of(tier: Tier): T {
      match tier
      case Tier1 => one
      case Tier2 => two
      case Tier3 => three
    }

    function Set(tier: Tier, x: T): Tiers<T> {
      match tier
      case Tier1 => this.(one := x)
      case Tier2 => this.(two := x)
      case Tier3 => this.(three := x)
    }
  }

  /** Where a producer is: it has a number and has not pushed, or it has pushed and has not
      counted the event as emitted; `owes` if its push evicted an entry it has yet to count. */
  datatype Position = Numbered(tier: Tier, seqNo: nat) | Pushed(tier: Tier, owes: bool)

  /** `next` is the last number taken in each tier; `emitted` is one counter for all tiers. */
  datatype Binder = Binder(
    next: Tiers<nat>,
    producers: map<Tid, Position>,
    histories: Tiers<History>,
    dropped: Tiers<nat>,
    emitted: nat)

  datatype Step =
    | Allocate(t: Tid, tier: Tier)
    | GiveUp(t: Tid)
    | Deliver(t: Tid, bytes: string)
    | CountDrop(t: Tid)
    | CountEmit(t: Tid)
    | Consume(tier: Tier, n: nat)

  function Begin(capacities: Tiers<nat>): Binder {
    Binder(Tiers(0, 0, 0), map[],
           Tiers(EventRing.Begin(capacities.one), EventRing.Begin(capacities.two), EventRing.Begin(capacities.three)),
           Tiers(0, 0, 0), 0)
  }

  predicate Enabled(b: Binder, step: Step) {
    match step
    case Allocate(t, _) => t !in b.producers
    case GiveUp(t) => t in b.producers && b.producers[t].Numbered?
    case Deliver(t, _) => t in b.producers && b.producers[t].Numbered?
    case CountDrop(t) => t in b.producers && b.producers[t].Pushed? && b.producers[t].owes
    case CountEmit(t) => t in b.producers && b.producers[t].Pushed? && !b.producers[t].owes
    case Consume(_, _) => true
  }

  function Apply(b: Binder, step: Step): Binder
    requires Enabled(b, step)
  {
    match step
    case Allocate(t, tier) =>
      var number := b.next.Of(tier) + 1;
      b.(next := b.next.Set(tier, number), producers := b.producers[t := Numbered(tier, number)])
    case GiveUp(t) => b.(producers := b.producers - {t})
    case Deliver(t, bytes) =>
      var (tier, number) := (b.producers[t].tier, b.producers[t].seqNo);
      var h := b.histories.Of(tier);
      b.(producers := b.producers[t := Pushed(tier, |h.ring.entries| >= h.ring.capacity)],
         histories := b.histories.Set(tier, Do(h, Add(Entry(number, bytes)))))
    case CountDrop(t) =>
      var tier := b.producers[t].tier;
      b.(producers := b.producers[t := Pushed(tier, false)], dropped := b.dropped.Set(tier, b.dropped.Of(tier) + 1))
    case CountEmit(t) => b.(producers := b.producers - {t}, emitted := b.emitted + 1)
    case Consume(tier, n) => b.(histories := b.histories.Set(tier, Do(b.histories.Of(tier), Take(n))))
  }

  predicate Legal(b: Binder, steps: seq<Step>)
    decreases |steps|
  {
    steps == [] || (Enabled(b, steps[0]) && Legal(Apply(b, steps[0]), steps[1..]))
  }

  function After(b: Binder, steps: seq<Step>): Binder
    requires Legal(b, steps)
    decreases |steps|
  {
    if steps == [] then b else After(Apply(b, steps[0]), steps[1..])
  }

  /** What a step does to the ring of a tier. */
  lemma HistoryStep(b: Binder, step: Step, tier: Tier)
    requires Enabled(b, step)
    ensures var h := b.histories.Of(tier);
            Apply(b, step).histories.Of(tier) ==
              if step.Deliver? && b.producers[step.t].tier == tier
              then Do(h, Add(Entry(b.producers[step.t].seqNo, step.bytes)))
              else if step.Consume? && step.tier == tier then Do(h, Take(step.n))
              else h
  {
  }

  /** The history of a tier is a history of its ring. */
  lemma {:induction false} RingRun(b: Binder, steps: seq<Step>, tier: Tier) returns (ops: seq<Op>)
    requires Legal(b, steps)
    ensures After(b, steps).histories.Of(tier) == EventRing.Run(b.histories.Of(tier), ops)
    decreases |steps|
  {
    ops := [];
    if steps != [] {
      ops := RingRun(Apply(b, steps[0]), steps[1..], tier);
      if steps[0].Deliver? && b.producers[steps[0].t].tier == tier {
        ops := [Add(Entry(b.producers[steps[0].t].seqNo, steps[0].bytes))] + ops;
      } else if steps[0].Consume? && steps[0].tier == tier {
        ops := [Take(steps[0].n)] + ops;
      }
    }
  }

  /** What the consumers of a tier get, under every interleaving of producers, is an in-order
      selection of what was pushed to its ring; the rest was evicted or is still there. */
  lemma ConsumedInOrder(capacities: Tiers<nat>, steps: seq<Step>, tier: Tier) returns (keep: seq<bool>)
    requires Legal(Begin(capacities), steps)
    ensures var h := After(Begin(capacities), steps).histories.Of(tier);
            && |keep| <= |h.pushed| && h.ring.entries == h.pushed[|keep|..]
            && h.popped == Select(h.pushed, keep) && h.evicted == Lost(keep)
  {
    var ops := RingRun(Begin(capacities), steps, tier);
    keep := DeliveredInOrder(capacities.Of(tier), ops);
  }

  // ----- Drop accounting ----------------------------------------------------------------

  /** The producers between push and the last counter. */
  function Between(b: Binder): set<Tid> {
    set t <- b.producers | b.producers[t].Pushed?
  }

  /** Those of a tier whose eviction is not counted yet. */
  function Owing(b: Binder, tier: Tier): set<Tid> {
    set t <- b.producers | b.producers[t].Pushed? && b.producers[t].owes && b.producers[t].tier == tier
  }

  function PushedIn(b: Binder, tier: Tier): nat { |b.histories.Of(tier).pushed| }

  predicate TierBalanced(b: Binder, tier: Tier) {
    Window(b.histories.Of(tier)) && b.histories.Of(tier).evicted == b.dropped.Of(tier) + |Owing(b, tier)|
  }

  predicate Counted(b: Binder) {
    PushedIn(b, Tier1) + PushedIn(b, Tier2) + PushedIn(b, Tier3) == b.emitted + |Between(b)|
  }

  predicate Balanced(b: Binder) {
    Counted(b) && TierBalanced(b, Tier1) && TierBalanced(b, Tier2) && TierBalanced(b, Tier3)
  }

  lemma OwingStep(b: Binder, step: Step, tier: Tier)
    requires Enabled(b, step)
    ensures var b' := Apply(b, step);
            Owing(b', tier) ==
              if step.Deliver? && b'.producers[step.t] == Pushed(tier, true) then Owing(b, tier) + {step.t}
              else if step.CountDrop? && b.producers[step.t].tier == tier then Owing(b, tier) - {step.t}
              else Owing(b, tier)
  {
  }

  lemma TierStep(b: Binder, step: Step, tier: Tier)
    requires TierBalanced(b, tier) && Enabled(b, step)
    ensures TierBalanced(Apply(b, step), tier)
  {
    OwingStep(b, step, tier);
    HistoryStep(b, step, tier);
    if step.Deliver? && b.producers[step.t].tier == tier {
      AddWindow(b.histories.Of(tier), Entry(b.producers[step.t].seqNo, step.bytes));
    }
  }

  lemma PushedStep(b: Binder, step: Step, tier: Tier)
    requires Enabled(b, step)
    ensures PushedIn(Apply(b, step), tier)
         == PushedIn(b, tier) + if step.Deliver? && b.producers[step.t].tier == tier then 1 else 0
  {
    HistoryStep(b, step, tier);
  }

  lemma CountedStep(b: Binder, step: Step)
    requires Counted(b) && Enabled(b, step)
    ensures Counted(Apply(b, step))
  {
    PushedStep(b, step, Tier1);
    PushedStep(b, step, Tier2);
    PushedStep(b, step, Tier3);
    BetweenStep(b, step);
  }

  lemma BetweenStep(b: Binder, step: Step)
    requires Enabled(b, step)
    ensures var b' := Apply(b, step);
            Between(b') == if step.Deliver? then Between(b) + {step.t}
                           else if step.CountEmit? then Between(b) - {step.t} else Between(b)
  {
  }

  lemma BalancedStep(b: Binder, step: Step)
    requires Balanced(b) && Enabled(b, step)
    ensures Balanced(Apply(b, step))
  {
    TierStep(b, step, Tier1);
    TierStep(b, step, Tier2);
    TierStep(b, step, Tier3);
    CountedStep(b, step);
  }

  lemma {:induction false} BalancedRun(b: Binder, steps: seq<Step>)
    requires Balanced(b) && Legal(b, steps)
    ensures Balanced(After(b, steps))
    decreases |steps|
  {
    if steps != [] {
      BalancedStep(b, steps[0]);
      BalancedRun(Apply(b, steps[0]), steps[1..]);
    }
  }

  /** What the counters and rings account for in a tier: consumed, in the ring, or dropped. */
  function Known(b: Binder, tier: Tier): nat {
    |b.histories.Of(tier).popped| + |b.histories.Of(tier).ring.entries| + b.dropped.Of(tier)
  }

  function AllOwing(b: Binder): set<Tid> {
    set t <- b.producers | b.producers[t].Pushed? && b.producers[t].owes
  }

  lemma OwingAddsUp(b: Binder)
    ensures |AllOwing(b)| == |Owing(b, Tier1)| + |Owing(b, Tier2)| + |Owing(b, Tier3)|
  {
    var one, two, three := Owing(b, Tier1), Owing(b, Tier2), Owing(b, Tier3);
    assert AllOwing(b) == one + two + three;
    DisjointSizes(one, two, three);
  }

  /** Drop accounting, under every interleaving and over all tiers: emitted events, with those
      pushed and not counted yet, were consumed, are in a ring, or are dropped, counted or not.
      Without the producers in between the equation holds exactly when each of them owes a drop,
      so in particular when there are none. */
  lemma DropsCounted(capacities: Tiers<nat>, steps: seq<Step>)
    requires Legal(Begin(capacities), steps)
    ensures var b := After(Begin(capacities), steps);
            var known := Known(b, Tier1) + Known(b, Tier2) + Known(b, Tier3);
            && b.emitted + |Between(b)| == known + |AllOwing(b)|
            && (b.emitted == known <==> Between(b) == AllOwing(b))
  {
    var b := After(Begin(capacities), steps);
    InHandBalance(capacities, steps);
    SubsetSame(AllOwing(b), Between(b));
  }

  lemma InHandBalance(capacities: Tiers<nat>, steps: seq<Step>)
    requires Legal(Begin(capacities), steps)
    ensures var b := After(Begin(capacities), steps);
            b.emitted + |Between(b)| == Known(b, Tier1) + Known(b, Tier2) + Known(b, Tier3) + |AllOwing(b)|
  {
    BeginBalanced(capacities);
    BalancedRun(Begin(capacities), steps);
    KnownAddsUp(After(Begin(capacities), steps));
  }

  lemma BeginTier(capacities: Tiers<nat>, tier: Tier)
    ensures Begin(capacities).histories.Of(tier) == EventRing.Begin(capacities.Of(tier))
    ensures TierBalanced(Begin(capacities), tier) && PushedIn(Begin(capacities), tier) == 0
  {
    assert Owing(Begin(capacities), tier) == {};
  }

  lemma BeginBalanced(capacities: Tiers<nat>)
    ensures Balanced(Begin(capacities))
  {
    BeginTier(capacities, Tier1);
    BeginTier(capacities, Tier2);
    BeginTier(capacities, Tier3);
    assert Between(Begin(capacities)) == {};
  }

  lemma KnownAddsUp(b: Binder)
    requires Balanced(b)
    ensures b.emitted + |Between(b)| == Known(b, Tier1) + Known(b, Tier2) + Known(b, Tier3) + |AllOwing(b)|
  {
    OwingAddsUp(b);
    TierAddsUp(b, Tier1);
    TierAddsUp(b, Tier2);
    TierAddsUp(b, Tier3);
  }

  lemma TierAddsUp(b: Binder, tier: Tier)
    requires TierBalanced(b, tier)
    ensures PushedIn(b, tier) == Known(b, tier) + |Owing(b, tier)|
  {
  }

  // ----- Order --------------------------------------------------------------------------

  /** The producers of a tier that have a number and have not pushed. */
  function Numbers(b: Binder, tier: Tier): set<Tid> {
    set t <- b.producers | b.producers[t].Numbered? && b.producers[t].tier == tier
  }

  /** In tier `tier` nobody takes a number while another producer has not pushed its own. */
  predicate Serial(b: Binder, steps: seq<Step>, tier: Tier)
    requires Legal(b, steps)
    decreases |steps|
  {
    steps == []
    || (&& (steps[0].Allocate? && steps[0].tier == tier ==> Numbers(b, tier) == {})
        && Serial(Apply(b, steps[0]), steps[1..], tier))
  }

  predicate Below(entries: seq<Entry>, bound: nat) {
    forall i :: 0 <= i < |entries| ==> entries[i].seqNo < bound
  }

  /** Numbers in the ring are increasing, and one not pushed yet is larger than all of them. */
  predicate Ordered(b: Binder, tier: Tier) {
    var pushed, next := b.histories.Of(tier).pushed, b.next.Of(tier);
    && Increasing(pushed) && Below(pushed, next + 1)
    && forall t <- Numbers(b, tier) ::
         Numbers(b, tier) == {t} && b.producers[t].seqNo == next && Below(pushed, next)
  }

  lemma NumbersStep(b: Binder, step: Step, tier: Tier)
    requires Enabled(b, step)
    ensures Numbers(Apply(b, step), tier) ==
              if step.Allocate? && step.tier == tier then Numbers(b, tier) + {step.t}
              else if step.Deliver? || step.GiveUp? then Numbers(b, tier) - {step.t}
              else Numbers(b, tier)
  {
  }

  lemma DeliverOrdered(b: Binder, t: Tid, bytes: string, tier: Tier)
    requires Ordered(b, tier) && Enabled(b, Deliver(t, bytes)) && b.producers[t].tier == tier
    ensures Ordered(Apply(b, Deliver(t, bytes)), tier)
  {
    NumbersStep(b, Deliver(t, bytes), tier);
    assert t in Numbers(b, tier);
    assert Apply(b, Deliver(t, bytes)).histories.Of(tier).pushed
        == b.histories.Of(tier).pushed + [Entry(b.producers[t].seqNo, bytes)];
  }

  lemma OrderedStep(b: Binder, step: Step, tier: Tier)
    requires Ordered(b, tier) && Enabled(b, step)
    requires step.Allocate? && step.tier == tier ==> Numbers(b, tier) == {}
    ensures Ordered(Apply(b, step), tier)
  {
    if step.Deliver? && b.producers[step.t].tier == tier {
      DeliverOrdered(b, step.t, step.bytes, tier);
    } else {
      NumbersStep(b, step, tier);
      assert Apply(b, step).histories.Of(tier).pushed == b.histories.Of(tier).pushed;
    }
  }

  /** With serial producers the order that replay relies on holds in every run. */
  lemma {:induction false} SerialIsIncreasing(b: Binder, steps: seq<Step>, tier: Tier)
    requires Ordered(b, tier) && Legal(b, steps) && Serial(b, steps, tier)
    ensures Increasing(After(b, steps).histories.Of(tier).pushed)
    decreases |steps|
  {
    if steps != [] {
      OrderedStep(b, steps[0], tier);
      SerialIsIncreasing(Apply(b, steps[0]), steps[1..], tier);
    }
  }

  /** So a replay that is found after serial producers is complete. */
  lemma SerialReplayComplete(capacities: Tiers<nat>, steps: seq<Step>, tier: Tier, since: nat)
    requires Legal(Begin(capacities), steps) && Serial(Begin(capacities), steps, tier) && 1 <= since < U64 - 1
    requires Replay(After(Begin(capacities), steps).histories.Of(tier).ring, since).found
    ensures var h := After(Begin(capacities), steps).histories.Of(tier);
            Replay(h.ring, since).entries == Newer(h.pushed, since)
  {
    SerialIsIncreasing(Begin(capacities), steps, tier);
    var ops := RingRun(Begin(capacities), steps, tier);
    ReplayComplete(capacities.Of(tier), ops, since);
  }

  /** A run that begins with `step`. */
  lemma First(b: Binder, step: Step, rest: seq<Step>)
    requires Enabled(b, step) && Legal(Apply(b, step), rest)
    ensures Legal(b, [step] + rest) && After(b, [step] + rest) == After(Apply(b, step), rest)
  {
    assert ([step] + rest)[1..] == rest;
  }

  /** The counters lag behind: an event that is pushed is not counted as emitted yet. */
  lemma CountersLag(capacities: Tiers<nat>, tier: Tier)
    ensures var steps := [Allocate(0, tier), Deliver(0, "")];
            && Legal(Begin(capacities), steps)
            && var b := After(Begin(capacities), steps);
               b.emitted != Known(b, Tier1) + Known(b, Tier2) + Known(b, Tier3)
  {
    var b0 := Begin(capacities);
    var b1 := Apply(b0, Allocate(0, tier));
    First(b1, Deliver(0, ""), []);
    First(b0, Allocate(0, tier), [Deliver(0, "")]);
    assert [Allocate(0, tier)] + [Deliver(0, "")] == [Allocate(0, tier), Deliver(0, "")];
    BeginTier(capacities, tier);
    HistoryStep(b0, Allocate(0, tier), tier);
    HistoryStep(b1, Deliver(0, ""), tier);
    assert Known(Apply(b1, Deliver(0, "")), tier) >= 1;
  }

  /** Two producers take the numbers 1 and 2; the second one pushes and is consumed first. */
  function Overtaking(tier: Tier): seq<Step> {
    [Allocate(0, tier), Allocate(1, tier), Deliver(1, ""), Consume(tier, 1), Deliver(0, "")]
  }

  /** What that does to the ring. */
  function Overtaken(capacity: nat): History {
    Do(Do(Do(EventRing.Begin(capacity), Add(Entry(2, ""))), Take(1)), Add(Entry(1, "")))
  }

  lemma NumbersTaken(capacities: Tiers<nat>, tier: Tier)
    ensures var b := Begin(capacities); Enabled(b, Allocate(0, tier))
    ensures var b := Apply(Begin(capacities), Allocate(0, tier)); Enabled(b, Allocate(1, tier))
    ensures var b := Apply(Apply(Begin(capacities), Allocate(0, tier)), Allocate(1, tier));
            && b.producers == map[0 := Numbered(tier, 1), 1 := Numbered(tier, 2)]
            && b.histories == Begin(capacities).histories
  {
  }

  lemma OvertakingRun(capacities: Tiers<nat>, tier: Tier)
    ensures Legal(Begin(capacities), Overtaking(tier))
    ensures After(Begin(capacities), Overtaking(tier)).histories.Of(tier) == Overtaken(capacities.Of(tier))
  {
    NumbersTaken(capacities, tier);
    var b1 := Apply(Begin(capacities), Allocate(0, tier));
    var b2 := Apply(b1, Allocate(1, tier));
    LateRun(b2, tier);
    First(b1, Allocate(1, tier), [Deliver(1, ""), Consume(tier, 1), Deliver(0, "")]);
    First(Begin(capacities), Allocate(0, tier), [Allocate(1, tier), Deliver(1, ""), Consume(tier, 1), Deliver(0, "")]);
    BeginTier(capacities, tier);
  }

  lemma LateRun(b: Binder, tier: Tier)
    requires b.producers == map[0 := Numbered(tier, 1), 1 := Numbered(tier, 2)]
    ensures var steps := [Deliver(1, ""), Consume(tier, 1), Deliver(0, "")];
            && Legal(b, steps)
            && After(b, steps).histories.Of(tier)
               == Do(Do(Do(b.histories.Of(tier), Add(Entry(2, ""))), Take(1)), Add(Entry(1, "")))
  {
    var b1 := Apply(b, Deliver(1, ""));
    var b2 := Apply(b1, Consume(tier, 1));
    First(b2, Deliver(0, ""), []);
    First(b1, Consume(tier, 1), [Deliver(0, "")]);
    First(b, Deliver(1, ""), [Consume(tier, 1), Deliver(0, "")]);
    HistoryStep(b, Deliver(1, ""), tier);
    HistoryStep(b1, Consume(tier, 1), tier);
    HistoryStep(b2, Deliver(0, ""), tier);
  }

  lemma OvertakenIs(capacity: nat)
    ensures Overtaken(capacity).ring.entries == [Entry(1, "")]
    ensures Overtaken(capacity).pushed == [Entry(2, "")] + [Entry(1, "")]
  {
    var h1 := Do(EventRing.Begin(capacity), Add(Entry(2, "")));
    assert h1.ring.entries == [Entry(2, "")] && h1.pushed == [Entry(2, "")];
    assert Do(h1, Take(1)).ring.entries == [];
  }

  /** At every capacity, two producers that overtake each other make a found replay incomplete. */
  lemma OvertakingLosesEvents(capacities: Tiers<nat>, tier: Tier)
    ensures Legal(Begin(capacities), Overtaking(tier))
    ensures var h := After(Begin(capacities), Overtaking(tier)).histories.Of(tier);
            Replay(h.ring, 1).found && Replay(h.ring, 1).entries != Newer(h.pushed, 1)
  {
    OvertakingRun(capacities, tier);
    var h := Overtaken(capacities.Of(tier));
    OvertakenIs(capacities.Of(tier));
    assert Replay(h.ring, 1).found;
    FoundHolds(h.ring, 1);
    NothingAdded([Entry(2, "")], [Entry(1, "")], 1);
    assert Entry(2, "") in [Entry(2, "")];
  }
}
