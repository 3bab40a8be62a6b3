/** What the threads of MediaBugManager achieve in a channel's section, in every run: what holds
    when they register, remove, start and stop, and what they leave behind. */
module BugSections {
  import opened Basics
  import opened Purposes
  import opened BugRegistry
  import opened BugProtocol
  import opened BugTheorems
  import BugProgress

  /** The registered bugs of a channel. */
  function Bugs(r: Registry, u: Uuid): map<BugId, BugRecord> {
    map id | id in r.byId && r.byId[id].channel == u :: r.byId[id]
  }

  lemma SameBugs(r: Registry, r': Registry, u: Uuid)
    requires Bugs(r', u) == Bugs(r, u)
    ensures HasInject(r, u) ==> HasInject(r', u)
    ensures HasWriteReplace(r', u) ==> HasWriteReplace(r, u)
  {
    if HasInject(r, u) {
      var id :| id in r.byId && On(r, u, id) && Injects(r.byId[id].purpose);
      assert id in Bugs(r', u) && On(r', u, id);
    }
    if HasWriteReplace(r', u) {
      var id :| id in r'.byId && On(r', u, id) && r'.byId[id].flags.writeReplace;
      assert id in Bugs(r, u) && On(r, u, id);
    }
  }

  // ----- The bugs of an occupied channel ------------------------------------------------

  lemma EraseElsewhere(s: System, o: Tid, u: Uuid)
    requires HoldsIssued(s) && Enabled(s, Erase(o)) && StageOk(s, s.At(o).u, s.At(o).stage) && s.At(o).u != u
    ensures Bugs(Erased(s, o).reg, u) == Bugs(s.reg, u)
  {
    RestDetachable(s, s.At(o).u, s.At(o).stage);
  }

  lemma RecordElsewhere(s: System, o: Tid, u: Uuid)
    requires Enabled(s, Record(o)) && StageOk(s, s.At(o).u, s.At(o).stage) && s.At(o).u != u
    requires s.At(o).stage.id !in s.reg.byId
    ensures Bugs(Recorded(s, o).reg, u) == Bugs(s.reg, u)
  {
  }

  lemma SameById(s: System, step: Step)
    requires Enabled(s, step) && !step.Record? && !step.Erase?
    ensures Apply(s, step).reg.byId == s.reg.byId
  {
    if !Loud(step) { QuietReg(s, step); }
  }

  lemma OtherIndex(s: System, step: Step, t: Tid)
    requires LocksOk(s) && IndexesOk(s) && ThreadsOk(s) && Enabled(s, step) && s.At(t).Inside? && !By(step, t)
    requires step.Record? || step.Erase?
    ensures Bugs(Apply(s, step).reg, s.At(t).u) == Bugs(s.reg, s.At(t).u)
  {
    assert ThreadOk(s, s.threads[step.t]);
    OneInside(s, t, step.t);
    if step.Erase? {
      EraseElsewhere(s, step.t, s.At(t).u);
    } else {
      RecordElsewhere(s, step.t, s.At(t).u);
    }
  }

  /** While a thread is in the section, only its own steps change the channel's bugs. */
  lemma OtherBugs(s: System, step: Step, t: Tid)
    requires LocksOk(s) && IndexesOk(s) && ThreadsOk(s) && Enabled(s, step) && s.At(t).Inside? && !By(step, t)
    ensures Bugs(Apply(s, step).reg, s.At(t).u) == Bugs(s.reg, s.At(t).u)
  {
    if step.Record? || step.Erase? { OtherIndex(s, step, t); } else { SameById(s, step); }
  }

  // ----- What a thread knows about its channel ------------------------------------------

  /** A bug being attached is younger than all bugs of its channel, and a relay has an inject bug
      there; a driver being stopped has no WRITE_REPLACE bug left. */
  predicate Knows(r: Registry, u: Uuid, stage: Stage) {
    match stage
    case CallAdd(id, bug) => Youngest(r, u, id) && (bug.purpose == RecordingRelay ==> HasInject(r, u))
    case Commit(id, bug) => Youngest(r, u, id) && (bug.purpose == RecordingRelay ==> HasInject(r, u))
    case CallRemove(_, _, stop, _) => stop ==> !HasWriteReplace(r, u)
    case StopDriver(_) => !HasWriteReplace(r, u)
    case _ => true
  }

  predicate Youngest(r: Registry, u: Uuid, id: BugId) {
    forall x <- Bugs(r, u) :: x < id
  }

  predicate ThreadKnows(s: System, t: Tid) {
    s.At(t).Inside? ==> Knows(s.reg, s.At(t).u, s.At(t).stage)
  }

  predicate AllKnow(s: System) {
    forall t <- s.threads :: ThreadKnows(s, t)
  }

  lemma KnowsKept(r: Registry, r': Registry, u: Uuid, stage: Stage)
    requires Knows(r, u, stage) && Bugs(r', u) == Bugs(r, u)
    ensures Knows(r', u, stage)
  {
    SameBugs(r, r', u);
  }

  lemma CheckedKnows(s: System, t: Tid)
    requires IndexesOk(s) && Enabled(s, Check(t))
    ensures ThreadKnows(Checked(s, t), t)
  {
    var s', u := Checked(s, t), s.At(t).u;
    if s'.At(t).stage.CallAdd? {
      assert Bugs(s'.reg, u) == Bugs(s.reg, u);
      SameBugs(s.reg, s'.reg, u);
    }
  }

  lemma ErasedKnows(s: System, t: Tid)
    requires HoldsIssued(s) && Enabled(s, Erase(t)) && StageOk(s, s.At(t).u, s.At(t).stage)
    ensures ThreadKnows(Erased(s, t), t)
  {
    RestDetachable(s, s.At(t).u, s.At(t).stage);
  }

  lemma LoudKnows(s: System, step: Step)
    requires IndexesOk(s) && ThreadsOk(s) && AllKnow(s) && Enabled(s, step) && Loud(step)
    ensures ThreadKnows(Apply(s, step), step.t)
  {
    assert ThreadOk(s, s.threads[step.t]) && ThreadKnows(s, step.t);
    match step
    case Check(t) => CheckedKnows(s, t);
    case Erase(t) => ErasedKnows(s, t);
    case Add(t, ok) => assert Added(s, t, ok).reg == s.reg;
    case Remove(t) => assert Removed(s, t).reg == s.reg;
    case Record(t) => assert Recorded(s, t).At(t).stage.StartDriver? || Recorded(s, t).At(t).stage.Leave?;
  }

  /** The other steps lead to stages that rely on nothing. */
  lemma QuietKnows(s: System, step: Step, t: Tid)
    requires Enabled(s, step) && !Loud(step) && By(step, t)
    ensures ThreadKnows(Apply(s, step), t)
  {
  }

  lemma KnowsStep(s: System, step: Step)
    requires Inv(s) && AllKnow(s) && Enabled(s, step)
    ensures AllKnow(Apply(s, step))
  {
    forall t | t in Apply(s, step).threads
      ensures ThreadKnows(Apply(s, step), t)
    {
      if !By(step, t) {
        SameThread(s, step, t);
        if s.At(t).Inside? {
          assert ThreadKnows(s, t);
          OtherBugs(s, step, t);
          KnowsKept(s.reg, Apply(s, step).reg, s.At(t).u, s.At(t).stage);
        }
      } else if Loud(step) {
        LoudKnows(s, step);
      } else {
        QuietKnows(s, step, t);
      }
    }
  }

  lemma {:induction false} KnowsRun(s: System, steps: seq<Step>)
    requires Inv(s) && AllKnow(s) && Legal(s, steps)
    ensures Inv(After(s, steps)) && AllKnow(After(s, steps))
    decreases |steps|
  {
    if steps != [] {
      InvStep(s, steps[0]);
      KnowsStep(s, steps[0]);
      KnowsRun(Apply(s, steps[0]), steps[1..]);
    }
  }

  lemma Known(cap: nat, steps: seq<Step>, t: Tid)
    requires Legal(Start(cap), steps)
    ensures Inv(After(Start(cap), steps)) && AllKnow(After(Start(cap), steps))
    ensures ThreadKnows(After(Start(cap), steps), t)
  {
    StartOk(cap);
    KnowsRun(Start(cap), steps);
    if t in After(Start(cap), steps).threads { assert ThreadKnows(After(Start(cap), steps), t); }
  }

  // ----- Recording relays ---------------------------------------------------------------

  /** In every run, the check of a relay lets it through exactly when the channel has an inject
      bug registered, and otherwise issues no id. */
  lemma RelayChecked(cap: nat, steps: seq<Step>, t: Tid)
    requires Legal(Start(cap), steps) && Enabled(After(Start(cap), steps), Check(t))
    requires After(Start(cap), steps).At(t).stage.job.cfg.purpose == RecordingRelay
    ensures var s := After(Start(cap), steps); var s' := Apply(s, Check(t));
            && (s'.At(t).stage.CallAdd? <==> InjectPresent(s.reg.byId, s.At(t).u))
            && (s'.At(t).stage.CallAdd? || (s'.At(t).stage.Leave? && s'.issued == s.issued && s'.reg == s.reg))
  {
    var s := After(Start(cap), steps);
    VerdictExact(s.reg, s.At(t).u, s.At(t).stage.job.cfg);
  }

  /** And it is still so when the relay is registered, after FreeSWITCH has accepted it. */
  lemma RelayRegistered(cap: nat, steps: seq<Step>, t: Tid)
    requires Legal(Start(cap), steps) && Enabled(After(Start(cap), steps), Record(t))
    requires After(Start(cap), steps).At(t).stage.bug.purpose == RecordingRelay
    ensures InjectPresent(After(Start(cap), steps).reg.byId, After(Start(cap), steps).At(t).u)
  {
    var s := After(Start(cap), steps);
    Known(cap, steps, t);
    InjectScan(s.reg, s.At(t).u);
  }

  // ----- Order of the lists -------------------------------------------------------------

  predicate Ascending(ids: seq<BugId>) {
    forall i, j :: 0 <= i < j < |ids| ==> ids[i] < ids[j]
  }

  predicate ListsAscend(r: Registry) {
    forall u <- r.byChannel :: Ascending(r.byChannel[u])
  }

  lemma JoinAscending(a: seq<BugId>, b: seq<BugId>)
    requires Ascending(a) && Ascending(b) && forall x, y :: x in a && y in b ==> x < y
    ensures Ascending(a + b)
  {
    forall i, j | 0 <= i < |a| && 0 <= j < |b|
      ensures a[i] < b[j]
    {
      assert a[i] in a && b[j] in b;
    }
  }

  lemma {:induction false} WithoutAscending(ids: seq<BugId>, id: BugId)
    requires Ascending(ids)
    ensures Ascending(Without(ids, id))
  {
    if ids != [] {
      assert forall x :: x in ids[1..] ==> ids[0] < x;
      WithoutAscending(ids[1..], id);
      JoinAscending([ids[0]], Without(ids[1..], id));
    }
  }

  lemma RegisterAscends(r: Registry, id: BugId, bug: BugRecord)
    requires Consistent(r) && ListsAscend(r) && Youngest(r, bug.channel, id)
    ensures ListsAscend(Register(r, id, bug))
  {
    var ids := ListFor(r, bug.channel);
    forall x | x in ids
      ensures x < id
    {
      assert On(r, bug.channel, x);
      assert x in Bugs(r, bug.channel);
    }
    JoinAscending(ids, [id]);
  }

  lemma UnregisterAscends(r: Registry, id: BugId)
    requires ListsAscend(r) && id in r.byId
    ensures ListsAscend(Unregister(r, id))
  {
    var u := r.byId[id].channel;
    if u in r.byChannel { WithoutAscending(r.byChannel[u], id); }
  }

  lemma LoudAscend(s: System, step: Step)
    requires IndexesOk(s) && ThreadsOk(s) && AllKnow(s) && ListsAscend(s.reg) && Enabled(s, step)
    requires step.Record? || step.Erase?
    ensures ListsAscend(Apply(s, step).reg)
  {
    var th := s.At(step.t);
    assert ThreadOk(s, s.threads[step.t]) && ThreadKnows(s, step.t);
    if step.Record? {
      RegisterAscends(s.reg, th.stage.id, th.stage.bug);
    } else if Target(th.stage) in s.reg.byId {
      UnregisterAscends(s.reg, Target(th.stage));
    }
  }

  lemma AscendStep(s: System, step: Step)
    requires IndexesOk(s) && ThreadsOk(s) && AllKnow(s) && ListsAscend(s.reg) && Enabled(s, step)
    ensures ListsAscend(Apply(s, step).reg)
  {
    if step.Record? || step.Erase? { LoudAscend(s, step); } else { BugProgress.SameLists(s, step); }
  }

  lemma {:induction false} AscendRun(s: System, steps: seq<Step>)
    requires Inv(s) && AllKnow(s) && ListsAscend(s.reg) && Legal(s, steps)
    ensures ListsAscend(After(s, steps).reg)
    decreases |steps|
  {
    if steps != [] {
      AscendStep(s, steps[0]);
      InvStep(s, steps[0]);
      KnowsStep(s, steps[0]);
      AscendRun(Apply(s, steps[0]), steps[1..]);
    }
  }

  /** In every run, the list of a channel is in the order in which its bugs were attached. */
  lemma ListsInAttachOrder(cap: nat, steps: seq<Step>, u: Uuid)
    requires Legal(Start(cap), steps)
    ensures Ascending(ListFor(After(Start(cap), steps).reg, u))
  {
    StartOk(cap);
    AscendRun(Start(cap), steps);
  }

  // ----- What a detach leaves behind ----------------------------------------------------

  /** A thread that sweeps its channel: what is still registered is still on its list. */
  predicate Sweeping(s: System, t: Tid, u: Uuid) {
    && s.At(t).Inside? && s.At(t).u == u
    && match s.At(t).stage
       case Ready(job) => job.DetachAll?
       case Sweep(rest) => Covered(s.reg, u, rest)
       case CallRemove(_, _, _, rest) => Covered(s.reg, u, rest)
       case StopDriver(rest) => Covered(s.reg, u, rest)
       case Leave => Covered(s.reg, u, [])
       case _ => false
  }

  predicate Covered(r: Registry, u: Uuid, rest: seq<BugId>) {
    forall id <- Bugs(r, u) :: id in rest
  }

  lemma ListSweeps(s: System, t: Tid)
    requires IndexesOk(s) && Enabled(s, ListBugs(t))
    ensures Sweeping(Apply(s, ListBugs(t)), t, s.At(t).u)
  {
    var u, list := s.At(t).u, ListFor(s.reg, s.At(t).u);
    forall id | id in Bugs(s.reg, u)
      ensures id in list
    {
      assert Listed(s.reg, id);
    }
  }

  lemma EraseSweeps(s: System, t: Tid)
    requires HoldsIssued(s) && Enabled(s, Erase(t)) && Sweeping(s, t, s.At(t).u)
    ensures Sweeping(Erased(s, t), t, s.At(t).u)
  {
    var u, rest := s.At(t).u, s.At(t).stage.rest;
    forall id | id in Bugs(Erased(s, t).reg, u)
      ensures id in rest[1..]
    {
      assert id in Bugs(s.reg, u) && id != rest[0];
    }
  }

  lemma OwnSweep(s: System, step: Step, t: Tid, u: Uuid)
    requires IndexesOk(s) && Enabled(s, step) && By(step, t) && !step.Unlock? && Sweeping(s, t, u)
    ensures Sweeping(Apply(s, step), t, u)
  {
    match step
    case ListBugs(_) => ListSweeps(s, t);
    case Erase(_) => EraseSweeps(s, t);
    case Remove(_) => RemoveSweeps(s, t, u);
    case Unsilence(_) => QuietReg(s, step);
  }

  lemma RemoveSweeps(s: System, t: Tid, u: Uuid)
    requires Enabled(s, Remove(t)) && Sweeping(s, t, u)
    ensures Sweeping(Removed(s, t), t, u)
  {
  }

  lemma SweepStep(s: System, step: Step, t: Tid, u: Uuid)
    requires Inv(s) && Enabled(s, step) && Sweeping(s, t, u) && !(By(step, t) && step.Unlock?)
    ensures Sweeping(Apply(s, step), t, u)
  {
    if By(step, t) {
      OwnSweep(s, step, t, u);
    } else {
      SameThread(s, step, t);
      OtherBugs(s, step, t);
    }
  }

  lemma {:induction false} SweepRun(s: System, steps: seq<Step>, t: Tid, u: Uuid)
    requires Inv(s) && Legal(s, steps) && Sweeping(s, t, u)
    requires forall i :: 0 <= i < |steps| ==> !(By(steps[i], t) && steps[i].Unlock?)
    ensures Inv(After(s, steps)) && Sweeping(After(s, steps), t, u)
    decreases |steps|
  {
    if steps != [] {
      SweepStep(s, steps[0], t, u);
      InvStep(s, steps[0]);
      SweepRun(Apply(s, steps[0]), steps[1..], t, u);
    }
  }

  /** DetachAll, in every run: when a thread that began it is about to leave the section, no bug of
      the channel is registered and the channel has no list. */
  lemma DetachAllClears(cap: nat, pre: seq<Step>, mid: seq<Step>, t: Tid)
    requires Legal(Start(cap), pre) && Enabled(After(Start(cap), pre), ListBugs(t))
    requires Legal(After(Start(cap), pre), mid)
    requires forall i :: 0 <= i < |mid| ==> !(By(mid[i], t) && mid[i].Unlock?)
    requires var th := After(After(Start(cap), pre), mid).At(t); th.Inside? && th.stage.Leave?
    ensures var s := After(After(Start(cap), pre), mid);
            Bugs(s.reg, s.At(t).u) == map[] && s.At(t).u !in s.reg.byChannel
  {
    var before := After(Start(cap), pre);
    StartOk(cap);
    InvRun(Start(cap), pre);
    SweepRun(before, mid, t, before.At(t).u);
    NothingListed(After(before, mid).reg, before.At(t).u);
  }

  lemma SomeListed(r: Registry, u: Uuid)
    requires Consistent(r)
    ensures u in r.byChannel ==> exists id :: id in Bugs(r, u)
  {
    if u in r.byChannel {
      var id := r.byChannel[u][0];
      assert On(r, u, id);
      assert id in Bugs(r, u);
    }
  }

  lemma NothingListed(r: Registry, u: Uuid)
    requires Consistent(r) && Covered(r, u, [])
    ensures Bugs(r, u) == map[] && u !in r.byChannel
  {
    SomeListed(r, u);
  }

  /** A bug that was registered and is not any more stays out, of the indexes and of the chain. */
  predicate Out(s: System, id: BugId) {
    id in s.registered && id !in s.reg.byId
  }

  lemma OutStep(s: System, step: Step, id: BugId)
    requires ThreadsOk(s) && Enabled(s, step) && Out(s, id)
    ensures Out(Apply(s, step), id)
  {
    if Loud(step) {
      assert ThreadOk(s, s.threads[step.t]);
    } else {
      QuietReg(s, step);
    }
  }

  lemma {:induction false} OutRun(s: System, steps: seq<Step>, id: BugId)
    requires Inv(s) && Legal(s, steps) && Out(s, id)
    ensures Out(After(s, steps), id)
    decreases |steps|
  {
    if steps != [] {
      OutStep(s, steps[0], id);
      InvStep(s, steps[0]);
      OutRun(Apply(s, steps[0]), steps[1..], id);
    }
  }

  /** Once a detach has been through its critical section, its bug is in no later state
      registered again. */
  lemma DetachedForGood(cap: nat, pre: seq<Step>, t: Tid, later: seq<Step>)
    requires Legal(Start(cap), pre) && Enabled(After(Start(cap), pre), Erase(t))
    requires Legal(Apply(After(Start(cap), pre), Erase(t)), later)
    ensures var s := After(Start(cap), pre);
            Target(s.At(t).stage) !in After(Apply(s, Erase(t)), later).reg.byId
  {
    var s := After(Start(cap), pre);
    StartOk(cap);
    InvRun(Start(cap), pre);
    InvStep(s, Erase(t));
    assert ThreadOk(s, s.threads[t]);
    RestDetachable(s, s.At(t).u, s.At(t).stage);
    OutRun(Erased(s, t), later, Target(s.At(t).stage));
  }

  /** The thread has found the bug and not yet been through the critical section for it. */
  predicate Detaching(th: Thread, id: BugId) {
    || (th.Located? && th.id == id)
    || (th.Waiting? && th.job.Detach? && th.job.id == id)
    || (th.Inside? && th.stage.Ready? && th.stage.job.Detach? && th.stage.job.id == id)
  }

  lemma OwnDetach(s: System, step: Step, t: Tid, id: BugId)
    requires Inv(s) && Enabled(s, step) && By(step, t) && Detaching(s.At(t), id)
    ensures Detaching(Apply(s, step).At(t), id) || Out(Apply(s, step), id)
  {
    assert ThreadOk(s, s.threads[t]);
  }

  lemma DetachStep(s: System, step: Step, t: Tid, id: BugId)
    requires Inv(s) && Enabled(s, step) && (Detaching(s.At(t), id) || Out(s, id))
    ensures Detaching(Apply(s, step).At(t), id) || Out(Apply(s, step), id)
  {
    if Out(s, id) {
      OutStep(s, step, id);
    } else if By(step, t) {
      OwnDetach(s, step, t, id);
    } else {
      SameThread(s, step, t);
    }
  }

  lemma {:induction false} DetachRun(s: System, steps: seq<Step>, t: Tid, id: BugId)
    requires Inv(s) && Legal(s, steps) && (Detaching(s.At(t), id) || Out(s, id))
    ensures Inv(After(s, steps)) && (Detaching(After(s, steps).At(t), id) || Out(After(s, steps), id))
    decreases |steps|
  {
    if steps != [] {
      DetachStep(s, steps[0], t, id);
      InvStep(s, steps[0]);
      DetachRun(Apply(s, steps[0]), steps[1..], t, id);
    }
  }

  predicate NobodyInside(s: System, u: Uuid) {
    forall o <- s.threads :: s.threads[o].Inside? ==> s.threads[o].u != u
  }

  /** A chain holds only registered bugs while no thread is inside the channel's section. */
  lemma OutOfChain(s: System, u: Uuid, id: BugId)
    requires ChainsOk(s) && NobodyInside(s, u) && id !in s.reg.byId
    ensures id !in s.Chain(u)
  {
    assert forall o <- s.threads :: !Keeps(s.threads[o], u, id);
  }

  lemma LocateStarts(s: System, t: Tid, id: BugId, callRemove: bool)
    requires Inv(s) && Enabled(s, Locate(t, id, callRemove)) && id in s.reg.byId
    ensures var after := Apply(s, Locate(t, id, callRemove)); Inv(after) && Detaching(after.At(t), id)
  {
    InvStep(s, Locate(t, id, callRemove));
  }

  lemma DetachEnds(s: System, steps: seq<Step>, t: Tid, u: Uuid, id: BugId)
    requires Inv(s) && Legal(s, steps) && Detaching(s.At(t), id) && After(s, steps).At(t).Idle?
    ensures id !in After(s, steps).reg.byId
    ensures NobodyInside(After(s, steps), u) ==> id !in After(s, steps).Chain(u)
  {
    DetachRun(s, steps, t, id);
    if NobodyInside(After(s, steps), u) { OutOfChain(After(s, steps), u, id); }
  }

  /** Detach does what it is for, in every run: once the thread that looked up a registered bug is
      done with it, the bug is not registered, whatever other threads did in the meantime. If no
      thread is inside the channel's section then, it is not in the chain either. */
  lemma DetachCompletes(cap: nat, pre: seq<Step>, t: Tid, id: BugId, callRemove: bool, mid: seq<Step>)
    requires Legal(Start(cap), pre) && Enabled(After(Start(cap), pre), Locate(t, id, callRemove))
    requires id in After(Start(cap), pre).reg.byId
    requires var located := Apply(After(Start(cap), pre), Locate(t, id, callRemove));
             Legal(located, mid) && After(located, mid).At(t).Idle?
    ensures var before := After(Start(cap), pre);
            var s := After(Apply(before, Locate(t, id, callRemove)), mid); var u := before.reg.byId[id].channel;
            id !in s.reg.byId && (NobodyInside(s, u) ==> id !in s.Chain(u))
  {
    var before := After(Start(cap), pre);
    StartOk(cap);
    InvRun(Start(cap), pre);
    LocateStarts(before, t, id, callRemove);
    DetachEnds(Apply(before, Locate(t, id, callRemove)), mid, t, before.reg.byId[id].channel, id);
  }

  // ----- Silence drivers ----------------------------------------------------------------

  /** A driver is stopped for want of bugs only when its channel has no WRITE_REPLACE bug. */
  lemma DriverStopsUnneeded(cap: nat, steps: seq<Step>, t: Tid)
    requires Legal(Start(cap), steps) && Enabled(After(Start(cap), steps), Unsilence(t))
    ensures var s := After(Start(cap), steps);
            forall id <- s.reg.byId :: s.reg.byId[id].channel == s.At(t).u ==> !s.reg.byId[id].flags.writeReplace
  {
    var s := After(Start(cap), steps);
    Known(cap, steps, t);
    forall id | id in s.reg.byId && s.reg.byId[id].channel == s.At(t).u
      ensures !s.reg.byId[id].flags.writeReplace
    {
      assert On(s.reg, s.At(t).u, id);
    }
  }

  /** The driver is allowed to start: the session is free for it and the cap is not reached; and
      nobody outside the manager takes drivers away. */
  predicate Willing(s: System, step: Step)
    requires Enabled(s, step)
  {
    && !ByRegistry(step)
    && (step.Silence? ==> step.ok && (s.At(step.t).u in s.drivers || |s.drivers| < s.cap))
  }

  predicate AlwaysWilling(s: System, steps: seq<Step>)
    requires Legal(s, steps)
    decreases |steps|
  {
    steps == [] || (Willing(s, steps[0]) && AlwaysWilling(Apply(s, steps[0]), steps[1..]))
  }

  predicate Starting(th: Thread, u: Uuid) {
    th.Inside? && th.u == u && th.stage.StartDriver?
  }

  /** A channel with a WRITE_REPLACE bug has its driver, or a thread about to start it. */
  predicate Driven(s: System, u: Uuid) {
    HasWriteReplace(s.reg, u) ==> u in s.drivers || exists t <- s.threads :: Starting(s.threads[t], u)
  }

  lemma SameWriteReplace(r: Registry, r': Registry, u: Uuid)
    requires HasWriteReplace(r', u) && r'.byId == r.byId
    ensures HasWriteReplace(r, u)
  {
    var id :| id in r'.byId && On(r', u, id) && r'.byId[id].flags.writeReplace;
    assert On(r, u, id);
  }

  lemma FewerWriteReplace(r: Registry, target: BugId, u: Uuid)
    requires target in r.byId && HasWriteReplace(Unregister(r, target), u)
    ensures HasWriteReplace(r, u)
  {
    var r' := Unregister(r, target);
    var id :| id in r'.byId && On(r', u, id) && r'.byId[id].flags.writeReplace;
    assert On(r, u, id);
  }

  lemma OneWriteReplace(r: Registry, id: BugId, bug: BugRecord, u: Uuid)
    requires id !in r.byId && HasWriteReplace(Register(r, id, bug), u)
    ensures HasWriteReplace(r, u) || (bug.channel == u && bug.flags.writeReplace)
  {
    var r' := Register(r, id, bug);
    var x :| x in r'.byId && On(r', u, x) && r'.byId[x].flags.writeReplace;
    if x != id { assert On(r, u, x); }
  }

  /** No step makes a WRITE_REPLACE bug appear but the Record of one. */
  lemma WriteReplaceBefore(s: System, step: Step, u: Uuid)
    requires IndexesOk(s) && ThreadsOk(s) && Enabled(s, step) && HasWriteReplace(Apply(s, step).reg, u)
    ensures HasWriteReplace(s.reg, u) || (step.Record? && Starting(Apply(s, step).At(step.t), u))
  {
    if step.Record? {
      assert ThreadOk(s, s.threads[step.t]);
      OneWriteReplace(s.reg, s.At(step.t).stage.id, s.At(step.t).stage.bug, u);
    } else if step.Erase? {
      if Target(s.At(step.t).stage) in s.reg.byId { FewerWriteReplace(s.reg, Target(s.At(step.t).stage), u); }
    } else {
      SameById(s, step);
      SameWriteReplace(s.reg, Apply(s, step).reg, u);
    }
  }

  /** A driver is lost only to Unsilence, and a thread about to start one does start it. */
  lemma DriverAfter(s: System, step: Step, u: Uuid)
    requires Enabled(s, step) && Willing(s, step)
    ensures u in s.drivers && !(step.Unsilence? && s.At(step.t).u == u) ==> u in Apply(s, step).drivers
    ensures step.Silence? && s.At(step.t).u == u ==> u in Apply(s, step).drivers
  {
  }

  lemma StartingStays(s: System, step: Step, t: Tid, u: Uuid)
    requires Enabled(s, step) && t in s.threads && Starting(s.threads[t], u)
    ensures (By(step, t) && step.Silence?) || (t in Apply(s, step).threads && Starting(Apply(s, step).threads[t], u))
  {
    if !By(step, t) { SameThread(s, step, t); }
  }

  lemma DrivenStep(s: System, step: Step, u: Uuid)
    requires Inv(s) && AllKnow(s) && Enabled(s, step) && Willing(s, step) && Driven(s, u)
    ensures Driven(Apply(s, step), u)
  {
    var s' := Apply(s, step);
    if HasWriteReplace(s'.reg, u) {
      WriteReplaceBefore(s, step, u);
      DriverAfter(s, step, u);
      if step.Record? && Starting(s'.At(step.t), u) {
        assert step.t in s'.threads;
      } else if u in s.drivers {
        if step.Unsilence? {
          assert ThreadKnows(s, step.t);
          QuietReg(s, step);
        }
      } else {
        var t :| t in s.threads && Starting(s.threads[t], u);
        StartingStays(s, step, t, u);
      }
    }
  }

  lemma {:induction false} DrivenRun(s: System, steps: seq<Step>, u: Uuid)
    requires Inv(s) && AllKnow(s) && Legal(s, steps) && AlwaysWilling(s, steps) && Driven(s, u)
    ensures Driven(After(s, steps), u)
    decreases |steps|
  {
    if steps != [] {
      DrivenStep(s, steps[0], u);
      InvStep(s, steps[0]);
      KnowsStep(s, steps[0]);
      DrivenRun(Apply(s, steps[0]), steps[1..], u);
    }
  }

  /** Drivers, exactly: in every run in which drivers are allowed to start, whenever no thread is
      in a channel's section, a driver runs there if and only if a WRITE_REPLACE bug is registered. */
  lemma DriverRunsIff(cap: nat, steps: seq<Step>, u: Uuid)
    requires Legal(Start(cap), steps) && AlwaysWilling(Start(cap), steps)
    requires var s := After(Start(cap), steps); forall t <- s.threads :: s.threads[t].Inside? ==> s.threads[t].u != u
    ensures u in After(Start(cap), steps).drivers <==> HasWriteReplace(After(Start(cap), steps).reg, u)
  {
    StartOk(cap);
    DriverNeedsWriteReplace(cap, steps, u);
    DrivenRun(Start(cap), steps, u);
  }

  // ----- Locks --------------------------------------------------------------------------

  /** A thread that will prune the entry of `u` once it is done. */
  predicate WillPrune(th: Thread, u: Uuid) {
    (th.Refers() || th.Released?) && th.u == u
  }

  predicate LocksInUse(s: System) {
    forall u <- s.table.locks :: exists t <- s.threads :: WillPrune(s.threads[t], u)
  }

  /** A step of `t` that keeps the entry `u` and does not take `t` away from it. */
  lemma EntryKept(s: System, s': System, t: Tid, u: Uuid)
    requires LocksInUse(s) && u in s.table.locks && t in s'.threads && s'.threads == s.threads[t := s'.threads[t]]
    requires WillPrune(s.At(t), u) ==> WillPrune(s'.threads[t], u)
    ensures exists o <- s'.threads :: WillPrune(s'.threads[o], u)
  {
    var o :| o in s.threads && WillPrune(s.threads[o], u);
    assert o in s'.threads;
  }

  /** A mutex some thread refers to keeps its entry in use. */
  lemma LiveInUse(s: System, u: Uuid) returns (o: Tid)
    requires LocksOk(s) && u in s.table.locks && s.table.locks[u] in s.Live()
    ensures o in s.threads && s.threads[o].Refers() && s.threads[o].u == u
  {
    o :| o in s.threads && s.threads[o].Refers() && s.threads[o].m == s.table.locks[u];
    assert s.table.locks[s.threads[o].u] == s.table.locks[u];
  }

  lemma PruneInUse(s: System, t: Tid)
    requires LocksOk(s) && LocksInUse(s) && Enabled(s, Prune(t))
    ensures LocksInUse(Apply(s, Prune(t)))
  {
    var s', u := Apply(s, Prune(t)), s.At(t).u;
    forall v | v in s'.table.locks
      ensures exists o <- s'.threads :: WillPrune(s'.threads[o], v)
    {
      if v == u {
        var o := LiveInUse(s, u);
        assert o in s'.threads && WillPrune(s'.threads[o], u);
      } else {
        EntryKept(s, s', t, v);
      }
    }
  }

  lemma QueueInUse(s: System, t: Tid, u: Uuid, job: Job)
    requires LocksInUse(s) && !s.At(t).Refers() && !s.At(t).Released?
    ensures LocksInUse(Queue(s, t, u, job))
  {
    var s' := Queue(s, t, u, job);
    forall v | v in s'.table.locks
      ensures exists o <- s'.threads :: WillPrune(s'.threads[o], v)
    {
      if v == u { assert WillPrune(s'.threads[t], u); } else { EntryKept(s, s', t, v); }
    }
  }

  lemma SameTableInUse(s: System, s': System, t: Tid)
    requires LocksInUse(s) && s'.table == s.table && t in s'.threads && s'.threads == s.threads[t := s'.threads[t]]
    requires forall u :: WillPrune(s.At(t), u) ==> WillPrune(s'.threads[t], u)
    ensures LocksInUse(s')
  {
    forall u | u in s'.table.locks
      ensures exists o <- s'.threads :: WillPrune(s'.threads[o], u)
    {
      EntryKept(s, s', t, u);
    }
  }

  lemma BeginInUse(s: System, step: Step)
    requires LocksInUse(s) && Enabled(s, step) && (step.BeginAttach? || step.BeginDetach? || step.BeginDetachAll?)
    ensures LocksInUse(Apply(s, step))
  {
    match step
    case BeginAttach(t, u, cfg) => QueueInUse(s, t, u, Attach(cfg));
    case BeginDetach(t) => QueueInUse(s, t, s.At(t).u, Detach(s.At(t).id, s.At(t).callRemove));
    case BeginDetachAll(t, u) => QueueInUse(s, t, u, DetachAll);
  }

  lemma MoveInUse(s: System, step: Step)
    requires LocksInUse(s) && Enabled(s, step) && (step.Acquire? || step.Unlock? || step.Drop? || step.Locate?)
    ensures LocksInUse(Apply(s, step))
  {
    if Apply(s, step) != s { SameTableInUse(s, Apply(s, step), step.t); }
  }

  lemma InUseStep(s: System, step: Step)
    requires LocksOk(s) && LocksInUse(s) && Enabled(s, step)
    ensures LocksInUse(Apply(s, step))
  {
    if step.BeginAttach? || step.BeginDetach? || step.BeginDetachAll? {
      BeginInUse(s, step);
    } else if step.Acquire? || step.Unlock? || step.Drop? || step.Locate? {
      MoveInUse(s, step);
    } else if step.Prune? {
      PruneInUse(s, step.t);
    } else {
      OtherInUse(s, step);
    }
  }

  lemma OtherInUse(s: System, step: Step)
    requires LocksInUse(s) && Enabled(s, step) && (ByFreeSwitch(step) || ByRegistry(step) || Loud(step)
      || step.Silence? || step.ListBugs? || step.Unsilence?)
    ensures LocksInUse(Apply(s, step))
  {
    if !ByFreeSwitch(step) && !ByRegistry(step) {
      InsideSteps(s, step);
      SameTableInUse(s, Apply(s, step), step.t);
    }
  }

  lemma {:induction false} InUseRun(s: System, steps: seq<Step>)
    requires Inv(s) && LocksInUse(s) && Legal(s, steps)
    ensures LocksInUse(After(s, steps))
    decreases |steps|
  {
    if steps != [] {
      InUseStep(s, steps[0]);
      InvStep(s, steps[0]);
      InUseRun(Apply(s, steps[0]), steps[1..]);
    }
  }

  /** The lock table does not grow for ever: in every run, an entry has a thread that will prune
      it, so when all threads are done the table is empty. */
  lemma NoLockLeft(cap: nat, steps: seq<Step>, u: Uuid)
    requires Legal(Start(cap), steps)
    ensures var s := After(Start(cap), steps);
            u in s.table.locks ==> exists t <- s.threads :: WillPrune(s.threads[t], u)
  {
    StartOk(cap);
    InUseRun(Start(cap), steps);
  }
}
