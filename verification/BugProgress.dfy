/** The lock discipline of MediaBugManager does not block: no thread is stuck, and no thread stays
    in a channel's section. */
module BugProgress {
  import opened BugRegistry
  import opened BugProtocol
  import opened BugTheorems

  /** The next step of a thread that is not waiting for a mutex. */
  function Next(s: System, t: Tid): Step
    requires !s.At(t).Idle? && !s.At(t).Waiting?
  {
    match s.At(t)
    case Located(_, _, _) => BeginDetach(t)
    case Unlocked(_, _) => Drop(t)
    case Released(_) => Prune(t)
    case Inside(_, _, stage) =>
      match stage {
        case Ready(job) => if job.Attach? then Check(t) else if job.Detach? then Erase(t) else ListBugs(t)
        case CallAdd(_, _) => Add(t, false)
        case Commit(_, _) => Record(t)
        case StartDriver => Silence(t, true)
        case Sweep(_) => Erase(t)
        case CallRemove(_, _, _, _) => Remove(t)
        case StopDriver(_) => Unsilence(t)
        case Leave => Unlock(t)
      }
  }

  lemma NextEnabled(s: System, t: Tid)
    requires ThreadsOk(s) && !s.At(t).Idle? && !s.At(t).Waiting?
    ensures Enabled(s, Next(s, t))
  {
    assert ThreadOk(s, s.threads[t]);
  }

  /** No deadlock among the locks, in every reachable state: a thread that has work to do has a
      step, unless it waits for its channel's mutex; then either it can take the mutex, or another
      thread is inside the section of the same channel and has a step. A call into FreeSWITCH is
      one step, so this takes it that those calls return. */
  lemma NeverStuck(cap: nat, steps: seq<Step>, t: Tid)
    requires Legal(Start(cap), steps) && !After(Start(cap), steps).At(t).Idle?
    ensures var s := After(Start(cap), steps);
            if !s.At(t).Waiting? then Enabled(s, Next(s, t))
            else Enabled(s, Acquire(t))
                 || exists o <- s.threads ::
                      s.threads[o].Inside? && s.threads[o].u == s.At(t).u && Enabled(s, Next(s, o))
  {
    var s := After(Start(cap), steps);
    StartOk(cap);
    InvRun(Start(cap), steps);
    if !s.At(t).Waiting? {
      NextEnabled(s, t);
    } else if !Enabled(s, Acquire(t)) {
      var o :| o in s.threads && s.threads[o].Inside? && s.threads[o].m == s.At(t).m;
      NextEnabled(s, o);
      OneMutexPerChannel(cap, steps, t, o);
    }
  }

  // ----- Leaving the section ------------------------------------------------------------

  /** How many steps a thread still has before it unlocks, given how many bugs its channel has. */
  function Todo(stage: Stage, listed: nat): nat {
    match stage
    case Ready(job) => if job.Attach? then 5 else if job.Detach? then 4 else 3 * listed + 2
    case CallAdd(_, _) => 4
    case Commit(_, _) => 3
    case StartDriver => 2
    case Sweep(rest) => 3 * |rest| + 1
    case CallRemove(_, _, _, rest) => 3 * |rest| + 3
    case StopDriver(rest) => 3 * |rest| + 2
    case Leave => 1
  }

  function Ahead(s: System, t: Tid): nat {
    if s.At(t).Inside? then Todo(s.At(t).stage, |ListFor(s.reg, s.At(t).u)|) else 0
  }

  lemma OwnStep(s: System, step: Step, t: Tid)
    requires Enabled(s, step) && By(step, t) && s.At(t).Inside? && !step.Unlock?
    ensures Apply(s, step).At(t).Inside? && Ahead(Apply(s, step), t) < Ahead(s, t)
  {
    if step.Erase? {
      OwnErase(s, t);
    } else if step.ListBugs? {
      OwnList(s, t);
    } else {
      assert step.Check? || step.Add? || step.Record? || step.Silence? || step.Remove? || step.Unsilence?;
    }
  }

  lemma OwnErase(s: System, t: Tid)
    requires Enabled(s, Erase(t))
    ensures Apply(s, Erase(t)).At(t).Inside? && Ahead(Apply(s, Erase(t)), t) < Ahead(s, t)
  {
  }

  lemma OwnList(s: System, t: Tid)
    requires Enabled(s, ListBugs(t))
    ensures Apply(s, ListBugs(t)).At(t).Inside? && Ahead(Apply(s, ListBugs(t)), t) < Ahead(s, t)
  {
  }

  /** The bug being detached is of the channel whose section the thread is in. */
  lemma EraseElsewhere(s: System, o: Tid, u: Uuid)
    requires HoldsIssued(s) && Enabled(s, Erase(o)) && StageOk(s, s.At(o).u, s.At(o).stage) && s.At(o).u != u
    ensures ListFor(Apply(s, Erase(o)).reg, u) == ListFor(s.reg, u)
  {
    assert s.At(o).stage.Sweep? ==> Target(s.At(o).stage) in s.At(o).stage.rest;
  }

  lemma RecordElsewhere(s: System, o: Tid, u: Uuid)
    requires Enabled(s, Record(o)) && StageOk(s, s.At(o).u, s.At(o).stage) && s.At(o).u != u
    ensures ListFor(Apply(s, Record(o)).reg, u) == ListFor(s.reg, u)
  {
  }

  /** Another thread's step leaves the list of a channel alone while its section is occupied. */
  lemma OtherList(s: System, step: Step, t: Tid)
    requires LocksOk(s) && HoldsIssued(s) && ThreadsOk(s) && Enabled(s, step) && s.At(t).Inside? && !By(step, t)
    ensures ListFor(Apply(s, step).reg, s.At(t).u) == ListFor(s.reg, s.At(t).u)
  {
    if step.Record? || step.Erase? {
      OtherIndex(s, step, t);
    } else {
      SameLists(s, step);
    }
  }

  lemma OtherIndex(s: System, step: Step, t: Tid)
    requires LocksOk(s) && HoldsIssued(s) && ThreadsOk(s) && Enabled(s, step) && s.At(t).Inside? && !By(step, t)
    requires step.Record? || step.Erase?
    ensures ListFor(Apply(s, step).reg, s.At(t).u) == ListFor(s.reg, s.At(t).u)
  {
    assert ThreadOk(s, s.threads[step.t]);
    OneInside(s, t, step.t);
    if step.Erase? {
      EraseElsewhere(s, step.t, s.At(t).u);
    } else {
      RecordElsewhere(s, step.t, s.At(t).u);
    }
  }

  lemma SameLists(s: System, step: Step)
    requires Enabled(s, step) && !step.Record? && !step.Erase?
    ensures Apply(s, step).reg.byChannel == s.reg.byChannel
  {
    if !Loud(step) { QuietReg(s, step); }
  }

  /** One step of anybody: the thread is still inside, and nearer to leaving if it was its own. */
  lemma AnyStep(s: System, step: Step, t: Tid)
    requires LocksOk(s) && HoldsIssued(s) && ThreadsOk(s) && Enabled(s, step) && s.At(t).Inside?
    requires !(By(step, t) && step.Unlock?)
    ensures Apply(s, step).At(t).Inside?
    ensures (if By(step, t) then 1 else 0) + Ahead(Apply(s, step), t) <= Ahead(s, t)
  {
    if By(step, t) {
      OwnStep(s, step, t);
    } else {
      SameThread(s, step, t);
      OtherList(s, step, t);
    }
  }

  function Count(steps: seq<Step>, t: Tid): nat {
    if steps == [] then 0 else (if By(steps[0], t) then 1 else 0) + Count(steps[1..], t)
  }

  /** A thread inside a section leaves it after a number of its own steps that is fixed by where
      it stands and how many bugs the channel has, whatever other threads and FreeSWITCH do. */
  lemma {:induction false} SectionEnds(s: System, steps: seq<Step>, t: Tid)
    requires Inv(s) && Legal(s, steps) && s.At(t).Inside?
    requires forall i :: 0 <= i < |steps| ==> !(By(steps[i], t) && steps[i].Unlock?)
    ensures After(s, steps).At(t).Inside? && Count(steps, t) + Ahead(After(s, steps), t) <= Ahead(s, t)
    decreases |steps|
  {
    if steps != [] {
      InvStep(s, steps[0]);
      AnyStep(s, steps[0], t);
      SectionEnds(Apply(s, steps[0]), steps[1..], t);
    }
  }
}
