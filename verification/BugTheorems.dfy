/** What every run of the media bug protocol guarantees, from the empty manager on. */
module BugTheorems {
  import opened Basics
  import opened Purposes
  import opened BugRegistry
  import opened BugProtocol

  predicate Legal(s: System, steps: seq<Step>)
    decreases |steps|
  {
    steps == [] || (Enabled(s, steps[0]) && Legal(Apply(s, steps[0]), steps[1..]))
  }

  function After(s: System, steps: seq<Step>): System
    requires Legal(s, steps)
    decreases |steps|
  {
    if steps == [] then s else After(Apply(s, steps[0]), steps[1..])
  }

  lemma InvStep(s: System, step: Step)
    requires Inv(s) && Enabled(s, step)
    ensures Inv(Apply(s, step))
  {
    LocksStep(s, step);
    IndexesStep(s, step);
    ThreadsStep(s, step);
    ChainsStep(s, step);
    DriversStep(s, step);
  }

  lemma {:induction false} InvRun(s: System, steps: seq<Step>)
    requires Inv(s) && Legal(s, steps)
    ensures Inv(After(s, steps))
    decreases |steps|
  {
    if steps != [] {
      InvStep(s, steps[0]);
      InvRun(Apply(s, steps[0]), steps[1..]);
    }
  }

  /** Lock table safety: all references to a channel's mutex are to one mutex, different
      channels have different mutexes, and at most one thread is inside a channel's section. */
  lemma OneMutexPerChannel(cap: nat, steps: seq<Step>, t: Tid, o: Tid)
    requires Legal(Start(cap), steps)
    requires After(Start(cap), steps).At(t).Refers() && After(Start(cap), steps).At(o).Refers()
    ensures var s := After(Start(cap), steps);
            && (s.At(t).u == s.At(o).u <==> s.At(t).m == s.At(o).m)
            && (s.At(t).u == s.At(o).u && s.At(t).Inside? && s.At(o).Inside? ==> t == o)
  {
    var s := After(Start(cap), steps);
    StartOk(cap);
    InvRun(Start(cap), steps);
    if Owns(s, t) && Owns(s, o) { OneInside(s, t, o); }
  }

  /** The indexes agree in every reachable state, although `mu_` is free during the
      FreeSWITCH calls, and no purpose but the recording relay repeats on a channel. */
  lemma IndexesAgree(cap: nat, steps: seq<Step>)
    requires Legal(Start(cap), steps)
    ensures Consistent(After(Start(cap), steps).reg)
    ensures PurposesUnique(After(Start(cap), steps).reg)
  {
    StartOk(cap);
    InvRun(Start(cap), steps);
  }

  /** A callback context is deleted at most once, and never while its bug is in a chain or in
      the indexes. */
  lemma ContextsFreedOnce(cap: nat, steps: seq<Step>, u: Uuid, id: BugId)
    requires Legal(Start(cap), steps)
    ensures var s := After(Start(cap), steps);
            s.freed[id] <= 1 && (id in s.Chain(u) || id in s.reg.byId ==> id !in s.freed)
  {
    var s := After(Start(cap), steps);
    StartOk(cap);
    InvRun(Start(cap), steps);
    if id in s.Chain(u) && id !in s.reg.byId {
      assert ChainOk(s, u);
      var t :| t in s.threads && Keeps(s.threads[t], u, id);
      assert ThreadOk(s, s.threads[t]);
    }
  }

  /** A thread that has yet to hand the context of `id` on or to delete it. */
  predicate Carries(th: Thread, id: BugId) {
    th.Inside? && (th.stage.CallAdd? || th.stage.Commit? || th.stage.CallRemove?) && th.stage.id == id
  }

  /** The context of `id` belongs to a registered bug, is deleted, or is in a thread's hands. */
  predicate Accounted(s: System, id: BugId) {
    id in s.reg.byId || id in s.freed || exists t <- s.threads :: Carries(s.threads[t], id)
  }

  lemma CarriedOn(s: System, step: Step, t: Tid, id: BugId)
    requires Enabled(s, step) && By(step, t) && Carries(s.At(t), id)
    ensures Accounted(Apply(s, step), id)
  {
    match step
    case Add(_, ok) => assert ok ==> Carries(Added(s, t, ok).threads[t], id);
    case Record(_) => assert id in Recorded(s, t).reg.byId;
    case Remove(_) => assert id in Removed(s, t).freed;
  }

  lemma StillRegistered(s: System, step: Step, id: BugId)
    requires Enabled(s, step) && id in s.reg.byId
    ensures Accounted(Apply(s, step), id)
  {
    if step.Erase? {
      var s', t := Erased(s, step.t), step.t;
      assert id in s'.reg.byId || Carries(s'.threads[t], id);
    } else {
      SameOrMore(s, step);
    }
  }

  lemma SameOrMore(s: System, step: Step)
    requires Enabled(s, step) && !step.Erase?
    ensures s.reg.byId.Keys <= Apply(s, step).reg.byId.Keys
  {
  }

  lemma FreedStays(s: System, step: Step, id: BugId)
    requires Enabled(s, step) && id in s.freed
    ensures id in Apply(s, step).freed
  {
  }

  lemma NewIsCarried(s: System, step: Step, id: BugId)
    requires Enabled(s, step) && id !in s.issued && id in Apply(s, step).issued
    ensures Accounted(Apply(s, step), id)
  {
    assert step.Check?;
    assert Carries(Checked(s, step.t).threads[step.t], id);
  }

  lemma AccountedStep(s: System, step: Step, id: BugId)
    requires Enabled(s, step) && Accounted(s, id)
    ensures Accounted(Apply(s, step), id)
  {
    if id in s.reg.byId {
      StillRegistered(s, step, id);
    } else if id in s.freed {
      FreedStays(s, step, id);
    } else {
      var t :| t in s.threads && Carries(s.threads[t], id);
      if By(step, t) {
        CarriedOn(s, step, t, id);
      } else {
        SameThread(s, step, t);
        assert Carries(Apply(s, step).threads[t], id);
      }
    }
  }

  lemma {:induction false} AccountedRun(s: System, steps: seq<Step>, id: BugId)
    requires Legal(s, steps) && (id in s.issued ==> Accounted(s, id))
    ensures id in After(s, steps).issued ==> Accounted(After(s, steps), id)
    decreases |steps|
  {
    if steps != [] {
      if Accounted(s, id) {
        AccountedStep(s, steps[0], id);
      } else if id in Apply(s, steps[0]).issued {
        NewIsCarried(s, steps[0], id);
      }
      AccountedRun(Apply(s, steps[0]), steps[1..], id);
    }
  }

  /** No context is leaked: in every reachable state, an id that was ever issued is registered,
      its context is deleted, or a thread is about to register or delete it. */
  lemma NoContextLeaked(cap: nat, steps: seq<Step>, id: BugId)
    requires Legal(Start(cap), steps) && id in After(Start(cap), steps).issued
    ensures Accounted(After(Start(cap), steps), id)
  {
    AccountedRun(Start(cap), steps, id);
  }

  /** The CLOSE callback that FreeSWITCH makes from inside its remove call finds no record, so
      it returns before asking for the channel lock its own thread holds. */
  lemma NestedCloseReturns(cap: nat, steps: seq<Step>, t: Tid)
    requires Legal(Start(cap), steps)
    requires After(Start(cap), steps).At(t).Inside? && After(Start(cap), steps).At(t).stage.CallRemove?
    ensures After(Start(cap), steps).At(t).stage.id !in After(Start(cap), steps).reg.byId
  {
    var s := After(Start(cap), steps);
    StartOk(cap);
    InvRun(Start(cap), steps);
    assert ThreadOk(s, s.threads[t]);
  }

  /** Whenever no thread is inside a channel's section, a silence driver runs there only if a
      WRITE_REPLACE bug is registered; the cap holds in every state. */
  lemma DriverNeedsWriteReplace(cap: nat, steps: seq<Step>, u: Uuid)
    requires Legal(Start(cap), steps)
    ensures var s := After(Start(cap), steps);
            && |s.drivers| <= cap
            && (u in s.drivers && (forall t <- s.threads :: s.threads[t].Inside? ==> s.threads[t].u != u)
                ==> HasWriteReplace(s.reg, u))
  {
    StartOk(cap);
    InvRun(Start(cap), steps);
    CapFixed(Start(cap), steps);
  }

  lemma {:induction false} CapFixed(s: System, steps: seq<Step>)
    requires Legal(s, steps)
    ensures After(s, steps).cap == s.cap
    decreases |steps|
  {
    if steps != [] { CapFixed(Apply(s, steps[0]), steps[1..]); }
  }

  // ----- Order of the chains ------------------------------------------------------------

  type Issues = map<BugId, BugRecord>

  function Rank(issued: Issues, id: BugId): nat {
    if id in issued then StageRank(issued[id].purpose) else 0
  }

  /** The bugs `ids` stand in stage order. */
  predicate InOrder(issued: Issues, ids: seq<BugId>) {
    forall i, j :: 0 <= i < j < |ids| ==> Rank(issued, ids[i]) <= Rank(issued, ids[j])
  }

  lemma {:induction false} WithoutInOrder(issued: Issues, ids: seq<BugId>, id: BugId)
    requires InOrder(issued, ids)
    ensures InOrder(issued, Without(ids, id))
  {
    if ids != [] {
      assert ids == [ids[0]] + ids[1..];
      HeadInOrder(issued, ids[1..], ids[0]);
      WithoutInOrder(issued, ids[1..], id);
      HeadInOrder(issued, Without(ids[1..], id), ids[0]);
    }
  }

  lemma HeadInOrder(issued: Issues, ids: seq<BugId>, id: BugId)
    ensures InOrder(issued, [id] + ids) <==>
              InOrder(issued, ids) && forall x <- ids :: Rank(issued, id) <= Rank(issued, x)
  {
    var all := [id] + ids;
    assert forall i :: 0 <= i < |ids| ==> all[i + 1] == ids[i];
    if InOrder(issued, all) {
      forall i, j | 0 <= i < j < |ids|
        ensures Rank(issued, ids[i]) <= Rank(issued, ids[j])
      {
        assert all[i + 1] == ids[i] && all[j + 1] == ids[j];
      }
      forall x | x in ids
        ensures Rank(issued, id) <= Rank(issued, x)
      {
        var k :| 0 <= k < |ids| && ids[k] == x;
        assert all[0] == id && all[k + 1] == x;
      }
    }
  }

  /** While a bug is being added at the tail, every bug of its chain is registered and of no
      later stage: the lock keeps out every thread that could have changed that. */
  lemma EarlierStage(s: System, t: Tid, id: BugId)
    requires Inv(s) && Enabled(s, Add(t, true)) && !s.At(t).stage.bug.flags.first && id in s.Chain(s.At(t).u)
    ensures Rank(s.issued, id) <= StageRank(s.At(t).stage.bug.purpose)
  {
    var u, bug := s.At(t).u, s.At(t).stage.bug;
    assert ThreadOk(s, s.threads[t]);
    assert ChainOk(s, u);
    assert id in s.reg.byId by {
      forall o | Owns(s, o) && s.threads[o].u == u
        ensures o == t
      {
        OneInside(s, t, o);
      }
    }
    assert On(s.reg, u, id);
  }

  /** The head insertion is harmless exactly when no bug of the chain is of an earlier stage;
      the tail insertion always keeps the order, because of the check made before it. */
  lemma AddKeepsOrder(s: System, t: Tid)
    requires Inv(s) && Enabled(s, Add(t, true)) && InOrder(s.issued, s.Chain(s.At(t).u))
    ensures var s' := Added(s, t, true); var bug := s.At(t).stage.bug;
            InOrder(s'.issued, s'.Chain(s.At(t).u)) <==>
              (bug.flags.first ==> forall id <- s.Chain(s.At(t).u) :: StageRank(bug.purpose) <= Rank(s.issued, id))
  {
    var u, stage, s' := s.At(t).u, s.At(t).stage, Added(s, t, true);
    assert s.issued[stage.id] == stage.bug by { assert ThreadOk(s, s.threads[t]); }
    assert s'.issued == s.issued && s'.Chain(u) == Insert(s.Chain(u), stage.id, stage.bug.flags.first);
    if stage.bug.flags.first {
      HeadInOrder(s.issued, s.Chain(u), stage.id);
    } else {
      forall id | id in s.Chain(u) { EarlierStage(s, t, id); }
      TailInOrder(s.issued, s.Chain(u), stage.id);
    }
  }

  lemma TailInOrder(issued: Issues, ids: seq<BugId>, id: BugId)
    requires InOrder(issued, ids) && forall x <- ids :: Rank(issued, x) <= Rank(issued, id)
    ensures InOrder(issued, ids + [id])
  {
  }

  predicate PoliteJob(job: Job) {
    job.Attach? ==> !job.cfg.flags.first
  }

  /** Callers leave SMBF_FIRST to the manager, which sets it for VAD bugs only. */
  predicate Polite(s: System) {
    && (forall t <- s.threads :: PoliteThread(s.threads[t]))
    && (forall id <- s.issued :: s.issued[id].flags.first ==> s.issued[id].purpose == VadBargeIn)
  }

  predicate PoliteThread(th: Thread) {
    && (th.Waiting? ==> PoliteJob(th.job))
    && (th.Inside? && th.stage.Ready? ==> PoliteJob(th.stage.job))
  }

  predicate PoliteStep(step: Step) {
    step.BeginAttach? ==> !step.cfg.flags.first
  }

  lemma PoliteNext(s: System, step: Step)
    requires Enabled(s, step) && PoliteStep(step) && !ByFreeSwitch(step) && !ByRegistry(step)
    requires PoliteThread(s.At(step.t))
    ensures PoliteThread(Apply(s, step).At(step.t))
  {
  }

  lemma PoliteMove(s: System, step: Step)
    requires Enabled(s, step) && PoliteStep(step) && forall t <- s.threads :: PoliteThread(s.threads[t])
    ensures forall t <- Apply(s, step).threads :: PoliteThread(Apply(s, step).threads[t])
  {
    forall t | t in Apply(s, step).threads
      ensures PoliteThread(Apply(s, step).threads[t])
    {
      if By(step, t) { PoliteNext(s, step); } else { SameThread(s, step, t); }
    }
  }

  lemma PoliteIssue(s: System, step: Step)
    requires Polite(s) && Enabled(s, step)
    ensures var issued := Apply(s, step).issued;
            forall id <- issued :: issued[id].flags.first ==> issued[id].purpose == VadBargeIn
  {
    if step.Check? {
      assert PoliteThread(s.threads[step.t]);
    }
  }

  lemma PoliteKept(s: System, step: Step)
    requires Polite(s) && Enabled(s, step) && PoliteStep(step)
    ensures Polite(Apply(s, step))
  {
    PoliteMove(s, step);
    PoliteIssue(s, step);
  }

  predicate ChainsInOrder(s: System) {
    forall u <- s.chains :: InOrder(s.issued, s.chains[u])
  }

  /** The step is not a head insertion in front of a bug of an earlier stage. */
  predicate Harmless(s: System, step: Step)
    requires Enabled(s, step)
  {
    step.Add? && step.ok && s.At(step.t).stage.bug.flags.first ==>
      forall id <- s.Chain(s.At(step.t).u) :: StageRank(s.At(step.t).stage.bug.purpose) <= Rank(s.issued, id)
  }

  /** From a state in order, a step leads to one in order if and only if it is harmless. */
  lemma OrderStep(s: System, step: Step)
    requires Inv(s) && ChainsInOrder(s) && Enabled(s, step)
    ensures ChainsInOrder(Apply(s, step)) <==> Harmless(s, step)
  {
    var s' := Apply(s, step);
    forall u | u in s'.chains && !(step.Add? && step.ok && s.At(step.t).u == u)
      ensures InOrder(s'.issued, s'.chains[u])
    {
      assert InOrder(s.issued, s.Chain(u));
      OldChain(s, step, u);
    }
    if step.Add? && step.ok {
      var u := s.At(step.t).u;
      assert InOrder(s.issued, s.Chain(u));
      AddKeepsOrder(s, step.t);
      assert u in s'.chains && s'.chains[u] == s'.Chain(u);
    }
  }

  /** All chains are in order in every state of the run. */
  predicate AlwaysInOrder(s: System, steps: seq<Step>)
    requires Legal(s, steps)
    decreases |steps|
  {
    ChainsInOrder(s) && (steps == [] || AlwaysInOrder(Apply(s, steps[0]), steps[1..]))
  }

  predicate AlwaysHarmless(s: System, steps: seq<Step>)
    requires Legal(s, steps)
    decreases |steps|
  {
    steps == [] || (Harmless(s, steps[0]) && AlwaysHarmless(Apply(s, steps[0]), steps[1..]))
  }

  lemma {:induction false} OrderExactFrom(s: System, steps: seq<Step>)
    requires Inv(s) && ChainsInOrder(s) && Legal(s, steps)
    ensures AlwaysInOrder(s, steps) <==> AlwaysHarmless(s, steps)
    decreases |steps|
  {
    if steps != [] {
      OrderStep(s, steps[0]);
      if Harmless(s, steps[0]) {
        InvStep(s, steps[0]);
        OrderExactFrom(Apply(s, steps[0]), steps[1..]);
      }
    }
  }

  /** The exact condition, for every run: all chains are in stage order in all its states if and
      only if no head insertion of the run went in front of a bug of an earlier stage. */
  lemma OrderExact(cap: nat, steps: seq<Step>)
    requires Legal(Start(cap), steps)
    ensures AlwaysInOrder(Start(cap), steps) <==> AlwaysHarmless(Start(cap), steps)
  {
    StartOk(cap);
    OrderExactFrom(Start(cap), steps);
  }

  /** A head insertion of VAD, the earliest stage, is harmless. */
  lemma PoliteIsHarmless(s: System, step: Step)
    requires Inv(s) && Polite(s) && Enabled(s, step)
    ensures Harmless(s, step)
  {
    if step.Add? && step.ok && s.At(step.t).stage.bug.flags.first {
      assert ThreadOk(s, s.threads[step.t]);
      var u := s.At(step.t).u;
      assert u in s.chains ==> ChainOk(s, u);
    }
  }

  /** Every other step leaves a chain as it was, or takes bugs out of it. */
  lemma OldChain(s: System, step: Step, u: Uuid)
    requires Inv(s) && Enabled(s, step) && InOrder(s.issued, s.Chain(u))
    requires !(step.Add? && step.ok && s.At(step.t).u == u)
    ensures InOrder(Apply(s, step).issued, Apply(s, step).Chain(u))
  {
    var s' := Apply(s, step);
    ShorterOrEqual(s, step, u);
    assert forall id <- s.Chain(u) :: id in s.issued by { assert u in s.chains ==> ChainOk(s, u); }
    StillInOrder(s.issued, s'.issued, s'.Chain(u)) by { IssuedGrows(s, step); }
  }

  lemma IssuedGrows(s: System, step: Step)
    requires IndexesOk(s) && Enabled(s, step)
    ensures forall id <- s.issued :: id in Apply(s, step).issued && Apply(s, step).issued[id] == s.issued[id]
  {
  }

  lemma ShorterOrEqual(s: System, step: Step, u: Uuid)
    requires Enabled(s, step) && InOrder(s.issued, s.Chain(u))
    requires !(step.Add? && step.ok && s.At(step.t).u == u)
    ensures InOrder(s.issued, Apply(s, step).Chain(u))
    ensures forall id <- Apply(s, step).Chain(u) :: id in s.Chain(u)
  {
    if step.FsUnlink? {
      WithoutInOrder(s.issued, s.Chain(u), step.id);
    } else if step.Remove? {
      WithoutInOrder(s.issued, s.Chain(u), s.At(step.t).stage.id);
    } else {
      assert Apply(s, step).Chain(u) == s.Chain(u) || (step.FsDestroy? && step.u == u);
    }
  }

  lemma StillInOrder(issued: Issues, issued': Issues, ids: seq<BugId>)
    requires InOrder(issued, ids) && forall id <- ids :: id in issued
    requires forall id <- issued :: id in issued' && issued'[id] == issued[id]
    ensures InOrder(issued', ids)
  {
    assert forall i :: 0 <= i < |ids| ==> ids[i] in issued && Rank(issued', ids[i]) == Rank(issued, ids[i]);
  }

  lemma {:induction false} OrderRun(s: System, steps: seq<Step>)
    requires Inv(s) && Polite(s) && ChainsInOrder(s) && Legal(s, steps)
    requires forall i :: 0 <= i < |steps| ==> PoliteStep(steps[i])
    ensures ChainsInOrder(After(s, steps))
    decreases |steps|
  {
    if steps != [] {
      InvStep(s, steps[0]);
      PoliteKept(s, steps[0]);
      PoliteIsHarmless(s, steps[0]);
      OrderStep(s, steps[0]);
      OrderRun(Apply(s, steps[0]), steps[1..]);
    }
  }

  /** In every run where callers never set SMBF_FIRST, every chain stays in stage order,
      through any mix of attaches, detaches and FreeSWITCH closing bugs on its own. */
  lemma ChainsStayInOrder(cap: nat, steps: seq<Step>, u: Uuid)
    requires Legal(Start(cap), steps)
    requires forall i :: 0 <= i < |steps| ==> PoliteStep(steps[i])
    ensures InOrder(After(Start(cap), steps).issued, After(Start(cap), steps).Chain(u))
  {
    StartOk(cap);
    OrderRun(Start(cap), steps);
  }

  ghost predicate Reachable(cap: nat, s: System) {
    exists steps :: Legal(Start(cap), steps) && After(Start(cap), steps) == s
  }

  lemma {:induction false} OneMore(s: System, steps: seq<Step>, step: Step)
    requires Legal(s, steps) && Enabled(After(s, steps), step)
    ensures Legal(s, steps + [step]) && After(s, steps + [step]) == Apply(After(s, steps), step)
    decreases |steps|
  {
    if steps == [] {
      assert steps + [step] == [step];
      assert Legal(Apply(s, step), []);
    } else {
      assert (steps + [step])[1..] == steps[1..] + [step];
      OneMore(Apply(s, steps[0]), steps[1..], step);
    }
  }

  lemma Reach(cap: nat, s: System, step: Step) returns (s': System)
    requires Reachable(cap, s) && Enabled(s, step)
    ensures s' == Apply(s, step) && Reachable(cap, s')
  {
    var steps :| Legal(Start(cap), steps) && After(Start(cap), steps) == s;
    OneMore(Start(cap), steps, step);
    s' := Apply(s, step);
  }

  lemma SoloEnter(cap: nat, s: System, u: Uuid, cfg: BugConfig) returns (s': System)
    requires Reachable(cap, s) && s.threads.Keys <= {0} && s.At(0).Idle? && u != ""
    ensures Reachable(cap, s') && s'.threads.Keys == {0}
    ensures s'.At(0).Inside? && s'.At(0).u == u && s'.At(0).stage == Ready(Attach(cfg))
    ensures s'.reg == s.reg && s'.chains == s.chains && s'.issued == s.issued && s'.gone == s.gone
  {
    var s1 := Reach(cap, s, BeginAttach(0, u, cfg));
    s' := Reach(cap, s1, Acquire(0));
  }

  lemma SoloWork(cap: nat, s: System) returns (s': System)
    requires Reachable(cap, s) && s.threads.Keys == {0} && s.At(0).Inside? && s.At(0).u !in s.gone
    requires s.At(0).stage.Ready? && s.At(0).stage.job.Attach? && !s.At(0).stage.job.cfg.flags.writeReplace
    requires Validate(s.reg, s.At(0).u, s.At(0).stage.job.cfg).1.Granted?
    ensures Reachable(cap, s') && s'.threads.Keys == {0} && s'.At(0) == s.At(0).(stage := Leave)
    ensures var (reg, v) := Validate(s.reg, s.At(0).u, s.At(0).stage.job.cfg);
            && s'.reg == Register(reg, v.id, v.bug) && s'.issued == s.issued[v.id := v.bug] && s'.gone == s.gone
            && s'.Chain(s.At(0).u) == Insert(s.Chain(s.At(0).u), v.id, v.bug.flags.first)
  {
    var s1 := Reach(cap, s, Check(0));
    var s2 := Reach(cap, s1, Add(0, true));
    s' := Reach(cap, s2, Record(0));
  }

  lemma SoloExit(cap: nat, s: System) returns (s': System)
    requires Reachable(cap, s) && s.threads.Keys == {0} && s.At(0).Inside? && s.At(0).stage == Leave
    ensures Reachable(cap, s') && s'.threads.Keys == {0} && s'.At(0).Idle?
    ensures s'.reg == s.reg && s'.chains == s.chains && s'.issued == s.issued && s'.gone == s.gone
  {
    var s1 := Reach(cap, s, Unlock(0));
    var s2 := Reach(cap, s1, Drop(0));
    s' := Reach(cap, s2, Prune(0));
  }

  /** A whole attach by one thread, alone in the system, that FreeSWITCH accepts. */
  lemma SoloAttach(cap: nat, s: System, u: Uuid, cfg: BugConfig) returns (s': System)
    requires Reachable(cap, s) && s.threads.Keys <= {0} && s.At(0).Idle? && u != "" && u !in s.gone
    requires Validate(s.reg, u, cfg).1.Granted? && !cfg.flags.writeReplace
    ensures Reachable(cap, s') && s'.threads.Keys == {0} && s'.At(0).Idle? && s'.gone == s.gone
    ensures var (reg, v) := Validate(s.reg, u, cfg);
            && s'.reg == Register(reg, v.id, v.bug) && s'.issued == s.issued[v.id := v.bug]
            && s'.Chain(u) == Insert(s.Chain(u), v.id, v.bug.flags.first)
  {
    s' := SoloEnter(cap, s, u, cfg);
    s' := SoloWork(cap, s');
    s' := SoloExit(cap, s');
  }

  /** Without that promise the order is lost: TTS attached with SMBF_FIRST after STT. */
  lemma FirstFlagBreaksOrder() returns (s: System)
    ensures Reachable(1, s) && !InOrder(s.issued, s.Chain("a"))
  {
    var stt := BugConfig(SttTranscribe, Flags(false, false));
    var tts := BugConfig(TtsPlayback, Flags(true, false));
    assert Reachable(1, Start(1)) by { assert Legal(Start(1), []) && After(Start(1), []) == Start(1); }
    s := SoloAttach(1, Start(1), "a", stt);
    s := SoloAttach(1, s, "a", tts);
    assert s.Chain("a") == [2, 1];
    assert Rank(s.issued, s.Chain("a")[0]) == 3 && Rank(s.issued, s.Chain("a")[1]) == 2;
  }
}
