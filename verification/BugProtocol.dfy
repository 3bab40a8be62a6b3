/** MediaBugManager as a protocol of many threads (src/media/bug_manager.cc).

    Every critical section under `mu_`, every lock operation and every FreeSWITCH call is one
    atomic step, so `mu_` is free while FreeSWITCH runs, exactly as in the source. FreeSWITCH
    itself is one bug chain per channel and a few steps of its own. */
module BugProtocol {
  import opened Basics
  import opened Purposes
  import opened BugRegistry

  type Tid = nat

  /** What a thread came to do on a channel. */
  datatype Job =
    | Attach(cfg: BugConfig)
    | Detach(id: BugId, callRemove: bool)
    | DetachAll

  /** Where a thread is inside the section guarded by the channel lock. */
  datatype Stage =
    | Ready(job: Job)
    | CallAdd(id: BugId, bug: BugRecord)     // validated, about to call FreeSWITCH
    | Commit(id: BugId, bug: BugRecord)      // FreeSWITCH has the bug, the indexes do not
    | StartDriver
    | Sweep(rest: seq<BugId>)                // ids DetachAll still has to detach
    | CallRemove(id: BugId, callRemove: bool, stop: bool, rest: seq<BugId>)
    | StopDriver(rest: seq<BugId>)
    | Leave

  datatype Thread =
    | Idle
    | Located(u: Uuid, id: BugId, callRemove: bool)   // DetachInternal has read the channel
    | Waiting(u: Uuid, m: MutexId, job: Job)          // refers to the mutex, does not own it
    | Inside(u: Uuid, m: MutexId, stage: Stage)       // owns the mutex
    | Unlocked(u: Uuid, m: MutexId)                   // still refers to it
    | Released(u: Uuid)                               // about to prune
  {
    predicate Refers() { Waiting? || Inside? || Unlocked? }
  }

  /** `issued`, `registered` and `freed` are the history: what each id was issued for, which
      ids ever reached the indexes, and the callback contexts deleted so far. */
  datatype System = System(
    reg: Registry,
    table: LockTable,
    threads: map<Tid, Thread>,
    chains: map<Uuid, seq<BugId>>,
    gone: set<Uuid>,
    drivers: set<Uuid>,
    cap: nat,
    issued: map<BugId, BugRecord>,
    registered: set<BugId>,
    freed: multiset<BugId>)
  {
    function At(t: Tid): Thread {
      if t in threads then threads[t] else Idle
    }

    function Chain(u: Uuid): seq<BugId> {
      if u in chains then chains[u] else []
    }

    function Live(): set<MutexId> {
      set t <- threads | threads[t].Refers() :: threads[t].m
    }

    function Move(t: Tid, th: Thread): System {
      this.(threads := threads[t := th])
    }

    function Go(t: Tid, stage: Stage): System
      requires At(t).Inside?
    {
      Move(t, At(t).(stage := stage))
    }
  }

  function Start(cap: nat): System {
    System(Registry(map[], map[], 1), LockTable(map[], 0), map[], map[], {}, {}, cap, map[], {}, multiset{})
  }

  datatype Step =
    | BeginAttach(t: Tid, u: Uuid, cfg: BugConfig)
    | Locate(t: Tid, id: BugId, callRemove: bool)
    | BeginDetach(t: Tid)
    | BeginDetachAll(t: Tid, u: Uuid)
    | Acquire(t: Tid)
    | Check(t: Tid)
    | Add(t: Tid, ok: bool)
    | Record(t: Tid)
    | Silence(t: Tid, ok: bool)
    | ListBugs(t: Tid)
    | Erase(t: Tid)
    | Remove(t: Tid)
    | Unsilence(t: Tid)
    | Unlock(t: Tid)
    | Drop(t: Tid)
    | Prune(t: Tid)
    | FsUnlink(u: Uuid, id: BugId)
    | FsDestroy(u: Uuid)
    | RemoveDriver(u: Uuid)
    | DrainDrivers

  /** DetachInternalLocked is next, for the one bug of a Detach or the next of a DetachAll. */
  predicate AboutToDetach(stage: Stage) {
    (stage.Ready? && stage.job.Detach?) || (stage.Sweep? && stage.rest != [])
  }

  function Target(stage: Stage): BugId
    requires AboutToDetach(stage)
  {
    if stage.Ready? then stage.job.id else stage.rest[0]
  }

  predicate Enabled(s: System, step: Step) {
    match step
    case BeginAttach(t, u, _) => s.At(t).Idle? && u != ""
    // A CLOSE callback comes for a bug that FreeSWITCH has already unlinked.
    case Locate(t, id, callRemove) =>
      s.At(t).Idle? && (callRemove || forall u <- s.chains :: id !in s.chains[u])
    case BeginDetach(t) => s.At(t).Located?
    // The CS_DESTROY hook runs after FreeSWITCH has closed every bug of the channel.
    case BeginDetachAll(t, u) => s.At(t).Idle? && u in s.gone
    case Acquire(t) =>
      && s.At(t).Waiting?
      && forall o <- s.threads :: s.threads[o].Inside? ==> s.threads[o].m != s.At(t).m
    case Check(t) => s.At(t).Inside? && s.At(t).stage.Ready? && s.At(t).stage.job.Attach?
    // FreeSWITCH adds no bug to a channel it has destroyed.
    case Add(t, ok) => s.At(t).Inside? && s.At(t).stage.CallAdd? && (ok ==> s.At(t).u !in s.gone)
    case Record(t) => s.At(t).Inside? && s.At(t).stage.Commit?
    case Silence(t, _) => s.At(t).Inside? && s.At(t).stage.StartDriver?
    case ListBugs(t) => s.At(t).Inside? && s.At(t).stage == Ready(DetachAll)
    case Erase(t) => s.At(t).Inside? && AboutToDetach(s.At(t).stage)
    case Remove(t) => s.At(t).Inside? && s.At(t).stage.CallRemove?
    case Unsilence(t) => s.At(t).Inside? && s.At(t).stage.StopDriver?
    case Unlock(t) => s.At(t).Inside? && s.At(t).stage.Leave?
    case Drop(t) => s.At(t).Unlocked?
    case Prune(t) => s.At(t).Released?
    case FsUnlink(_, _) => true
    case FsDestroy(_) => true
    case RemoveDriver(_) => true
    case DrainDrivers => true
  }

  /** ChannelLockFor, then wait for the mutex it returned. */
  function Queue(s: System, t: Tid, u: Uuid, job: Job): System {
    var (table, m) := LockFor(s.table, s.Live(), u);
    s.(table := table).Move(t, Waiting(u, m, job))
  }

  function Continue(rest: seq<BugId>): Stage {
    if rest == [] then Leave else Sweep(rest)
  }

  /** SMBF_FIRST inserts at the head of the chain, otherwise a bug goes to its tail. */
  function Insert(chain: seq<BugId>, id: BugId, first: bool): seq<BugId> {
    if first then [id] + chain else chain + [id]
  }

  // ----- The steps of a thread ----------------------------------------------------------

  /** DetachInternal reads the channel of a bug; an unknown id is the end of it. */
  function FoundBug(s: System, t: Tid, id: BugId, callRemove: bool): System {
    if id in s.reg.byId then s.Move(t, Located(s.reg.byId[id].channel, id, callRemove)) else s
  }

  /** Attach, first critical section. */
  function Checked(s: System, t: Tid): System
    requires s.At(t).Inside? && s.At(t).stage.Ready? && s.At(t).stage.job.Attach?
  {
    var (reg, verdict) := Validate(s.reg, s.At(t).u, s.At(t).stage.job.cfg);
    if verdict.Refused? then s.Go(t, Leave)
    else s.(reg := reg, issued := s.issued[verdict.id := verdict.bug]).Go(t, CallAdd(verdict.id, verdict.bug))
  }

  /** Attach, the FreeSWITCH call; if it fails the context is deleted. */
  function Added(s: System, t: Tid, ok: bool): System
    requires s.At(t).Inside? && s.At(t).stage.CallAdd?
  {
    var th := s.At(t);
    if ok then
      s.(chains := s.chains[th.u := Insert(s.Chain(th.u), th.stage.id, th.stage.bug.flags.first)])
       .Go(t, Commit(th.stage.id, th.stage.bug))
    else
      s.(freed := s.freed + multiset{th.stage.id}).Go(t, Leave)
  }

  /** Attach, second critical section. */
  function Recorded(s: System, t: Tid): System
    requires s.At(t).Inside? && s.At(t).stage.Commit?
  {
    var stage := s.At(t).stage;
    s.(reg := Register(s.reg, stage.id, stage.bug), registered := s.registered + {stage.id})
     .Go(t, if stage.bug.flags.writeReplace then StartDriver else Leave)
  }

  /** DetachInternalLocked, the critical section. */
  function Erased(s: System, t: Tid): System
    requires s.At(t).Inside? && AboutToDetach(s.At(t).stage)
  {
    var stage := s.At(t).stage;
    var id := Target(stage);
    var (callRemove, rest) := if stage.Ready? then (stage.job.callRemove, []) else (false, stage.rest[1..]);
    if id !in s.reg.byId then s.Go(t, Continue(rest))
    else s.(reg := Unregister(s.reg, id)).Go(t, CallRemove(id, callRemove, StopsDriver(s.reg, id), rest))
  }

  /** DetachInternalLocked, the FreeSWITCH call and the deletion of the context. */
  function Removed(s: System, t: Tid): System
    requires s.At(t).Inside? && s.At(t).stage.CallRemove?
  {
    var th := s.At(t);
    s.(chains := if th.stage.callRemove then Unlink(s, th.u, th.stage.id) else s.chains,
       freed := s.freed + multiset{th.stage.id})
     .Go(t, if th.stage.stop then StopDriver(th.stage.rest) else Continue(th.stage.rest))
  }

  function Apply(s: System, step: Step): System
    requires Enabled(s, step)
  {
    match step
    case BeginAttach(t, u, cfg) => Queue(s, t, u, Attach(cfg))
    case Locate(t, id, callRemove) => FoundBug(s, t, id, callRemove)
    case BeginDetach(t) => Queue(s, t, s.At(t).u, Detach(s.At(t).id, s.At(t).callRemove))
    case BeginDetachAll(t, u) => Queue(s, t, u, DetachAll)
    case Acquire(t) => s.Move(t, Inside(s.At(t).u, s.At(t).m, Ready(s.At(t).job)))
    case Check(t) => Checked(s, t)
    case Add(t, ok) => Added(s, t, ok)
    case Record(t) => Recorded(s, t)
    case Silence(t, ok) => s.(drivers := StartDriverFor(s.drivers, s.cap, s.At(t).u, ok)).Go(t, Leave)
    case ListBugs(t) => s.Go(t, Continue(ListFor(s.reg, s.At(t).u)))
    case Erase(t) => Erased(s, t)
    case Remove(t) => Removed(s, t)
    case Unsilence(t) => s.(drivers := s.drivers - {s.At(t).u}).Go(t, Continue(s.At(t).stage.rest))
    case Unlock(t) => s.Move(t, Unlocked(s.At(t).u, s.At(t).m))
    case Drop(t) => s.Move(t, Released(s.At(t).u))
    case Prune(t) => s.(table := PruneLock(s.table, s.Live(), s.At(t).u)).Move(t, Idle)
    case FsUnlink(u, id) => s.(chains := Unlink(s, u, id))
    case FsDestroy(u) => s.(chains := s.chains[u := []], gone := s.gone + {u})
    case RemoveDriver(u) => s.(drivers := s.drivers - {u})
    case DrainDrivers => s.(drivers := {})
  }

  function Unlink(s: System, u: Uuid, id: BugId): map<Uuid, seq<BugId>> {
    s.chains[u := Without(s.Chain(u), id)]
  }

  /** AttachOpportunistic: `ok` is false when the driver is disabled, the channel already has
      a write source or the broadcast fails. */
  function StartDriverFor(drivers: set<Uuid>, cap: nat, u: Uuid, ok: bool): (r: set<Uuid>)
    ensures |drivers| <= cap ==> |r| <= cap
    ensures r <= drivers + {u}
  {
    if u in drivers || |drivers| >= cap || !ok then drivers else drivers + {u}
  }

  // ----- The invariant ------------------------------------------------------------------

  predicate Owns(s: System, t: Tid) {
    t in s.threads && s.threads[t].Inside?
  }

  /** A thread that refers to a mutex refers to the one in the table, and a mutex has at most
      one owner. */
  predicate LocksOk(s: System) {
    && (forall t <- s.threads :: s.threads[t].Refers() ==>
          s.threads[t].u in s.table.locks && s.table.locks[s.threads[t].u] == s.threads[t].m)
    && (forall u <- s.table.locks :: s.table.locks[u] < s.table.nextMutex)
    && (forall u, v :: u in s.table.locks && v in s.table.locks && s.table.locks[u] == s.table.locks[v] ==> u == v)
    && (forall t, o | t in s.threads && o in s.threads ::
          Owns(s, t) && Owns(s, o) && s.threads[t].m == s.threads[o].m ==> t == o)
  }

  predicate Issued(s: System, u: Uuid, id: BugId) {
    id in s.issued && s.issued[id].channel == u
  }

  /** `id` went through the indexes of channel `u`, and has left the chain unless the caller
      will ask FreeSWITCH to remove it. */
  predicate Detachable(s: System, u: Uuid, id: BugId, callRemove: bool) {
    Issued(s, u, id) && id in s.registered && (callRemove || id !in s.Chain(u))
  }

  predicate JobOk(s: System, u: Uuid, job: Job) {
    match job
    case Attach(_) => true
    case Detach(id, callRemove) => Detachable(s, u, id, callRemove)
    case DetachAll => u in s.gone
  }

  predicate RestOk(s: System, u: Uuid, rest: seq<BugId>) {
    forall id <- rest :: Detachable(s, u, id, false)
  }

  /** The bug being attached still passes the checks made before `mu_` was released. */
  predicate Pending(s: System, u: Uuid, id: BugId, bug: BugRecord) {
    && Issued(s, u, id) && s.issued[id] == bug
    && id !in s.registered && id !in s.freed
    && (bug.purpose != RecordingRelay ==> !HasPurpose(s.reg, u, bug.purpose))
    && (bug.flags.first || !HasLaterStage(s.reg, u, bug.purpose))
    && (bug.purpose == VadBargeIn ==> bug.flags.first)
  }

  predicate StageOk(s: System, u: Uuid, stage: Stage) {
    match stage
    case Ready(job) => JobOk(s, u, job)
    case CallAdd(id, bug) => Pending(s, u, id, bug) && id !in s.Chain(u)
    case Commit(id, bug) => Pending(s, u, id, bug)
    case StartDriver => HasWriteReplace(s.reg, u)
    case Sweep(rest) => rest != [] && RestOk(s, u, rest)
    case CallRemove(id, callRemove, _, rest) =>
      Detachable(s, u, id, callRemove) && id !in s.reg.byId && id !in s.freed && RestOk(s, u, rest)
    case StopDriver(rest) => RestOk(s, u, rest)
    case Leave => true
  }

  predicate ThreadOk(s: System, th: Thread) {
    match th
    case Located(u, id, callRemove) => Detachable(s, u, id, callRemove)
    case Waiting(u, _, job) => JobOk(s, u, job)
    case Inside(u, _, stage) => StageOk(s, u, stage)
    case _ => true
  }

  predicate ThreadsOk(s: System) {
    forall t <- s.threads :: ThreadOk(s, s.threads[t])
  }

  /** No channel has two bugs of one purpose, except recording relays. */
  predicate PurposesUnique(r: Registry) {
    forall id, other :: id in r.byId && other in r.byId && id != other
      && r.byId[id].channel == r.byId[other].channel && r.byId[id].purpose == r.byId[other].purpose
      ==> r.byId[id].purpose == RecordingRelay
  }

  predicate IndexesOk(s: System) {
    && Consistent(s.reg)
    && PurposesUnique(s.reg)
    && (forall id <- s.reg.byId :: id in s.issued && s.issued[id] == s.reg.byId[id] && id in s.registered)
    && (forall id <- s.issued :: id < s.reg.nextId)
    && (forall id <- s.freed :: id in s.issued && id !in s.reg.byId && s.freed[id] == 1)
    && (forall id <- s.registered :: id in s.issued)
  }

  /** A thread inside the section of `u` that keeps `id` alive while it is in the chain but
      not in the indexes. */
  predicate Keeps(th: Thread, u: Uuid, id: BugId) {
    && th.Inside? && th.u == u
    && ((th.stage.Commit? && th.stage.id == id)
        || (th.stage.CallRemove? && th.stage.id == id && th.stage.callRemove))
  }

  predicate ChainOk(s: System, u: Uuid) {
    && Distinct(s.Chain(u))
    && (u in s.gone ==> s.Chain(u) == [])
    && (forall id <- s.Chain(u) :: Issued(s, u, id)
          && (id in s.reg.byId || exists t <- s.threads :: Keeps(s.threads[t], u, id)))
  }

  predicate ChainsOk(s: System) {
    forall u <- s.chains :: ChainOk(s, u)
  }

  predicate Stopping(th: Thread, u: Uuid) {
    && th.Inside? && th.u == u
    && ((th.stage.CallRemove? && th.stage.stop) || th.stage.StopDriver?)
  }

  predicate DriversOk(s: System) {
    && |s.drivers| <= s.cap
    && forall u <- s.drivers :: HasWriteReplace(s.reg, u) || exists t <- s.threads :: Stopping(s.threads[t], u)
  }

  predicate Inv(s: System) {
    LocksOk(s) && IndexesOk(s) && ThreadsOk(s) && ChainsOk(s) && DriversOk(s)
  }

  // ----- What steps leave alone ---------------------------------------------------------

  /** Everything but the lock table, the drivers and the threads is the same. */
  predicate Alike(s: System, s': System) {
    && s'.reg == s.reg && s'.chains == s.chains && s'.gone == s.gone
    && s'.issued == s.issued && s'.registered == s.registered && s'.freed == s.freed
  }

  predicate ByFreeSwitch(step: Step) {
    step.FsUnlink? || step.FsDestroy?
  }

  predicate ByRegistry(step: Step) {
    step.RemoveDriver? || step.DrainDrivers?
  }

  /** Is this a step of thread `t`? */
  predicate By(step: Step, t: Tid) {
    !ByFreeSwitch(step) && !ByRegistry(step) && step.t == t
  }

  /** Steps that change indexes, chains or contexts. */
  predicate Loud(step: Step) {
    step.Check? || step.Add? || step.Record? || step.Erase? || step.Remove?
  }

  lemma LoudSameThread(s: System, step: Step, t: Tid)
    requires Enabled(s, step) && Loud(step) && step.t != t
    ensures Apply(s, step).At(t) == s.At(t) && (t in Apply(s, step).threads <==> t in s.threads)
  {
  }

  lemma QuietSameThread(s: System, step: Step, t: Tid)
    requires Enabled(s, step) && !Loud(step) && !By(step, t)
    ensures Apply(s, step).At(t) == s.At(t) && (t in Apply(s, step).threads <==> t in s.threads)
  {
  }

  lemma SameThread(s: System, step: Step, t: Tid)
    requires Enabled(s, step) && !By(step, t)
    ensures Apply(s, step).At(t) == s.At(t) && (t in Apply(s, step).threads <==> t in s.threads)
  {
    if Loud(step) { LoudSameThread(s, step, t); } else { QuietSameThread(s, step, t); }
  }

  lemma StartOk(cap: nat)
    ensures Inv(Start(cap))
  {
  }

  lemma QueueLocks(s: System, t: Tid, u: Uuid, job: Job)
    requires LocksOk(s) && !s.At(t).Refers()
    ensures LocksOk(Queue(s, t, u, job))
  {
    var s' := Queue(s, t, u, job);
    forall o | o in s'.threads && s'.threads[o].Refers()
      ensures s'.threads[o].u in s'.table.locks && s'.table.locks[s'.threads[o].u] == s'.threads[o].m
    {
      if o != t { assert s.threads[o].m in s.Live(); }
    }
    forall o, p | Owns(s', o) && Owns(s', p) && s'.threads[o].m == s'.threads[p].m
      ensures o == p
    {
      assert Owns(s, o) && Owns(s, p);
    }
  }

  /** A thread that moves on keeps the mutex it refers to or lets it go, and enters the section
      only when no other thread owns the mutex. */
  lemma MoveLocks(s: System, s': System, t: Tid, th: Thread)
    requires LocksOk(s) && s'.table == s.table && s'.threads == s.threads[t := th]
    requires th.Refers() ==> s.At(t).Refers() && th.u == s.At(t).u && th.m == s.At(t).m
    requires th.Inside? ==> forall o <- s.threads :: o != t && s.threads[o].Inside? ==> s.threads[o].m != th.m
    ensures LocksOk(s')
  {
    forall o, p | Owns(s', o) && Owns(s', p) && s'.threads[o].m == s'.threads[p].m
      ensures o == p
    {
      if o != t { assert Owns(s, o); }
      if p != t { assert Owns(s, p); }
    }
  }

  /** A step that stays inside the section. */
  predicate StaysInside(s: System, s': System, t: Tid) {
    && s.At(t).Inside? && s'.table == s.table && t in s'.threads
    && s'.threads == s.threads[t := s'.threads[t]]
    && s'.threads[t].Inside? && s'.threads[t].u == s.At(t).u && s'.threads[t].m == s.At(t).m
  }

  lemma InsideSteps(s: System, step: Step)
    requires Enabled(s, step)
    requires step.Check? || step.Add? || step.Record? || step.Silence? || step.ListBugs? || step.Erase?
      || step.Remove? || step.Unsilence?
    ensures StaysInside(s, Apply(s, step), step.t)
  {
  }

  lemma InsideLocks(s: System, s': System, t: Tid)
    requires LocksOk(s) && StaysInside(s, s', t)
    ensures LocksOk(s')
  {
    assert Owns(s, t);
    forall o | o in s.threads && o != t && s.threads[o].Inside?
      ensures s.threads[o].m != s.At(t).m
    {
      assert Owns(s, o);
    }
    MoveLocks(s, s', t, s'.threads[t]);
  }

  lemma PruneLocks(s: System, t: Tid)
    requires LocksOk(s) && Enabled(s, Prune(t))
    ensures LocksOk(Apply(s, Prune(t)))
  {
    var pruned := s.(table := PruneLock(s.table, s.Live(), s.At(t).u));
    forall o | o in s.threads && s.threads[o].Refers()
      ensures s.threads[o].m in s.Live()
    {
    }
    assert LocksOk(pruned) by {
      assert forall o :: Owns(pruned, o) ==> Owns(s, o);
    }
    MoveLocks(pruned, Apply(s, Prune(t)), t, Idle);
  }

  lemma LocateLocks(s: System, step: Step)
    requires LocksOk(s) && Enabled(s, step) && step.Locate?
    ensures LocksOk(Apply(s, step))
  {
    if step.id in s.reg.byId {
      MoveLocks(s, Apply(s, step), step.t, Located(s.reg.byId[step.id].channel, step.id, step.callRemove));
    }
  }

  lemma SameLocks(s: System, s': System)
    requires LocksOk(s) && s'.table == s.table && s'.threads == s.threads
    ensures LocksOk(s')
  {
    assert forall o :: Owns(s', o) ==> Owns(s, o);
  }

  lemma EnterLocks(s: System, step: Step)
    requires LocksOk(s) && Enabled(s, step)
    requires step.BeginAttach? || step.BeginDetach? || step.BeginDetachAll? || step.Acquire?
    ensures LocksOk(Apply(s, step))
  {
    match step
    case BeginAttach(t, u, cfg) => QueueLocks(s, t, u, Attach(cfg));
    case BeginDetach(t) => QueueLocks(s, t, s.At(t).u, Detach(s.At(t).id, s.At(t).callRemove));
    case BeginDetachAll(t, u) => QueueLocks(s, t, u, DetachAll);
    case Acquire(t) => MoveLocks(s, Apply(s, step), t, Inside(s.At(t).u, s.At(t).m, Ready(s.At(t).job)));
  }

  lemma LeaveLocks(s: System, step: Step)
    requires LocksOk(s) && Enabled(s, step)
    requires step.Unlock? || step.Drop? || step.Prune? || step.Locate?
    ensures LocksOk(Apply(s, step))
  {
    match step
    case Unlock(t) => MoveLocks(s, Apply(s, step), t, Unlocked(s.At(t).u, s.At(t).m));
    case Drop(t) => MoveLocks(s, Apply(s, step), t, Released(s.At(t).u));
    case Prune(t) => PruneLocks(s, t);
    case Locate(_, _, _) => LocateLocks(s, step);
  }

  lemma LocksStep(s: System, step: Step)
    requires LocksOk(s) && Enabled(s, step)
    ensures LocksOk(Apply(s, step))
  {
    if step.BeginAttach? || step.BeginDetach? || step.BeginDetachAll? || step.Acquire? {
      EnterLocks(s, step);
    } else if step.Unlock? || step.Drop? || step.Prune? || step.Locate? {
      LeaveLocks(s, step);
    } else if ByFreeSwitch(step) || ByRegistry(step) {
      SameLocks(s, Apply(s, step));
    } else {
      InsideSteps(s, step);
      InsideLocks(s, Apply(s, step), step.t);
    }
  }

  /** Two threads are never both inside the section of one channel. */
  lemma OneInside(s: System, t: Tid, o: Tid)
    requires LocksOk(s) && Owns(s, t) && Owns(s, o)
    ensures s.threads[t].u == s.threads[o].u ==> t == o
  {
  }

  // ----- Indexes and contexts -----------------------------------------------------------

  lemma MoreIds(r: Registry, n: BugId)
    requires Consistent(r) && PurposesUnique(r) && r.nextId <= n
    ensures Consistent(r.(nextId := n)) && PurposesUnique(r.(nextId := n))
  {
    var r' := r.(nextId := n);
    assert forall id <- r.byId :: Listed(r, id) && Listed(r', id);
    assert forall u, id :: u in r'.byChannel && id in r'.byChannel[u] ==> On(r, u, id) && On(r', u, id);
  }

  lemma IssuedIndexes(s: System, s': System, id: BugId, bug: BugRecord)
    requires IndexesOk(s) && id == s.reg.nextId && s'.reg == s.reg.(nextId := id + 1)
    requires s'.issued == s.issued[id := bug] && s'.registered == s.registered && s'.freed == s.freed
    ensures IndexesOk(s')
  {
    MoreIds(s.reg, id + 1);
  }

  lemma GrantedIndexes(s: System, t: Tid)
    requires IndexesOk(s) && Enabled(s, Check(t))
    requires Validate(s.reg, s.At(t).u, s.At(t).stage.job.cfg).1.Granted?
    ensures IndexesOk(Checked(s, t))
  {
    var verdict := Validate(s.reg, s.At(t).u, s.At(t).stage.job.cfg).1;
    IssuedIndexes(s, Checked(s, t), verdict.id, verdict.bug);
  }

  lemma CheckIndexes(s: System, t: Tid)
    requires IndexesOk(s) && Enabled(s, Check(t))
    ensures IndexesOk(Checked(s, t))
  {
    if Validate(s.reg, s.At(t).u, s.At(t).stage.job.cfg).1.Granted? {
      GrantedIndexes(s, t);
    } else {
      SameIndexes(s, Checked(s, t));
    }
  }

  lemma RecordIndexes(s: System, t: Tid)
    requires IndexesOk(s) && ThreadsOk(s) && Enabled(s, Record(t))
    ensures IndexesOk(Recorded(s, t))
  {
    var stage := s.At(t).stage;
    assert ThreadOk(s, s.threads[t]);
    RegisterKeeps(s.reg, stage.id, stage.bug);
    var r' := Recorded(s, t).reg;
    forall id | id in s.reg.byId && s.reg.byId[id].channel == stage.bug.channel
      && s.reg.byId[id].purpose == stage.bug.purpose
      ensures stage.bug.purpose == RecordingRelay
    {
      assert On(s.reg, stage.bug.channel, id);
    }
  }

  lemma EraseIndexes(s: System, t: Tid)
    requires IndexesOk(s) && Enabled(s, Erase(t))
    ensures IndexesOk(Erased(s, t))
  {
    if Target(s.At(t).stage) in s.reg.byId {
      UnregisterKeeps(s.reg, Target(s.At(t).stage));
    }
  }

  lemma SameIndexes(s: System, s': System)
    requires IndexesOk(s)
    requires s'.reg == s.reg && s'.issued == s.issued && s'.registered == s.registered && s'.freed == s.freed
    ensures IndexesOk(s')
  {
  }

  lemma AddIndexes(s: System, t: Tid, ok: bool)
    requires IndexesOk(s) && ThreadsOk(s) && Enabled(s, Add(t, ok))
    ensures IndexesOk(Added(s, t, ok))
  {
    assert ThreadOk(s, s.threads[t]);
  }

  lemma RemoveIndexes(s: System, t: Tid)
    requires IndexesOk(s) && ThreadsOk(s) && Enabled(s, Remove(t))
    ensures IndexesOk(Removed(s, t))
  {
    assert ThreadOk(s, s.threads[t]);
  }

  lemma LoudIndexes(s: System, step: Step)
    requires IndexesOk(s) && ThreadsOk(s) && Enabled(s, step) && Loud(step)
    ensures IndexesOk(Apply(s, step))
  {
    match step
    case Check(t) => CheckIndexes(s, t);
    case Record(t) => RecordIndexes(s, t);
    case Erase(t) => EraseIndexes(s, t);
    case Add(t, ok) => AddIndexes(s, t, ok);
    case Remove(t) => RemoveIndexes(s, t);
  }

  lemma IndexesStep(s: System, step: Step)
    requires IndexesOk(s) && ThreadsOk(s) && Enabled(s, step)
    ensures IndexesOk(Apply(s, step))
  {
    if Loud(step) { LoudIndexes(s, step); } else { OtherIndexes(s, step); }
  }

  lemma QuietReg(s: System, step: Step)
    requires Enabled(s, step) && !Loud(step)
    ensures Apply(s, step).reg == s.reg && Apply(s, step).issued == s.issued
    ensures Apply(s, step).registered == s.registered && Apply(s, step).freed == s.freed
  {
  }

  lemma OtherIndexes(s: System, step: Step)
    requires IndexesOk(s) && Enabled(s, step) && !Loud(step)
    ensures IndexesOk(Apply(s, step))
  {
    QuietReg(s, step);
    SameIndexes(s, Apply(s, step));
  }

  // ----- Threads ------------------------------------------------------------------------

  /** History only grows, and no registered bug comes back into a chain. */
  ghost predicate Grows(s: System, s': System) {
    && (forall id <- s.issued :: id in s'.issued && s'.issued[id] == s.issued[id])
    && s.registered <= s'.registered
    && s.gone <= s'.gone
    && (forall u, id :: id in s'.Chain(u) && id in s.registered ==> id in s.Chain(u))
  }

  /** Nothing that a thread inside the section of `u` relies on has changed. */
  ghost predicate SameFor(s: System, s': System, u: Uuid) {
    && (forall id :: On(s'.reg, u, id) ==> On(s.reg, u, id) && s'.reg.byId[id] == s.reg.byId[id])
    && (forall id :: On(s.reg, u, id) ==> On(s'.reg, u, id))
    && (forall id :: Issued(s, u, id) && id in s'.registered ==> id in s.registered)
    && (forall id :: Issued(s, u, id) && id in s'.freed ==> id in s.freed)
    && (forall id :: id in s'.Chain(u) ==> id in s.Chain(u))
  }

  lemma StageKept(s: System, s': System, u: Uuid, stage: Stage)
    requires Grows(s, s') && SameFor(s, s', u) && IndexesOk(s') && StageOk(s, u, stage)
    ensures StageOk(s', u, stage)
  {
    if stage.CallRemove? {
      assert stage.id in s'.reg.byId ==> On(s'.reg, u, stage.id);
    }
    if stage.StartDriver? {
      var id :| id in s.reg.byId && On(s.reg, u, id) && s.reg.byId[id].flags.writeReplace;
      assert On(s'.reg, u, id);
    }
  }

  lemma ThreadsKept(s: System, s': System, t: Tid)
    requires LocksOk(s) && ThreadsOk(s) && IndexesOk(s') && Grows(s, s')
    requires t in s'.threads && s'.threads == s.threads[t := s'.threads[t]]
    requires ThreadOk(s', s'.threads[t])
    requires forall u :: SameFor(s, s', u) || (s.At(t).Inside? && s.At(t).u == u)
    ensures ThreadsOk(s')
  {
    forall o | o in s'.threads && o != t
      ensures ThreadOk(s', s'.threads[o])
    {
      assert ThreadOk(s, s.threads[o]);
      if s.threads[o].Inside? {
        if s.At(t).Inside? { OneInside(s, t, o); }
        StageKept(s, s', s.threads[o].u, s.threads[o].stage);
      }
    }
  }

  lemma EnvironmentThreads(s: System, s': System)
    requires ThreadsOk(s) && IndexesOk(s') && Grows(s, s') && s'.threads == s.threads
    requires forall u :: SameFor(s, s', u)
    ensures ThreadsOk(s')
  {
    forall t | t in s'.threads
      ensures ThreadOk(s', s'.threads[t])
    {
      assert ThreadOk(s, s.threads[t]);
      if s.threads[t].Inside? {
        StageKept(s, s', s.threads[t].u, s.threads[t].stage);
      }
    }
  }

  lemma AlikeThread(s: System, s': System, th: Thread)
    requires Alike(s, s')
    ensures ThreadOk(s', th) <==> ThreadOk(s, th)
  {
  }

  lemma AlikeThreads(s: System, s': System, t: Tid)
    requires Alike(s, s') && ThreadsOk(s)
    requires || s'.threads == s.threads
             || (t in s'.threads && s'.threads == s.threads[t := s'.threads[t]] && ThreadOk(s, s'.threads[t]))
    ensures ThreadsOk(s')
  {
    forall o | o in s'.threads
      ensures ThreadOk(s', s'.threads[o])
    {
      AlikeThread(s, s', s'.threads[o]);
    }
  }

  lemma EnterThreads(s: System, step: Step)
    requires ThreadsOk(s) && Enabled(s, step)
    requires step.BeginAttach? || step.BeginDetach? || step.BeginDetachAll? || step.Acquire?
    ensures ThreadsOk(Apply(s, step))
  {
    if step.t in s.threads { assert ThreadOk(s, s.threads[step.t]); }
    AlikeThreads(s, Apply(s, step), step.t);
  }

  lemma LeaveThreads(s: System, step: Step)
    requires ThreadsOk(s) && Enabled(s, step)
    requires step.Unlock? || step.Drop? || step.Prune? || step.Silence? || step.Unsilence?
    ensures ThreadsOk(Apply(s, step))
  {
    assert ThreadOk(s, s.threads[step.t]);
    AlikeThreads(s, Apply(s, step), step.t);
  }

  lemma LocateThreads(s: System, step: Step)
    requires IndexesOk(s) && ThreadsOk(s) && Enabled(s, step) && step.Locate?
    ensures ThreadsOk(Apply(s, step))
  {
    AlikeThreads(s, Apply(s, step), step.t);
  }

  lemma ListThreads(s: System, t: Tid)
    requires IndexesOk(s) && ThreadsOk(s) && ChainsOk(s) && Enabled(s, ListBugs(t))
    ensures ThreadsOk(Apply(s, ListBugs(t)))
  {
    var u := s.At(t).u;
    assert ThreadOk(s, s.threads[t]);
    assert u in s.chains ==> ChainOk(s, u);
    assert RestOk(s, u, ListFor(s.reg, u)) by {
      assert forall id :: u in s.reg.byChannel && id in s.reg.byChannel[u] ==> On(s.reg, u, id);
    }
    AlikeThreads(s, Apply(s, ListBugs(t)), t);
  }

  lemma CheckGrows(s: System, t: Tid)
    requires Enabled(s, Check(t)) && forall id <- s.issued :: id < s.reg.nextId
    ensures Grows(s, Checked(s, t))
  {
  }

  lemma CheckSame(s: System, t: Tid, u: Uuid)
    requires Enabled(s, Check(t)) && forall id <- s.issued :: id < s.reg.nextId
    ensures SameFor(s, Checked(s, t), u)
  {
  }

  lemma CheckStage(s: System, t: Tid)
    requires IndexesOk(s) && ChainsOk(s) && Enabled(s, Check(t))
    ensures ThreadOk(Checked(s, t), Checked(s, t).threads[t])
  {
    var s', u := Checked(s, t), s.At(t).u;
    var stage := s'.threads[t].stage;
    if stage.CallAdd? {
      assert stage.id !in s.Chain(u) by { assert u in s.chains ==> ChainOk(s, u); }
      SamePurposes(s.reg, s'.reg, u);
    }
  }

  lemma CheckThreads(s: System, t: Tid)
    requires LocksOk(s) && IndexesOk(s) && ThreadsOk(s) && ChainsOk(s) && Enabled(s, Check(t))
    requires IndexesOk(Checked(s, t))
    ensures ThreadsOk(Checked(s, t))
  {
    CheckStage(s, t);
    CheckGrows(s, t);
    forall u { CheckSame(s, t, u); }
    ThreadsKept(s, Checked(s, t), t);
  }

  lemma SamePurposes(r: Registry, r': Registry, u: Uuid)
    requires r'.byId == r.byId
    ensures forall p :: HasPurpose(r', u, p) ==> HasPurpose(r, u, p)
    ensures forall p :: HasLaterStage(r', u, p) ==> HasLaterStage(r, u, p)
  {
    forall p
      ensures HasPurpose(r', u, p) ==> HasPurpose(r, u, p)
      ensures HasLaterStage(r', u, p) ==> HasLaterStage(r, u, p)
    {
      if HasPurpose(r', u, p) {
        var id :| id in r'.byId && On(r', u, id) && r'.byId[id].purpose == p;
        assert On(r, u, id);
      }
      if HasLaterStage(r', u, p) {
        var id :| id in r'.byId && On(r', u, id) && StageRank(p) < StageRank(r'.byId[id].purpose);
        assert On(r, u, id);
      }
    }
  }

  lemma AddFrame(s: System, t: Tid, ok: bool, u: Uuid)
    requires Enabled(s, Add(t, ok)) && StageOk(s, s.At(t).u, s.At(t).stage)
    ensures Grows(s, Added(s, t, ok))
    ensures u != s.At(t).u ==> SameFor(s, Added(s, t, ok), u)
  {
  }

  lemma AddThreads(s: System, t: Tid, ok: bool)
    requires LocksOk(s) && ThreadsOk(s) && Enabled(s, Add(t, ok)) && IndexesOk(Added(s, t, ok))
    ensures ThreadsOk(Added(s, t, ok))
  {
    assert ThreadOk(s, s.threads[t]);
    AddFrame(s, t, ok, "");
    forall u { AddFrame(s, t, ok, u); }
    ThreadsKept(s, Added(s, t, ok), t);
  }

  lemma RecordFrame(s: System, t: Tid, u: Uuid)
    requires Consistent(s.reg) && Enabled(s, Record(t)) && StageOk(s, s.At(t).u, s.At(t).stage)
    requires forall id <- s.reg.byId :: id in s.registered
    requires forall id <- s.issued :: id < s.reg.nextId
    ensures Grows(s, Recorded(s, t))
    ensures u != s.At(t).u ==> SameFor(s, Recorded(s, t), u)
    ensures ThreadOk(Recorded(s, t), Recorded(s, t).threads[t])
  {
    RegisterKeeps(s.reg, s.At(t).stage.id, s.At(t).stage.bug);
    assert On(Recorded(s, t).reg, s.At(t).u, s.At(t).stage.id);
  }

  lemma RecordThreads(s: System, t: Tid)
    requires LocksOk(s) && IndexesOk(s) && ThreadsOk(s) && Enabled(s, Record(t)) && IndexesOk(Recorded(s, t))
    ensures ThreadsOk(Recorded(s, t))
  {
    assert ThreadOk(s, s.threads[t]);
    RecordFrame(s, t, "");
    forall u { RecordFrame(s, t, u); }
    ThreadsKept(s, Recorded(s, t), t);
  }

  /** The indexes hold what was issued, and nothing whose context is gone. */
  predicate HoldsIssued(s: System) {
    && (forall id <- s.reg.byId :: id in s.issued && s.issued[id] == s.reg.byId[id])
    && (forall id <- s.freed :: id !in s.reg.byId)
  }

  lemma EraseFrame(s: System, t: Tid, u: Uuid)
    requires HoldsIssued(s) && Enabled(s, Erase(t)) && StageOk(s, s.At(t).u, s.At(t).stage)
    ensures Grows(s, Erased(s, t))
    ensures u != s.At(t).u ==> SameFor(s, Erased(s, t), u)
  {
    assert s.At(t).stage.Sweep? ==> Target(s.At(t).stage) in s.At(t).stage.rest;
  }

  lemma RestDetachable(s: System, u: Uuid, stage: Stage)
    requires AboutToDetach(stage) && StageOk(s, u, stage)
    ensures Detachable(s, u, Target(stage), stage.Ready? && stage.job.callRemove)
    ensures RestOk(s, u, if stage.Ready? then [] else stage.rest[1..])
  {
    if stage.Sweep? {
      assert Target(stage) in stage.rest;
      assert forall x :: x in stage.rest[1..] ==> x in stage.rest;
    }
  }

  lemma EraseStage(s: System, t: Tid)
    requires HoldsIssued(s) && Enabled(s, Erase(t)) && StageOk(s, s.At(t).u, s.At(t).stage)
    ensures ThreadOk(Erased(s, t), Erased(s, t).threads[t])
  {
    RestDetachable(s, s.At(t).u, s.At(t).stage);
  }

  lemma EraseThreads(s: System, t: Tid)
    requires LocksOk(s) && HoldsIssued(s) && ThreadsOk(s) && Enabled(s, Erase(t)) && IndexesOk(Erased(s, t))
    ensures ThreadsOk(Erased(s, t))
  {
    assert ThreadOk(s, s.threads[t]);
    EraseStage(s, t);
    EraseFrame(s, t, "");
    forall u { EraseFrame(s, t, u); }
    InsideSteps(s, Erase(t));
    ThreadsKept(s, Erased(s, t), t);
  }

  lemma RemoveFrame(s: System, t: Tid, u: Uuid)
    requires Enabled(s, Remove(t)) && StageOk(s, s.At(t).u, s.At(t).stage)
    ensures Grows(s, Removed(s, t))
    ensures u != s.At(t).u ==> SameFor(s, Removed(s, t), u)
    ensures ThreadOk(Removed(s, t), Removed(s, t).threads[t])
  {
  }

  lemma RemoveThreads(s: System, t: Tid)
    requires LocksOk(s) && ThreadsOk(s) && Enabled(s, Remove(t)) && IndexesOk(Removed(s, t))
    ensures ThreadsOk(Removed(s, t))
  {
    assert ThreadOk(s, s.threads[t]);
    RemoveFrame(s, t, "");
    forall u { RemoveFrame(s, t, u); }
    ThreadsKept(s, Removed(s, t), t);
  }

  lemma ChainShrinkThreads(s: System, s': System)
    requires ThreadsOk(s) && IndexesOk(s) && s'.(chains := s.chains, gone := s.gone) == s && s.gone <= s'.gone
    requires forall u, id :: id in s'.Chain(u) ==> id in s.Chain(u)
    ensures ThreadsOk(s')
  {
    assert Grows(s, s');
    forall v
      ensures SameFor(s, s', v)
    {
    }
    EnvironmentThreads(s, s');
  }

  lemma OutsideThreads(s: System, step: Step)
    requires IndexesOk(s) && ThreadsOk(s) && Enabled(s, step) && (ByFreeSwitch(step) || ByRegistry(step))
    ensures ThreadsOk(Apply(s, step))
  {
    match step
    case FsUnlink(_, _) => ChainShrinkThreads(s, Apply(s, step));
    case FsDestroy(_) => ChainShrinkThreads(s, Apply(s, step));
    case RemoveDriver(_) => AlikeThreads(s, Apply(s, step), 0);
    case DrainDrivers => AlikeThreads(s, Apply(s, step), 0);
  }

  lemma LoudThreads(s: System, step: Step)
    requires LocksOk(s) && IndexesOk(s) && ThreadsOk(s) && ChainsOk(s) && Enabled(s, step) && Loud(step)
    requires IndexesOk(Apply(s, step))
    ensures ThreadsOk(Apply(s, step))
  {
    match step
    case Check(t) => CheckThreads(s, t);
    case Add(t, ok) => AddThreads(s, t, ok);
    case Record(t) => RecordThreads(s, t);
    case Erase(t) => EraseThreads(s, t);
    case Remove(t) => RemoveThreads(s, t);
  }

  lemma QuietThreads(s: System, step: Step)
    requires IndexesOk(s) && ThreadsOk(s) && ChainsOk(s) && Enabled(s, step)
    requires !Loud(step) && !ByFreeSwitch(step) && !ByRegistry(step)
    ensures ThreadsOk(Apply(s, step))
  {
    match step
    case Locate(_, _, _) => LocateThreads(s, step);
    case ListBugs(t) => ListThreads(s, t);
    case BeginAttach(_, _, _) => EnterThreads(s, step);
    case BeginDetach(_) => EnterThreads(s, step);
    case BeginDetachAll(_, _) => EnterThreads(s, step);
    case Acquire(_) => EnterThreads(s, step);
    case _ => LeaveThreads(s, step);
  }

  lemma ThreadsStep(s: System, step: Step)
    requires LocksOk(s) && IndexesOk(s) && ThreadsOk(s) && ChainsOk(s) && Enabled(s, step)
    requires IndexesOk(Apply(s, step))
    ensures ThreadsOk(Apply(s, step))
  {
    if Loud(step) {
      LoudThreads(s, step);
    } else if ByFreeSwitch(step) || ByRegistry(step) {
      OutsideThreads(s, step);
    } else {
      QuietThreads(s, step);
    }
  }

  // ----- Chains -------------------------------------------------------------------------

  /** A step of `t` that leaves chain `u` alone also keeps what held its bugs. */
  lemma ChainKept(s: System, s': System, t: Tid, u: Uuid)
    requires ChainOk(s, u) && s'.Chain(u) == s.Chain(u) && (u in s'.gone ==> u in s.gone) && Grows(s, s')
    requires t in s'.threads && s'.threads == s.threads[t := s'.threads[t]]
    requires forall id :: id in s.Chain(u) && (id in s.reg.byId || Keeps(s.At(t), u, id)) ==>
               id in s'.reg.byId || Keeps(s'.threads[t], u, id)
    ensures ChainOk(s', u)
  {
    forall id | id in s'.Chain(u)
      ensures id in s'.reg.byId || exists o <- s'.threads :: Keeps(s'.threads[o], u, id)
    {
      if id !in s.reg.byId {
        var o :| o in s.threads && Keeps(s.threads[o], u, id);
        assert o in s'.threads;
      }
    }
  }

  lemma ShorterChain(s: System, s': System, u: Uuid)
    requires ChainOk(s, u) && s'.threads == s.threads && s'.reg == s.reg && s'.issued == s.issued
    requires Distinct(s'.Chain(u)) && (forall id <- s'.Chain(u) :: id in s.Chain(u))
    requires u in s'.gone ==> s'.Chain(u) == []
    ensures ChainOk(s', u)
  {
  }

  lemma AddChains(s: System, t: Tid)
    requires ThreadsOk(s) && ChainsOk(s) && Enabled(s, Add(t, true))
    ensures ChainsOk(Added(s, t, true))
  {
    var s', th := Added(s, t, true), s.At(t);
    assert ThreadOk(s, s.threads[t]);
    AddFrame(s, t, true, th.u);
    forall u | u in s'.chains
      ensures ChainOk(s', u)
    {
      assert u in s.chains ==> ChainOk(s, u);
      if u != th.u {
        ChainKept(s, s', t, u);
      } else {
        assert Keeps(s'.threads[t], u, th.stage.id);
        forall id | id in s.Chain(u) && id !in s.reg.byId
          ensures exists o <- s'.threads :: Keeps(s'.threads[o], u, id)
        {
          var o :| o in s.threads && Keeps(s.threads[o], u, id);
          assert o != t && o in s'.threads;
        }
      }
    }
  }

  lemma RemoveChains(s: System, t: Tid)
    requires ThreadsOk(s) && ChainsOk(s) && Enabled(s, Remove(t))
    ensures ChainsOk(Removed(s, t))
  {
    var s', th := Removed(s, t), s.At(t);
    assert ThreadOk(s, s.threads[t]);
    RemoveFrame(s, t, th.u);
    var mid := s.(chains := s'.chains);
    forall u | u in s'.chains
      ensures ChainOk(s', u)
    {
      assert u in s.chains ==> ChainOk(s, u);
      ShorterChain(s, mid, u);
      RemovedChain(s, mid, s', t, u);
    }
  }

  lemma RemovedChain(s: System, mid: System, s': System, t: Tid, u: Uuid)
    requires ThreadsOk(s) && Enabled(s, Remove(t)) && s' == Removed(s, t)
    requires mid == s.(chains := s'.chains) && ChainOk(mid, u)
    ensures ChainOk(s', u)
  {
    var stage := s.At(t).stage;
    assert ThreadOk(s, s.threads[t]);
    assert Keeps(mid.At(t), u, stage.id) ==> stage.id !in mid.Chain(u);
    ChainKept(mid, s', t, u);
  }

  lemma RecordChains(s: System, t: Tid)
    requires IndexesOk(s) && ThreadsOk(s) && ChainsOk(s) && Enabled(s, Record(t))
    ensures ChainsOk(Recorded(s, t))
  {
    var s' := Recorded(s, t);
    assert ThreadOk(s, s.threads[t]);
    RecordFrame(s, t, "");
    forall u | u in s'.chains
      ensures ChainOk(s', u)
    {
      assert ChainOk(s, u);
      ChainKept(s, s', t, u);
    }
  }

  lemma EraseChains(s: System, t: Tid)
    requires HoldsIssued(s) && ThreadsOk(s) && ChainsOk(s) && Enabled(s, Erase(t))
    ensures ChainsOk(Erased(s, t))
  {
    var s' := Erased(s, t);
    assert ThreadOk(s, s.threads[t]);
    EraseFrame(s, t, "");
    InsideSteps(s, Erase(t));
    forall u | u in s'.chains
      ensures ChainOk(s', u)
    {
      assert ChainOk(s, u);
      EraseHolds(s, t, u);
      ChainKept(s, s', t, u);
    }
  }

  /** The bug leaving the indexes is either off the chain or kept by the thread removing it. */
  lemma EraseHolds(s: System, t: Tid, u: Uuid)
    requires HoldsIssued(s) && Enabled(s, Erase(t)) && StageOk(s, s.At(t).u, s.At(t).stage) && ChainOk(s, u)
    ensures var s' := Erased(s, t);
            forall id :: id in s.Chain(u) && (id in s.reg.byId || Keeps(s.At(t), u, id)) ==>
              id in s'.reg.byId || (t in s'.threads && Keeps(s'.threads[t], u, id))
  {
    var id := Target(s.At(t).stage);
    assert s.At(t).stage.Sweep? ==> id in s.At(t).stage.rest;
  }

  /** A thread moves, and neither a chain nor the set of registered ids changes. */
  lemma MovedChains(s: System, s': System, t: Tid)
    requires ChainsOk(s) && s'.chains == s.chains && s'.gone == s.gone && s'.reg.byId == s.reg.byId
    requires s'.registered == s.registered && forall id <- s.issued :: id in s'.issued && s'.issued[id] == s.issued[id]
    requires t in s'.threads && s'.threads == s.threads[t := s'.threads[t]]
    requires !s.At(t).Inside? || (!s.At(t).stage.Commit? && !s.At(t).stage.CallRemove?)
    ensures ChainsOk(s')
  {
    forall u | u in s'.chains
      ensures ChainOk(s', u)
    {
      assert ChainOk(s, u);
      ChainKept(s, s', t, u);
    }
  }

  lemma EnterChains(s: System, step: Step)
    requires ChainsOk(s) && Enabled(s, step)
    requires step.BeginAttach? || step.BeginDetach? || step.BeginDetachAll? || step.Acquire? || step.Locate?
    ensures ChainsOk(Apply(s, step))
  {
    if Apply(s, step) != s { MovedChains(s, Apply(s, step), step.t); }
  }

  lemma LeaveChains(s: System, step: Step)
    requires ChainsOk(s) && Enabled(s, step)
    requires step.Unlock? || step.Drop? || step.Prune? || step.Silence? || step.Unsilence? || step.ListBugs?
    ensures ChainsOk(Apply(s, step))
  {
    MovedChains(s, Apply(s, step), step.t);
  }

  lemma RefusedChains(s: System, step: Step)
    requires ChainsOk(s) && Enabled(s, step) && (step.Check? || (step.Add? && !step.ok))
    requires forall id <- s.issued :: id < s.reg.nextId
    ensures ChainsOk(Apply(s, step))
  {
    MovedChains(s, Apply(s, step), step.t);
  }

  lemma EnvironmentChains(s: System, step: Step)
    requires ChainsOk(s) && (step.FsUnlink? || step.FsDestroy?)
    ensures ChainsOk(Apply(s, step))
  {
    var s' := Apply(s, step);
    forall u | u in s'.chains
      ensures ChainOk(s', u)
    {
      assert u in s.chains ==> ChainOk(s, u);
      ShorterChain(s, s', u);
    }
  }

  lemma SameChains(s: System, drivers: set<Uuid>)
    requires ChainsOk(s)
    ensures ChainsOk(s.(drivers := drivers))
  {
    assert forall u <- s.chains :: ChainOk(s, u) ==> ChainOk(s.(drivers := drivers), u);
  }

  lemma OutsideChains(s: System, step: Step)
    requires ChainsOk(s) && Enabled(s, step) && (ByFreeSwitch(step) || ByRegistry(step))
    ensures ChainsOk(Apply(s, step))
  {
    match step
    case FsUnlink(_, _) => EnvironmentChains(s, step);
    case FsDestroy(_) => EnvironmentChains(s, step);
    case RemoveDriver(u) => SameChains(s, s.drivers - {u});
    case DrainDrivers => SameChains(s, {});
  }

  lemma LoudChains(s: System, step: Step)
    requires IndexesOk(s) && ThreadsOk(s) && ChainsOk(s) && Enabled(s, step) && Loud(step)
    ensures ChainsOk(Apply(s, step))
  {
    match step
    case Check(_) => RefusedChains(s, step);
    case Add(t, ok) => if ok { AddChains(s, t); } else { RefusedChains(s, step); }
    case Remove(t) => RemoveChains(s, t);
    case Record(t) => RecordChains(s, t);
    case Erase(t) => EraseChains(s, t);
  }

  lemma ChainsStep(s: System, step: Step)
    requires IndexesOk(s) && ThreadsOk(s) && ChainsOk(s) && Enabled(s, step)
    ensures ChainsOk(Apply(s, step))
  {
    if Loud(step) {
      LoudChains(s, step);
    } else if ByFreeSwitch(step) || ByRegistry(step) {
      OutsideChains(s, step);
    } else if step.BeginAttach? || step.BeginDetach? || step.BeginDetachAll? || step.Acquire? || step.Locate? {
      EnterChains(s, step);
    } else {
      LeaveChains(s, step);
    }
  }

  // ----- Silence drivers ----------------------------------------------------------------

  /** A driver that had a reason to run still has one. */
  lemma DriverKept(s: System, s': System, t: Tid, u: Uuid)
    requires HasWriteReplace(s.reg, u) || exists o <- s.threads :: Stopping(s.threads[o], u)
    requires t in s'.threads && s'.threads == s.threads[t := s'.threads[t]]
    requires HasWriteReplace(s.reg, u) || Stopping(s.At(t), u) ==>
               HasWriteReplace(s'.reg, u) || Stopping(s'.threads[t], u)
    ensures HasWriteReplace(s'.reg, u) || exists o <- s'.threads :: Stopping(s'.threads[o], u)
  {
    if !HasWriteReplace(s.reg, u) {
      var o :| o in s.threads && Stopping(s.threads[o], u);
      assert o in s'.threads;
    }
  }

  lemma RecordDrivers(s: System, t: Tid, u: Uuid)
    requires Enabled(s, Record(t)) && s.At(t).stage.id !in s.reg.byId && HasWriteReplace(s.reg, u)
    ensures HasWriteReplace(Recorded(s, t).reg, u)
  {
    var id :| id in s.reg.byId && On(s.reg, u, id) && s.reg.byId[id].flags.writeReplace;
    assert On(Recorded(s, t).reg, u, id);
  }

  lemma EraseDrivers(s: System, t: Tid, u: Uuid)
    requires HoldsIssued(s) && Enabled(s, Erase(t)) && StageOk(s, s.At(t).u, s.At(t).stage) && HasWriteReplace(s.reg, u)
    ensures HasWriteReplace(Erased(s, t).reg, u) || Stopping(Erased(s, t).threads[t], u)
  {
    RestDetachable(s, s.At(t).u, s.At(t).stage);
    if Target(s.At(t).stage) in s.reg.byId { StillWriteReplace(s.reg, Target(s.At(t).stage), u); }
  }

  /** A WRITE_REPLACE bug goes, and another one of its channel stays or the driver stops. */
  lemma StillWriteReplace(r: Registry, target: BugId, u: Uuid)
    requires target in r.byId && HasWriteReplace(r, u)
    ensures HasWriteReplace(Unregister(r, target), u) || (r.byId[target].channel == u && StopsDriver(r, target))
  {
    var id :| id in r.byId && On(r, u, id) && r.byId[id].flags.writeReplace;
    if id != target { assert On(Unregister(r, target), u, id); }
  }

  lemma CheckDrivers(s: System, t: Tid, u: Uuid)
    requires Enabled(s, Check(t)) && HasWriteReplace(s.reg, u)
    ensures HasWriteReplace(Checked(s, t).reg, u)
  {
    var id :| id in s.reg.byId && On(s.reg, u, id) && s.reg.byId[id].flags.writeReplace;
    assert On(Checked(s, t).reg, u, id);
  }

  /** Every driver of the new state had a reason before, and step `t` kept it. */
  lemma DriversKept(s: System, s': System, t: Tid)
    requires DriversOk(s) && s'.cap == s.cap && |s'.drivers| <= s.cap
    requires t in s'.threads && s'.threads == s.threads[t := s'.threads[t]]
    requires forall u <- s'.drivers :: u in s.drivers || HasWriteReplace(s.reg, u)
    requires forall u <- s'.drivers :: HasWriteReplace(s.reg, u) || Stopping(s.At(t), u) ==>
               HasWriteReplace(s'.reg, u) || Stopping(s'.threads[t], u)
    ensures DriversOk(s')
  {
    forall u | u in s'.drivers
      ensures HasWriteReplace(s'.reg, u) || exists o <- s'.threads :: Stopping(s'.threads[o], u)
    {
      DriverKept(s, s', t, u);
    }
  }

  lemma FewerDrivers(s: System, drivers: set<Uuid>)
    requires DriversOk(s) && drivers <= s.drivers
    ensures DriversOk(s.(drivers := drivers))
  {
    SubsetSize(drivers, s.drivers);
  }

  lemma QuietDrivers(s: System, step: Step)
    requires DriversOk(s) && Enabled(s, step)
    requires step.BeginAttach? || step.BeginDetach? || step.BeginDetachAll? || step.Acquire? || step.Unlock?
      || step.Drop? || step.Prune? || step.Locate? || step.ListBugs? || step.Add? || step.Remove?
    ensures DriversOk(Apply(s, step))
  {
    if Apply(s, step) != s {
      DriversKept(s, Apply(s, step), step.t);
    }
  }

  /** A step of `t` inside the section that starts and stops no driver. */
  lemma IndexDrivers(s: System, s': System, t: Tid)
    requires DriversOk(s) && StaysInside(s, s', t) && s'.drivers == s.drivers && s'.cap == s.cap
    requires !Stopping(s.At(t), s.At(t).u)
    requires forall u :: HasWriteReplace(s.reg, u) ==> HasWriteReplace(s'.reg, u) || Stopping(s'.threads[t], u)
    ensures DriversOk(s')
  {
    DriversKept(s, s', t);
  }

  lemma CheckedDrivers(s: System, t: Tid)
    requires DriversOk(s) && Enabled(s, Check(t))
    ensures DriversOk(Checked(s, t))
  {
    forall u | HasWriteReplace(s.reg, u) { CheckDrivers(s, t, u); }
    IndexDrivers(s, Checked(s, t), t);
  }

  lemma RecordedDrivers(s: System, t: Tid)
    requires IndexesOk(s) && ThreadsOk(s) && DriversOk(s) && Enabled(s, Record(t))
    ensures DriversOk(Recorded(s, t))
  {
    assert ThreadOk(s, s.threads[t]);
    forall u | HasWriteReplace(s.reg, u) { RecordDrivers(s, t, u); }
    IndexDrivers(s, Recorded(s, t), t);
  }

  lemma ErasedDrivers(s: System, t: Tid)
    requires HoldsIssued(s) && ThreadsOk(s) && DriversOk(s) && Enabled(s, Erase(t))
    ensures DriversOk(Erased(s, t))
  {
    assert ThreadOk(s, s.threads[t]);
    forall u | HasWriteReplace(s.reg, u) { EraseDrivers(s, t, u); }
    IndexDrivers(s, Erased(s, t), t);
  }

  lemma ToggleDrivers(s: System, step: Step)
    requires ThreadsOk(s) && DriversOk(s) && Enabled(s, step)
    requires step.Silence? || step.Unsilence?
    ensures DriversOk(Apply(s, step))
  {
    var s' := Apply(s, step);
    assert ThreadOk(s, s.threads[step.t]);
    if step.Unsilence? { SubsetSize(s'.drivers, s.drivers); }
    DriversKept(s, s', step.t);
  }

  lemma DriversStep(s: System, step: Step)
    requires Inv(s) && Enabled(s, step)
    ensures DriversOk(Apply(s, step))
  {
    match step
    case Check(t) => CheckedDrivers(s, t);
    case Record(t) => RecordedDrivers(s, t);
    case Erase(t) => ErasedDrivers(s, t);
    case Silence(_, _) => ToggleDrivers(s, step);
    case Unsilence(_) => ToggleDrivers(s, step);
    case FsUnlink(_, _) =>
    case FsDestroy(_) =>
    case RemoveDriver(u) => FewerDrivers(s, s.drivers - {u});
    case DrainDrivers => FewerDrivers(s, {});
    case _ => QuietDrivers(s, step);
  }
}
