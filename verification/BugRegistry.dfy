/** Media bug purposes and their stage ranks (src/media/purpose.cc). */
module Purposes {

  datatype Purpose =
    | Unspecified
    | TtsPlayback
    | SttTranscribe
    | VoicebotDuplexRead
    | VoicebotDuplexWrite
    | AmdDetect
    | RecordingRelay
    | VadBargeIn
    | Test

  /** EARLY, MID_READ, INJECT and LATE are 1, 2, 3 and 4. */
  function StageRank(p: Purpose): (rank: nat)
    ensures 1 <= rank <= 4
    ensures rank == 1 <==> p == VadBargeIn
    ensures rank == 2 <==> p == SttTranscribe || p == VoicebotDuplexRead || p == AmdDetect
    ensures rank == 3 <==> p == TtsPlayback || p == VoicebotDuplexWrite
  {
    match p
    case VadBargeIn => 1
    case SttTranscribe | VoicebotDuplexRead | AmdDetect => 2
    case TtsPlayback | VoicebotDuplexWrite => 3
    case RecordingRelay | Test | Unspecified => 4
  }

  predicate Injects(p: Purpose) {
    p == TtsPlayback || p == VoicebotDuplexWrite
  }
}

/** The registry of MediaBugManager: what each critical section under `mu_` does to the two
    indexes, as functions on values, and the class that does it in place with loops. */
module BugRegistry {
  import opened Basics
  import opened Purposes

  type Uuid = string
  type BugId = nat
  type MutexId = nat

  /** The two SMBF bits the manager reads: insert at the head, and WRITE_REPLACE. */
  datatype Flags = Flags(first: bool, writeReplace: bool)

  datatype BugConfig = BugConfig(purpose: Purpose, flags: Flags)

  datatype BugRecord = BugRecord(purpose: Purpose, channel: Uuid, flags: Flags)

  datatype Registry = Registry(
    byId: map<BugId, BugRecord>,
    byChannel: map<Uuid, seq<BugId>>,
    nextId: BugId)

  datatype Refusal = RelayNeedsInject | PurposeTaken | OutOfOrder

  datatype Verdict = Refused(why: Refusal) | Granted(id: BugId, bug: BugRecord)

  /** Both indexes describe the same bugs: no duplicate id, no empty list, every id below
      the next one. */
  predicate Consistent(r: Registry) {
    && (forall id <- r.byId :: id < r.nextId && Listed(r, id))
    && (forall u <- r.byChannel :: r.byChannel[u] != [] && Distinct(r.byChannel[u]))
    && (forall u, id :: u in r.byChannel && id in r.byChannel[u] ==> On(r, u, id))
  }

  predicate Listed(r: Registry, id: BugId)
    requires id in r.byId
  {
    r.byId[id].channel in r.byChannel && id in r.byChannel[r.byId[id].channel]
  }

  /** `id` is a registered bug of channel `u`. */
  predicate On(r: Registry, u: Uuid, id: BugId) {
    id in r.byId && r.byId[id].channel == u
  }

  predicate HasPurpose(r: Registry, u: Uuid, p: Purpose) {
    exists id <- r.byId :: On(r, u, id) && r.byId[id].purpose == p
  }

  predicate HasInject(r: Registry, u: Uuid) {
    exists id <- r.byId :: On(r, u, id) && Injects(r.byId[id].purpose)
  }

  predicate HasWriteReplace(r: Registry, u: Uuid) {
    exists id <- r.byId :: On(r, u, id) && r.byId[id].flags.writeReplace
  }

  /** Some bug of the channel belongs to a later stage than `p`. */
  predicate HasLaterStage(r: Registry, u: Uuid, p: Purpose) {
    exists id <- r.byId :: On(r, u, id) && StageRank(p) < StageRank(r.byId[id].purpose)
  }

  /** Attach, first critical section: the checks in their order, then the id. */
  function Validate(r: Registry, u: Uuid, cfg: BugConfig): (Registry, Verdict) {
    if cfg.purpose == RecordingRelay && !HasInject(r, u) then
      (r, Refused(RelayNeedsInject))
    else if cfg.purpose != RecordingRelay && HasPurpose(r, u, cfg.purpose) then
      (r, Refused(PurposeTaken))
    else if cfg.purpose != VadBargeIn && HasLaterStage(r, u, cfg.purpose) && !cfg.flags.first then
      (r, Refused(OutOfOrder))
    else
      var flags := if cfg.purpose == VadBargeIn then cfg.flags.(first := true) else cfg.flags;
      (r.(nextId := r.nextId + 1), Granted(r.nextId, BugRecord(cfg.purpose, u, flags)))
  }

  /** A bug of one of the two purposes that inject audio is registered on the channel. */
  predicate InjectPresent(byId: map<BugId, BugRecord>, u: Uuid) {
    exists id <- byId ::
      byId[id].channel == u && (byId[id].purpose == TtsPlayback || byId[id].purpose == VoicebotDuplexWrite)
  }

  predicate PurposePresent(byId: map<BugId, BugRecord>, u: Uuid, p: Purpose) {
    exists id <- byId :: byId[id].channel == u && byId[id].purpose == p
  }

  predicate LaterPresent(byId: map<BugId, BugRecord>, u: Uuid, p: Purpose) {
    exists id <- byId :: byId[id].channel == u && StageRank(p) < StageRank(byId[id].purpose)
  }

  /** The scans over a channel see exactly the bugs registered on it. */
  lemma InjectScan(r: Registry, u: Uuid)
    ensures HasInject(r, u) <==> InjectPresent(r.byId, u)
  {
    forall id | id in r.byId
      ensures On(r, u, id) <==> r.byId[id].channel == u
    {
    }
  }

  lemma PurposeScan(r: Registry, u: Uuid, p: Purpose)
    ensures HasPurpose(r, u, p) <==> PurposePresent(r.byId, u, p)
  {
    forall id | id in r.byId
      ensures On(r, u, id) <==> r.byId[id].channel == u
    {
    }
  }

  lemma LaterScan(r: Registry, u: Uuid, p: Purpose)
    ensures HasLaterStage(r, u, p) <==> LaterPresent(r.byId, u, p)
  {
    forall id | id in r.byId
      ensures On(r, u, id) <==> r.byId[id].channel == u
    {
    }
  }

  /** Which verdict an attach gets, for every purpose, over the registered bugs: a relay needs an
      inject bug, any other purpose must be free, and all but VAD must not come before a later
      stage unless the caller asks for the head. A refusal changes nothing. */
  lemma VerdictExact(r: Registry, u: Uuid, cfg: BugConfig)
    ensures var (r', v) := Validate(r, u, cfg); var relay := cfg.purpose == RecordingRelay;
            && (v == Refused(RelayNeedsInject) <==> relay && !InjectPresent(r.byId, u))
            && (v == Refused(PurposeTaken) <==> !relay && PurposePresent(r.byId, u, cfg.purpose))
            && (v == Refused(OutOfOrder) <==>
                  && !relay && cfg.purpose != VadBargeIn && !PurposePresent(r.byId, u, cfg.purpose)
                  && LaterPresent(r.byId, u, cfg.purpose) && !cfg.flags.first)
            && (v.Refused? ==> r' == r)
            && (v.Granted? ==> v.id == r.nextId && r' == r.(nextId := v.id + 1))
            && (v.Granted? ==>
                  && v.bug.purpose == cfg.purpose && v.bug.channel == u
                  && v.bug.flags.writeReplace == cfg.flags.writeReplace
                  && (v.bug.flags.first <==> cfg.flags.first || cfg.purpose == VadBargeIn))
  {
    InjectScan(r, u);
    PurposeScan(r, u, cfg.purpose);
    LaterScan(r, u, cfg.purpose);
  }

  function ListFor(r: Registry, u: Uuid): seq<BugId> {
    if u in r.byChannel then r.byChannel[u] else []
  }

  /** Attach, second critical section. */
  function Register(r: Registry, id: BugId, bug: BugRecord): Registry {
    r.(byId := r.byId[id := bug],
       byChannel := r.byChannel[bug.channel := ListFor(r, bug.channel) + [id]])
  }

  /** DetachInternalLocked, the critical section. */
  function Unregister(r: Registry, id: BugId): Registry
    requires id in r.byId
  {
    var u := r.byId[id].channel;
    var rest := Without(ListFor(r, u), id);
    Registry(r.byId - {id},
             if u !in r.byChannel then r.byChannel
             else if rest == [] then r.byChannel - {u}
             else r.byChannel[u := rest],
             r.nextId)
  }

  /** The silence driver has to stop when the last WRITE_REPLACE bug of a channel goes. */
  predicate StopsDriver(r: Registry, id: BugId)
    requires id in r.byId
  {
    r.byId[id].flags.writeReplace && !HasWriteReplace(Unregister(r, id), r.byId[id].channel)
  }

  lemma RegisterKeeps(r: Registry, id: BugId, bug: BugRecord)
    requires Consistent(r) && id < r.nextId && id !in r.byId
    ensures Consistent(Register(r, id, bug))
    ensures forall u, x :: On(Register(r, id, bug), u, x) <==> On(r, u, x) || (x == id && u == bug.channel)
  {
    var r' := Register(r, id, bug);
    var list := ListFor(r, bug.channel);
    assert id in list ==> On(r, bug.channel, id);
    forall u, x | u in r'.byChannel && x in r'.byChannel[u]
      ensures On(r', u, x)
    {
      if u == bug.channel && x in list { assert On(r, u, x); }
      if u != bug.channel { assert On(r, u, x); }
    }
    forall x | x in r'.byId
      ensures Listed(r', x)
    {
      if x != id { assert Listed(r, x); }
    }
  }

  lemma UnregisterKeeps(r: Registry, id: BugId)
    requires Consistent(r) && id in r.byId
    ensures Consistent(Unregister(r, id))
    ensures Unregister(r, id).byId == r.byId - {id}
  {
    var r' := Unregister(r, id);
    assert Listed(r, id);
    forall x | x in r'.byId
      ensures Listed(r', x)
    {
      assert Listed(r, x);
    }
    forall u, x | u in r'.byChannel && x in r'.byChannel[u]
      ensures On(r', u, x)
    {
      assert On(r, u, x);
    }
  }

  /** Registering a bug and detaching it again gives back both indexes. */
  lemma DetachUndoesAttach(r: Registry, id: BugId, bug: BugRecord)
    requires Consistent(r) && id < r.nextId && id !in r.byId
    ensures Unregister(Register(r, id, bug), id) == r
  {
    var list := ListFor(r, bug.channel);
    assert id in list ==> On(r, bug.channel, id);
    WithoutAppended(list, id);
    assert r.byId[id := bug] - {id} == r.byId;
    var r' := Unregister(Register(r, id, bug), id);
    assert r'.byChannel == r.byChannel;
  }

  /** The per-channel lifecycle locks. A table value is a weak reference: it names a mutex
      that exists only while some thread holds a strong reference to it. */
  datatype LockTable = LockTable(locks: map<Uuid, MutexId>, nextMutex: MutexId)

  /** ChannelLockFor: the live mutex of the channel, or a new one in its place. */
  function LockFor(table: LockTable, live: set<MutexId>, u: Uuid): (LockTable, MutexId) {
    if u in table.locks && table.locks[u] in live then
      (table, table.locks[u])
    else
      (LockTable(table.locks[u := table.nextMutex], table.nextMutex + 1), table.nextMutex)
  }

  /** PruneExpiredChannelLock: only a dead entry goes. */
  function PruneLock(table: LockTable, live: set<MutexId>, u: Uuid): LockTable {
    if u in table.locks && table.locks[u] !in live then
      table.(locks := table.locks - {u})
    else
      table
  }

  /** MediaBugManager: the indexes updated in place, with the scans as loops. */
  class MediaBugManager {
    var byId: map<BugId, BugRecord>
    var byChannel: map<Uuid, seq<BugId>>
    var nextId: BugId
    var channelLocks: map<Uuid, MutexId>
    var nextMutex: MutexId

    ghost function Value(): Registry
      reads this
    {
      Registry(byId, byChannel, nextId)
    }

    ghost predicate Valid()
      reads this
    {
      Consistent(Value())
    }

    constructor ()
      ensures Valid() && Value() == Registry(map[], map[], 1) && Locks() == LockTable(map[], 0)
    {
      byId, byChannel, nextId, channelLocks, nextMutex := map[], map[], 1, map[], 0;
    }

    ghost function Locks(): LockTable
      reads this
    {
      LockTable(channelLocks, nextMutex)
    }

    /** `live` is the set of mutexes some thread still refers to; it decides whether the weak
        reference in the table can be promoted. */
    method ChannelLockFor(u: Uuid, live: set<MutexId>) returns (m: MutexId)
      modifies `channelLocks, `nextMutex
      ensures (Locks(), m) == LockFor(old(Locks()), live, u)
    {
      if u in channelLocks {
        if channelLocks[u] in live {
          return channelLocks[u];
        }
        channelLocks := channelLocks - {u};
      }
      m := nextMutex;
      nextMutex := nextMutex + 1;
      channelLocks := channelLocks[u := m];
      assert channelLocks == old(channelLocks)[u := m];
    }

    method PruneExpiredChannelLock(u: Uuid, live: set<MutexId>)
      modifies `channelLocks
      ensures Locks() == PruneLock(old(Locks()), live, u)
    {
      if u in channelLocks && channelLocks[u] !in live {
        channelLocks := channelLocks - {u};
      }
    }

    /** The highest rank on the channel, 0 when it has no bug. */
    method MaxRankForChannel(u: Uuid) returns (rank: nat)
      requires Valid()
      ensures forall p :: StageRank(p) < rank <==> HasLaterStage(Value(), u, p)
    {
      rank := 0;
      ghost var best: BugId := 0;
      if u in byChannel {
        var ids := byChannel[u];
        for i := 0 to |ids|
          invariant rank == 0 || (On(Value(), u, best) && StageRank(byId[best].purpose) == rank)
          invariant forall j :: 0 <= j < i ==> ids[j] in byId && StageRank(byId[ids[j]].purpose) <= rank
        {
          assert On(Value(), u, ids[i]);
          if ids[i] in byId {
            var r := StageRank(byId[ids[i]].purpose);
            if r > rank {
              rank := r;
              best := ids[i];
            }
          }
        }
      }
      forall p
        ensures StageRank(p) < rank <==> HasLaterStage(Value(), u, p)
      {
        if HasLaterStage(Value(), u, p) {
          var id :| id in byId && On(Value(), u, id) && StageRank(p) < StageRank(byId[id].purpose);
          assert Listed(Value(), id);
        }
        if StageRank(p) < rank { assert best in byId; }
      }
    }

    method FindPurpose(u: Uuid, p: Purpose) returns (found: bool)
      requires Valid()
      ensures found <==> HasPurpose(Value(), u, p)
    {
      found := false;
      if u in byChannel {
        var ids := byChannel[u];
        for i := 0 to |ids|
          invariant !found
          invariant forall j :: 0 <= j < i ==> ids[j] in byId && byId[ids[j]].purpose != p
        {
          assert On(Value(), u, ids[i]);
          if ids[i] in byId && byId[ids[i]].purpose == p {
            return true;
          }
        }
      }
      forall id | id in byId && On(Value(), u, id)
        ensures byId[id].purpose != p
      {
        assert Listed(Value(), id);
      }
    }

    method FindInject(u: Uuid) returns (found: bool)
      requires Valid()
      ensures found <==> HasInject(Value(), u)
    {
      found := false;
      if u in byChannel {
        var ids := byChannel[u];
        for i := 0 to |ids|
          invariant !found
          invariant forall j :: 0 <= j < i ==> ids[j] in byId && !Injects(byId[ids[j]].purpose)
        {
          assert On(Value(), u, ids[i]);
          if ids[i] in byId && Injects(byId[ids[i]].purpose) {
            return true;
          }
        }
      }
      forall id | id in byId && On(Value(), u, id)
        ensures !Injects(byId[id].purpose)
      {
        assert Listed(Value(), id);
      }
    }

    /** Called while the record is already out of the channel list but still in `byId`, so
        `skip` may be registered without being listed. */
    method FindWriteReplace(u: Uuid, ghost skip: BugId) returns (found: bool)
      requires forall id :: u in byChannel && id in byChannel[u] ==> On(Value(), u, id) && id != skip
      requires forall id <- byId :: On(Value(), u, id) && id != skip ==> Listed(Value(), id)
      ensures found <==> exists id <- byId :: On(Value(), u, id) && id != skip && byId[id].flags.writeReplace
    {
      found := false;
      if u in byChannel {
        var ids := byChannel[u];
        for i := 0 to |ids|
          invariant !found
          invariant forall j :: 0 <= j < i ==> ids[j] in byId && !byId[ids[j]].flags.writeReplace
        {
          assert On(Value(), u, ids[i]);
          if ids[i] in byId && byId[ids[i]].flags.writeReplace {
            return true;
          }
        }
      }
      forall id | id in byId && On(Value(), u, id) && id != skip
        ensures !byId[id].flags.writeReplace
      {
        assert Listed(Value(), id);
      }
    }

    method ValidateAttach(u: Uuid, cfg: BugConfig) returns (v: Verdict)
      requires Valid()
      modifies `nextId
      ensures Valid()
      ensures (Value(), v) == Validate(old(Value()), u, cfg)
    {
      var inject := FindInject(u);
      var taken := FindPurpose(u, cfg.purpose);
      if cfg.purpose == RecordingRelay && !inject {
        v := Refused(RelayNeedsInject);
      } else if cfg.purpose != RecordingRelay && taken {
        v := Refused(PurposeTaken);
      } else {
        var flags := cfg.flags;
        var highest := MaxRankForChannel(u);
        if cfg.purpose == VadBargeIn {
          flags := flags.(first := true);
        } else if StageRank(cfg.purpose) < highest && !cfg.flags.first {
          return Refused(OutOfOrder);
        }
        v := Granted(nextId, BugRecord(cfg.purpose, u, flags));
        nextId := nextId + 1;
        assert forall id <- byId :: Listed(old(Value()), id);
        assert forall w, id :: w in byChannel && id in byChannel[w] ==> On(old(Value()), w, id);
      }
    }

    method RegisterAttached(id: BugId, bug: BugRecord)
      requires Valid() && id < nextId && id !in byId
      modifies `byId, `byChannel
      ensures Valid()
      ensures Value() == Register(old(Value()), id, bug)
    {
      RegisterKeeps(Value(), id, bug);
      byId := byId[id := bug];
      var list := if bug.channel in byChannel then byChannel[bug.channel] else [];
      byChannel := byChannel[bug.channel := list + [id]];
    }

    /** The critical section of DetachInternalLocked; an unknown id changes nothing. */
    method UnregisterLocked(id: BugId) returns (bug: BugRecord, known: bool, stopDriver: bool)
      requires Valid()
      modifies `byId, `byChannel
      ensures Valid()
      ensures known <==> id in old(byId)
      ensures !known ==> Value() == old(Value()) && !stopDriver
      ensures known ==> bug == old(byId)[id] && Value() == Unregister(old(Value()), id)
      ensures known ==> (stopDriver <==> StopsDriver(old(Value()), id))
    {
      if id !in byId {
        return BugRecord(Unspecified, "", Flags(false, false)), false, false;
      }
      ghost var r := Value();
      UnregisterKeeps(r, id);
      bug, known := byId[id], true;
      assert Listed(r, id);
      if bug.channel in byChannel {
        var kept := EraseRemove(byChannel[bug.channel], id);
        byChannel := if kept == [] then byChannel - {bug.channel} else byChannel[bug.channel := kept];
      }
      assert byChannel == Unregister(r, id).byChannel;
      forall x | On(r, bug.channel, x) && x != id
        ensures Listed(Value(), x)
      {
        assert Listed(r, x);
      }
      assert forall x :: bug.channel in byChannel && x in byChannel[bug.channel] ==> On(r, bug.channel, x);
      var still := FindWriteReplace(bug.channel, id);
      stopDriver := bug.flags.writeReplace && !still;
      byId := byId - {id};
      assert Value() == Unregister(r, id);
      assert still <==> HasWriteReplace(Value(), bug.channel) by {
        if still {
          var x :| x in r.byId && On(r, bug.channel, x) && x != id && r.byId[x].flags.writeReplace;
          assert x in byId && On(Value(), bug.channel, x);
        }
        if HasWriteReplace(Value(), bug.channel) {
          var x :| x in byId && On(Value(), bug.channel, x) && byId[x].flags.writeReplace;
          assert On(r, bug.channel, x);
        }
      }
    }
  }
}
