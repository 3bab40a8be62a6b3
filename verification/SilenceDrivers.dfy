/** SilenceDriverRegistry, which the steps Silence, Unsilence, RemoveDriver and DrainDrivers of
    the bug protocol stand for. */
module SilenceDrivers {
  import opened BugRegistry
  import BugProtocol

  /** What AttachOpportunistic learns about the session from FreeSWITCH. */
  datatype Session =
    | NoSession
    | Session(uuid: Uuid, hasChannel: bool, broadcast: bool, bridged: bool, writeSource: bool)
  {
    predicate Silent() {
      Session? && uuid != "" && hasChannel && !broadcast && !bridged && !writeSource
    }
  }

  class SilenceDriverRegistry {
    const enabled: bool
    const cap: nat
    var drivers: set<Uuid>
    var stopped: multiset<Uuid>

    ghost predicate Valid()
      reads this
    {
      |drivers| <= cap && "" !in drivers
    }

    constructor (enabled: bool, cap: nat)
      ensures Valid() && drivers == {} && stopped == multiset{}
      ensures this.enabled == enabled && this.cap == cap
    {
      this.enabled, this.cap := enabled, cap;
      drivers, stopped := {}, multiset{};
    }

    /** `running` is whether the broadcast of the new driver started. */
    method AttachOpportunistic(session: Session, running: bool)
      requires Valid()
      modifies this`drivers
      ensures Valid()
      ensures session.NoSession? ==> drivers == old(drivers)
      ensures session.Session? ==> drivers - {session.uuid} == old(drivers) - {session.uuid}
      ensures session.Session? ==>
                (session.uuid in drivers <==>
                   || session.uuid in old(drivers)
                   || (&& enabled && session.uuid != "" && session.hasChannel && !session.broadcast
                       && !session.bridged && !session.writeSource && |old(drivers)| < cap && running))
      ensures session.Session? ==>
                drivers == BugProtocol.StartDriverFor(
                             old(drivers), cap, session.uuid, enabled && session.Silent() && running)
    {
      if !enabled || session.NoSession? || session.uuid == "" {
        return;
      }
      if !session.hasChannel || session.broadcast || session.bridged || session.writeSource {
        return;
      }
      if session.uuid in drivers || |drivers| >= cap || !running {
        return;
      }
      drivers := drivers + {session.uuid};
    }

    method StopAndErase(u: Uuid)
      requires Valid()
      modifies this
      ensures Valid() && drivers == old(drivers) - {u}
      ensures stopped == old(stopped) + multiset(old(drivers) * {u})
    {
      if u in drivers {
        assert drivers * {u} == {u};
        drivers := drivers - {u};
        stopped := stopped + multiset{u};
      }
    }

    /** Empties the map first, then stops every driver it held, each once. */
    method DrainAll()
      requires Valid()
      modifies this
      ensures Valid() && drivers == {}
      ensures stopped == old(stopped) + multiset(old(drivers))
    {
      var taken := drivers;
      drivers := {};
      while taken != {}
        invariant drivers == {}
        invariant stopped + multiset(taken) == old(stopped) + multiset(old(drivers))
      {
        var u :| u in taken;
        stopped := stopped + multiset{u};
        taken := taken - {u};
      }
    }
  }
}
