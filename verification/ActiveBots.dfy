/** The registry of running bots: the bots by id, and per channel the ids of the bots on it. */
module ActiveBots {
  import opened Basics

  type BotId = string
  type Uuid = string
  type Index = map<Uuid, seq<BotId>>

  /** `byId` gives each live bot's targets; `torn` counts the tear-downs of each bot. */
  datatype Bots = Bots(byId: map<BotId, seq<Uuid>>, byChannel: Index, torn: multiset<BotId>)

  datatype Outcome = Inserted | DuplicateBotId | ChannelCapacityExceeded

  function Times(s: seq<string>, x: string): nat {
    multiset(s)[x]
  }

  function On(index: Index, u: Uuid): seq<BotId> {
    if u in index then index[u] else []
  }

  function Targets(b: Bots, id: BotId): seq<Uuid> {
    if id in b.byId then b.byId[id] else []
  }

  function Members(s: seq<string>): set<string> {
    set x | x in s
  }

  predicate NoEmptyList(index: Index) {
    forall u :: u in index ==> index[u] != []
  }

  /** The channel index is the transpose of the targets, duplicates included. */
  ghost predicate Mirrored(b: Bots) {
    && "" !in b.byId
    && NoEmptyList(b.byChannel)
    && forall u, id :: Times(On(b.byChannel, u), id) == Times(Targets(b, id), u)
  }

  ghost predicate Within(b: Bots, limit: nat) {
    forall u :: |Members(On(b.byChannel, u))| <= limit
  }

  const EMPTY := Bots(map[], map[], multiset{})

  // ---- Insert ----

  function Enrol(index: Index, targets: seq<Uuid>, id: BotId): Index
    decreases |targets|
  {
    if targets == [] then index
    else Enrol(index[targets[0] := On(index, targets[0]) + [id]], targets[1..], id)
  }

  predicate AtCapacity(index: Index, targets: seq<Uuid>, limit: nat) {
    exists i :: 0 <= i < |targets| && |On(index, targets[i])| >= limit
  }

  function Insert(b: Bots, id: BotId, targets: seq<Uuid>, limit: nat): (Bots, Outcome) {
    if id == "" || id in b.byId then (b, DuplicateBotId)
    else if AtCapacity(b.byChannel, targets, limit) then (b, ChannelCapacityExceeded)
    else (b.(byId := b.byId[id := targets], byChannel := Enrol(b.byChannel, targets, id)), Inserted)
  }

  // ---- Stop ----

  function EraseFrom(index: Index, u: Uuid, id: BotId): Index {
    if u !in index then index
    else
      var rest := Without(index[u], id);
      if rest == [] then index - {u} else index[u := rest]
  }

  function Withdraw(index: Index, targets: seq<Uuid>, id: BotId): Index
    decreases |targets|
  {
    if targets == [] then index
    else Withdraw(EraseFrom(index, targets[0], id), targets[1..], id)
  }

  /** The critical section of Stop. */
  function TakeOut(b: Bots, id: BotId): (Bots, bool) {
    if id !in b.byId then (b, false)
    else (b.(byId := b.byId - {id}, byChannel := Withdraw(b.byChannel, b.byId[id], id)), true)
  }

  function TearDown(b: Bots, id: BotId): Bots {
    b.(torn := b.torn + multiset{id})
  }

  /** A whole Stop: the tear-down comes after the section. */
  function Stop(b: Bots, id: BotId): (Bots, bool) {
    var (after, found) := TakeOut(b, id);
    (if found then TearDown(after, id) else after, found)
  }

  function StopAll(b: Bots, ids: seq<BotId>): (Bots, nat)
    decreases |ids|
  {
    if ids == [] then (b, 0)
    else
      var (first, ok) := Stop(b, ids[0]);
      var (rest, n) := StopAll(first, ids[1..]);
      (rest, n + if ok then 1 else 0)
  }

  function StopByChannel(b: Bots, u: Uuid): (Bots, nat) {
    StopAll(b, On(b.byChannel, u))
  }

  /** The critical section of DrainAll. */
  function Clear(b: Bots): Bots {
    b.(byId := map[], byChannel := map[])
  }

  /** A whole DrainAll. */
  function DrainAll(b: Bots): Bots {
    Clear(b).(torn := b.torn + multiset(b.byId.Keys))
  }

  // ---- what one call does to the index ----

  lemma {:induction false} EnrolAt(index: Index, targets: seq<Uuid>, id: BotId, u: Uuid, x: BotId)
    ensures Times(On(Enrol(index, targets, id), u), x)
         == Times(On(index, u), x) + if x == id then Times(targets, u) else 0
    decreases |targets|
  {
    if targets != [] {
      EnrolAt(index[targets[0] := On(index, targets[0]) + [id]], targets[1..], id, u, x);
      assert targets == [targets[0]] + targets[1..];
    }
  }

  lemma {:induction false} EnrolWithout(index: Index, targets: seq<Uuid>, id: BotId, u: Uuid)
    ensures Without(On(Enrol(index, targets, id), u), id) == Without(On(index, u), id)
    decreases |targets|
  {
    if targets != [] {
      EnrolWithout(index[targets[0] := On(index, targets[0]) + [id]], targets[1..], id, u);
      WithoutAppend(On(index, u), id, id);
    }
  }

  lemma {:induction false} EnrolNoEmpty(index: Index, targets: seq<Uuid>, id: BotId)
    requires NoEmptyList(index)
    ensures NoEmptyList(Enrol(index, targets, id))
    decreases |targets|
  {
    if targets != [] {
      EnrolNoEmpty(index[targets[0] := On(index, targets[0]) + [id]], targets[1..], id);
    }
  }

  lemma {:induction false} TimesWithout(s: seq<string>, id: string, x: string)
    ensures Times(Without(s, id), x) == if x == id then 0 else Times(s, x)
  {
    if s != [] {
      TimesWithout(s[1..], id, x);
      assert s == [s[0]] + s[1..];
    }
  }

  lemma {:induction false} WithoutAbsent(s: seq<string>, id: string)
    requires id !in s
    ensures Without(s, id) == s
  {
    if s != [] {
      WithoutAbsent(s[1..], id);
    }
  }

  lemma {:induction false} WithdrawAt(index: Index, targets: seq<Uuid>, id: BotId, u: Uuid)
    ensures On(Withdraw(index, targets, id), u) == if u in targets then Without(On(index, u), id) else On(index, u)
    decreases |targets|
  {
    if targets != [] {
      var next := EraseFrom(index, targets[0], id);
      assert On(next, u) == if u == targets[0] then Without(On(index, u), id) else On(index, u);
      WithdrawAt(next, targets[1..], id, u);
      WithoutAbsent(Without(On(index, u), id), id);
    }
  }

  lemma {:induction false} WithdrawNoEmpty(index: Index, targets: seq<Uuid>, id: BotId)
    requires NoEmptyList(index)
    ensures NoEmptyList(Withdraw(index, targets, id))
    decreases |targets|
  {
    if targets != [] {
      WithdrawNoEmpty(EraseFrom(index, targets[0], id), targets[1..], id);
    }
  }

  // ---- the transpose is kept ----

  lemma OnlyTargets(b: Bots, id: BotId, u: Uuid)
    requires Mirrored(b)
    ensures id in On(b.byChannel, u) <==> u in Targets(b, id)
  {
    assert Times(On(b.byChannel, u), id) == Times(Targets(b, id), u);
    assert id in On(b.byChannel, u) <==> id in multiset(On(b.byChannel, u));
    assert u in Targets(b, id) <==> u in multiset(Targets(b, id));
  }

  lemma InsertKeeps(b: Bots, id: BotId, targets: seq<Uuid>, limit: nat)
    requires Mirrored(b)
    ensures Mirrored(Insert(b, id, targets, limit).0)
  {
    var after := Insert(b, id, targets, limit).0;
    if after != b {
      EnrolNoEmpty(b.byChannel, targets, id);
      forall u, x ensures Times(On(after.byChannel, u), x) == Times(Targets(after, x), u) {
        EnrolAt(b.byChannel, targets, id, u, x);
        assert Times(On(b.byChannel, u), x) == Times(Targets(b, x), u);
      }
    }
  }

  lemma TakeOutKeeps(b: Bots, id: BotId)
    requires Mirrored(b)
    ensures Mirrored(TakeOut(b, id).0)
  {
    var after := TakeOut(b, id).0;
    if id in b.byId {
      WithdrawNoEmpty(b.byChannel, b.byId[id], id);
      forall u, x ensures Times(On(after.byChannel, u), x) == Times(Targets(after, x), u) {
        WithdrawAt(b.byChannel, b.byId[id], id, u);
        TimesWithout(On(b.byChannel, u), id, x);
        OnlyTargets(b, id, u);
        assert Times(On(b.byChannel, u), x) == Times(Targets(b, x), u);
      }
    }
  }

  lemma SameIndexes(b: Bots, c: Bots)
    requires Mirrored(b) && c.byId == b.byId && c.byChannel == b.byChannel
    ensures Mirrored(c)
  {
    forall u, x ensures Times(On(c.byChannel, u), x) == Times(Targets(c, x), u) {
      assert Times(On(b.byChannel, u), x) == Times(Targets(b, x), u);
    }
  }

  lemma StopKeeps(b: Bots, id: BotId)
    requires Mirrored(b)
    ensures Mirrored(Stop(b, id).0)
  {
    TakeOutKeeps(b, id);
    SameIndexes(TakeOut(b, id).0, Stop(b, id).0);
  }

  lemma SameIndex(a: Index, c: Index)
    requires NoEmptyList(a) && NoEmptyList(c)
    requires forall u :: On(a, u) == On(c, u)
    ensures a == c
  {
    forall u ensures u in a <==> u in c {
      assert On(a, u) == On(c, u);
    }
    forall u | u in a ensures a[u] == c[u] {
      assert On(a, u) == On(c, u);
    }
  }

  lemma RestoredAt(b: Bots, id: BotId, targets: seq<Uuid>, u: Uuid)
    requires Mirrored(b) && id !in b.byId
    ensures On(Withdraw(Enrol(b.byChannel, targets, id), targets, id), u) == On(b.byChannel, u)
  {
    var index := Enrol(b.byChannel, targets, id);
    EnrolWithout(b.byChannel, targets, id, u);
    WithdrawAt(index, targets, id, u);
    OnlyTargets(b, id, u);
    WithoutAbsent(On(b.byChannel, u), id);
    if u !in targets { EnrolElsewhere(b.byChannel, targets, id, u); }
  }

  lemma {:induction false} EnrolElsewhere(index: Index, targets: seq<Uuid>, id: BotId, u: Uuid)
    requires u !in targets
    ensures On(Enrol(index, targets, id), u) == On(index, u)
    decreases |targets|
  {
    if targets != [] {
      EnrolElsewhere(index[targets[0] := On(index, targets[0]) + [id]], targets[1..], id, u);
    }
  }

  /** Stopping the bot just inserted restores both indexes, list order included. */
  lemma StopUndoesInsert(b: Bots, id: BotId, targets: seq<Uuid>, limit: nat)
    requires Mirrored(b) && Insert(b, id, targets, limit).1 == Inserted
    ensures var after := Stop(Insert(b, id, targets, limit).0, id);
            after.1 && after.0 == b.(torn := b.torn + multiset{id})
  {
    var enrolled := Enrol(b.byChannel, targets, id);
    forall u { RestoredAt(b, id, targets, u); }
    EnrolNoEmpty(b.byChannel, targets, id);
    WithdrawNoEmpty(enrolled, targets, id);
    SameIndex(Withdraw(enrolled, targets, id), b.byChannel);
    assert b.byId[id := targets] - {id} == b.byId;
  }

  // ---- when an Insert succeeds ----

  /** How often the live bots have the channel among their targets. */
  ghost function Load(byId: map<BotId, seq<Uuid>>, u: Uuid): nat
    decreases |byId|
  {
    if byId == map[] then 0
    else
      var id :| id in byId;
      SmallerMap(byId, id);
      Times(byId[id], u) + Load(byId - {id}, u)
  }

  lemma SmallerMap(byId: map<BotId, seq<Uuid>>, id: BotId)
    requires id in byId
    ensures |byId - {id}| < |byId|
  {
    assert (byId - {id}).Keys == byId.Keys - {id};
    assert |byId.Keys| == |byId| && |(byId - {id}).Keys| == |byId - {id}|;
  }

  lemma {:induction false} WithoutSize(s: seq<string>, id: string)
    ensures |Without(s, id)| + Times(s, id) == |s|
  {
    if s != [] {
      WithoutSize(s[1..], id);
      assert s == [s[0]] + s[1..];
    }
  }

  lemma FirstListed(s: seq<BotId>)
    ensures s != [] ==> Times(s, s[0]) > 0
  {
    if s != [] { assert s[0] in multiset(s); }
  }

  /** A list that has each bot as often as the channel is among its targets is that long. */
  lemma {:induction false} LoadIsLength(byId: map<BotId, seq<Uuid>>, u: Uuid, s: seq<BotId>)
    requires forall x :: Times(s, x) == if x in byId then Times(byId[x], u) else 0
    ensures |s| == Load(byId, u)
    decreases |byId|
  {
    if byId == map[] {
      FirstListed(s);
    } else {
      var id :| id in byId && Load(byId, u) == Times(byId[id], u) + Load(byId - {id}, u);
      SmallerMap(byId, id);
      WithoutSize(s, id);
      forall x
        ensures Times(Without(s, id), x) == if x in byId - {id} then Times((byId - {id})[x], u) else 0
      {
        TimesWithout(s, id, x);
      }
      LoadIsLength(byId - {id}, u, Without(s, id));
    }
  }

  lemma ListLength(b: Bots, u: Uuid)
    requires Mirrored(b)
    ensures |On(b.byChannel, u)| == Load(b.byId, u)
  {
    var s := On(b.byChannel, u);
    forall x ensures Times(s, x) == if x in b.byId then Times(b.byId[x], u) else 0 {
      assert Times(On(b.byChannel, u), x) == Times(Targets(b, x), u);
    }
    LoadIsLength(b.byId, u, s);
  }

  lemma {:induction false} EnrolAppends(index: Index, targets: seq<Uuid>, id: BotId, u: Uuid)
    ensures On(index, u) <= On(Enrol(index, targets, id), u)
    decreases |targets|
  {
    if targets != [] {
      EnrolAppends(index[targets[0] := On(index, targets[0]) + [id]], targets[1..], id, u);
    }
  }

  lemma CapacityIff(b: Bots, targets: seq<Uuid>, limit: nat)
    requires Mirrored(b)
    ensures AtCapacity(b.byChannel, targets, limit) <==> exists u :: u in targets && Load(b.byId, u) >= limit
  {
    forall u ensures |On(b.byChannel, u)| == Load(b.byId, u) { ListLength(b, u); }
    if AtCapacity(b.byChannel, targets, limit) {
      var i :| 0 <= i < |targets| && |On(b.byChannel, targets[i])| >= limit;
      assert targets[i] in targets && Load(b.byId, targets[i]) >= limit;
    }
    forall u | u in targets && Load(b.byId, u) >= limit
      ensures AtCapacity(b.byChannel, targets, limit)
    {
      var i :| 0 <= i < |targets| && targets[i] == u;
      assert |On(b.byChannel, targets[i])| >= limit;
    }
  }

  /** The outcome of an Insert by the live bots alone: an id that is empty or taken is a duplicate,
      else a target that the live bots already have `limit` times exceeds the capacity, else the
      bot is in, listed behind the others on its targets. A refused Insert changes nothing. */
  lemma InsertIff(b: Bots, id: BotId, targets: seq<Uuid>, limit: nat)
    requires Mirrored(b)
    ensures var (after, outcome) := Insert(b, id, targets, limit);
            && (outcome.DuplicateBotId? <==> id == "" || id in b.byId)
            && (outcome.ChannelCapacityExceeded? <==>
                  id != "" && id !in b.byId && exists u :: u in targets && Load(b.byId, u) >= limit)
            && (outcome.Inserted? ==> after.byId == b.byId[id := targets] && after.torn == b.torn)
            && (outcome.Inserted? ==> forall u :: On(b.byChannel, u) <= On(after.byChannel, u))
            && (!outcome.Inserted? ==> after == b)
  {
    CapacityIff(b, targets, limit);
    forall u { EnrolAppends(b.byChannel, targets, id, u); }
  }

  // ---- StopByChannel and DrainAll ----

  lemma {:induction false} StopAllKeeps(b: Bots, ids: seq<BotId>)
    requires Mirrored(b)
    ensures Mirrored(StopAll(b, ids).0)
    decreases |ids|
  {
    if ids != [] {
      StopKeeps(b, ids[0]);
      StopAllKeeps(Stop(b, ids[0]).0, ids[1..]);
    }
  }

  lemma SomeoneListed(index: Index, u: Uuid)
    requires NoEmptyList(index)
    ensures u in index ==> exists id :: id in On(index, u)
  {
    if u in index {
      assert index[u][0] in On(index, u);
    }
  }

  lemma {:induction false} StopAllRemoves(b: Bots, ids: seq<BotId>)
    ensures StopAll(b, ids).0.byId == b.byId - Members(ids)
    decreases |ids|
  {
    if ids == [] {
      assert Members(ids) == {};
    } else {
      StopAllRemoves(Stop(b, ids[0]).0, ids[1..]);
      assert ids == [ids[0]] + ids[1..];
      assert Members(ids) == {ids[0]} + Members(ids[1..]);
    }
  }

  /** The live bots among `ids`. */
  function Live(b: Bots, ids: seq<BotId>): set<BotId> {
    set id | id in ids && id in b.byId
  }

  lemma LiveAfterStop(b: Bots, ids: seq<BotId>)
    requires ids != []
    ensures var rest := Live(Stop(b, ids[0]).0, ids[1..]);
            && |Live(b, ids)| == |rest| + (if ids[0] in b.byId then 1 else 0)
            && multiset(Live(b, ids)) == multiset(rest) + (if ids[0] in b.byId then multiset{ids[0]} else multiset{})
  {
    var rest := Live(Stop(b, ids[0]).0, ids[1..]);
    assert ids == [ids[0]] + ids[1..];
    assert ids[0] !in rest;
    if ids[0] in b.byId {
      assert Live(b, ids) == rest + {ids[0]};
    } else {
      assert Live(b, ids) == rest;
    }
  }

  lemma {:induction false} StopAllStops(b: Bots, ids: seq<BotId>)
    ensures StopAll(b, ids).1 == |Live(b, ids)|
    ensures StopAll(b, ids).0.torn == b.torn + multiset(Live(b, ids))
    decreases |ids|
  {
    if ids == [] {
      assert Live(b, ids) == {};
    } else {
      StopAllStops(Stop(b, ids[0]).0, ids[1..]);
      LiveAfterStop(b, ids);
    }
  }

  /** One uninterrupted StopByChannel empties the channel, stops exactly the bots it had, each
      once however often it was listed, and counts them. */
  lemma StopByChannelClears(b: Bots, u: Uuid)
    requires Mirrored(b)
    ensures var had := Members(On(b.byChannel, u));
            var (after, n) := StopByChannel(b, u);
            && u !in after.byChannel
            && n == |had|
            && after.byId == b.byId - had
            && after.torn == b.torn + multiset(had)
            && Mirrored(after)
  {
    var ids := On(b.byChannel, u);
    var after := StopByChannel(b, u).0;
    StopAllStops(b, ids);
    StopAllRemoves(b, ids);
    StopAllKeeps(b, ids);
    forall id ensures id in ids ==> id in b.byId {
      OnlyTargets(b, id, u);
    }
    assert Live(b, ids) == Members(ids);
    forall id ensures id !in On(after.byChannel, u) {
      OnlyTargets(b, id, u);
      OnlyTargets(after, id, u);
    }
    SomeoneListed(after.byChannel, u);
  }

  /** DrainAll is one Stop for each live bot, in any order. */
  lemma DrainIsStopAll(b: Bots, ids: seq<BotId>)
    requires Mirrored(b) && Members(ids) == b.byId.Keys
    ensures StopAll(b, ids).0 == DrainAll(b) && StopAll(b, ids).1 == |b.byId.Keys|
  {
    var after := StopAll(b, ids).0;
    StopAllStops(b, ids);
    StopAllRemoves(b, ids);
    StopAllKeeps(b, ids);
    assert Live(b, ids) == b.byId.Keys;
    assert after.byId == map[];
    forall u ensures u !in after.byChannel {
      forall id ensures id !in On(after.byChannel, u) { OnlyTargets(after, id, u); }
      SomeoneListed(after.byChannel, u);
    }
  }

  // ---- whole runs under one limit ----

  /** `stopping` are the bots taken out of the registry and not torn down yet, in the hands of
      the threads that stop or drain; the lock is free meanwhile. */
  datatype System = System(bots: Bots, stopping: multiset<BotId>)

  /** The atomic steps of all threads; StopByChannel is one Halt for each id it has copied. */
  datatype Op = Add(id: BotId, targets: seq<Uuid>) | Halt(id: BotId) | Drain | Finish(id: BotId)

  function Step(s: System, op: Op, limit: nat): System {
    match op
    case Add(id, targets) => s.(bots := Insert(s.bots, id, targets, limit).0)
    case Halt(id) =>
      var (bots, found) := TakeOut(s.bots, id);
      System(bots, s.stopping + if found then multiset{id} else multiset{})
    case Drain => System(Clear(s.bots), s.stopping + multiset(s.bots.byId.Keys))
    case Finish(id) =>
      if id in s.stopping then System(TearDown(s.bots, id), s.stopping - multiset{id}) else s
  }

  function Run(s: System, ops: seq<Op>, limit: nat): System {
    if ops == [] then s else Step(Run(s, ops[..|ops| - 1], limit), ops[|ops| - 1], limit)
  }

  /** The id a step admits, if its Insert succeeds. */
  function Admits(s: System, op: Op, limit: nat): multiset<BotId> {
    if op.Add? && Insert(s.bots, op.id, op.targets, limit).1 == Inserted then multiset{op.id} else multiset{}
  }

  /** The ids a run admitted, one occurrence for each successful Insert. */
  function Admitted(s: System, ops: seq<Op>, limit: nat): multiset<BotId> {
    if ops == [] then multiset{}
    else
      var before := ops[..|ops| - 1];
      Admitted(s, before, limit) + Admits(Run(s, before, limit), ops[|ops| - 1], limit)
  }

  lemma {:induction false} MembersFit(s: seq<string>)
    ensures |Members(s)| <= |s|
  {
    if s == [] {
      assert Members(s) == {};
    } else {
      MembersFit(s[1..]);
      assert Members(s) == {s[0]} + Members(s[1..]);
    }
  }

  lemma EnrolMembers(index: Index, targets: seq<Uuid>, id: BotId, u: Uuid)
    ensures Members(On(Enrol(index, targets, id), u)) == Members(On(index, u)) + if u in targets then {id} else {}
  {
    var after := On(Enrol(index, targets, id), u);
    forall x ensures x in after <==> x in On(index, u) || (x == id && u in targets) {
      EnrolAt(index, targets, id, u, x);
      assert x in after <==> x in multiset(after);
      assert x in On(index, u) <==> x in multiset(On(index, u));
      assert u in targets <==> u in multiset(targets);
    }
  }

  lemma InsertWithin(b: Bots, id: BotId, targets: seq<Uuid>, limit: nat)
    requires Within(b, limit)
    ensures Within(Insert(b, id, targets, limit).0, limit)
  {
    var after := Insert(b, id, targets, limit).0;
    if after != b {
      forall u ensures |Members(On(after.byChannel, u))| <= limit {
        var had := On(b.byChannel, u);
        EnrolMembers(b.byChannel, targets, id, u);
        assert |Members(had)| <= limit;
        if u in targets {
          var i :| 0 <= i < |targets| && targets[i] == u;
          assert |On(b.byChannel, targets[i])| < limit;
          MembersFit(had);
        }
      }
    }
  }

  lemma TakeOutWithin(b: Bots, id: BotId, limit: nat)
    requires Within(b, limit)
    ensures Within(TakeOut(b, id).0, limit)
  {
    var after := TakeOut(b, id).0;
    if id in b.byId {
      forall u ensures |Members(On(after.byChannel, u))| <= limit {
        WithdrawAt(b.byChannel, b.byId[id], id, u);
        SubsetSize(Members(On(after.byChannel, u)), Members(On(b.byChannel, u)));
        assert |Members(On(b.byChannel, u))| <= limit;
      }
    }
  }

  function Accounted(s: System): multiset<BotId> {
    s.bots.torn + multiset(s.bots.byId.Keys) + s.stopping
  }

  /** How often `x` is accounted for. */
  function CountOf(s: System, x: BotId): nat {
    s.bots.torn[x] + (if x in s.bots.byId then 1 else 0) + s.stopping[x]
  }

  lemma AccountedCount(s: System, x: BotId)
    ensures Accounted(s)[x] == CountOf(s, x)
  {
  }

  /** A step only moves bots between live, stopping and torn down, or admits one. */
  lemma StepAccounts(s: System, op: Op, limit: nat)
    ensures Accounted(Step(s, op, limit)) == Accounted(s) + Admits(s, op, limit)
  {
    var after, admitted := Step(s, op, limit), Admits(s, op, limit);
    forall x ensures Accounted(after)[x] == Accounted(s)[x] + admitted[x] {
      AccountedCount(s, x);
      AccountedCount(after, x);
      CountStep(s, op, limit, x);
    }
  }

  lemma CountStep(s: System, op: Op, limit: nat, x: BotId)
    ensures CountOf(Step(s, op, limit), x) == CountOf(s, x) + Admits(s, op, limit)[x]
  {
  }

  lemma StepKeeps(s: System, op: Op, limit: nat)
    requires Mirrored(s.bots) && Within(s.bots, limit)
    ensures Mirrored(Step(s, op, limit).bots) && Within(Step(s, op, limit).bots, limit)
  {
    match op {
      case Add(id, targets) =>
        InsertKeeps(s.bots, id, targets, limit);
        InsertWithin(s.bots, id, targets, limit);
      case Halt(id) =>
        TakeOutKeeps(s.bots, id);
        TakeOutWithin(s.bots, id, limit);
      case Drain =>
        NothingKept(Clear(s.bots), limit);
      case Finish(id) =>
        SameIndexes(s.bots, TearDown(s.bots, id));
    }
  }

  /** Which bots a step takes out of the registry: a Halt the one it names, a Drain all, and these
      are then in the hands of its thread. */
  lemma TakesOut(ops: seq<Op>, limit: nat, id: BotId)
    ensures var s := Run(System(EMPTY, multiset{}), ops, limit);
            var halted, drained := Step(s, Halt(id), limit), Step(s, Drain, limit);
            && halted.bots.byId == s.bots.byId - {id}
            && halted.stopping == s.stopping + multiset(s.bots.byId.Keys * {id})
            && drained.bots.byId == map[] && drained.bots.byChannel == map[]
            && drained.stopping == s.stopping + multiset(s.bots.byId.Keys)
  {
    var s := Run(System(EMPTY, multiset{}), ops, limit);
    if id in s.bots.byId { assert s.bots.byId.Keys * {id} == {id}; }
  }

  lemma NothingKept(b: Bots, limit: nat)
    requires b.byId == map[] && b.byChannel == map[]
    ensures Mirrored(b) && Within(b, limit)
  {
    assert Members([]) == {};
  }

  /** Every reachable registry, whatever the threads are doing: the index mirrors the targets, no
      channel carries more distinct bots than the limit, and every bot ever admitted is live, was
      torn down once, or is in the hands of a thread that has yet to tear it down. */
  lemma {:induction false} RegistryRun(ops: seq<Op>, limit: nat)
    ensures var s := Run(System(EMPTY, multiset{}), ops, limit);
            && Mirrored(s.bots)
            && Within(s.bots, limit)
            && Admitted(System(EMPTY, multiset{}), ops, limit)
               == s.bots.torn + multiset(s.bots.byId.Keys) + s.stopping
    decreases |ops|
  {
    if ops == [] {
      NothingKept(EMPTY, limit);
    } else {
      var before := ops[..|ops| - 1];
      var s := Run(System(EMPTY, multiset{}), before, limit);
      RegistryRun(before, limit);
      StepKeeps(s, ops[|ops| - 1], limit);
      StepAccounts(s, ops[|ops| - 1], limit);
    }
  }

  class ActiveBots {
    var byId: map<BotId, seq<Uuid>>
    var byChannel: Index
    var torn: multiset<BotId>

    ghost function Value(): Bots
      reads this
    {
      Bots(byId, byChannel, torn)
    }

    constructor ()
      ensures Value() == EMPTY
    {
      byId, byChannel, torn := map[], map[], multiset{};
    }

    /** The first loop of Insert. */
    method ExceedsCapacity(targets: seq<Uuid>, limit: nat) returns (full: bool)
      ensures full == AtCapacity(byChannel, targets, limit)
    {
      for i := 0 to |targets|
        invariant forall j :: 0 <= j < i ==> |On(byChannel, targets[j])| < limit
      {
        var active := if targets[i] in byChannel then |byChannel[targets[i]]| else 0;
        if active >= limit {
          return true;
        }
      }
      full := false;
    }

    method InsertBot(id: BotId, targets: seq<Uuid>, limit: nat) returns (outcome: Outcome)
      modifies this
      ensures (Value(), outcome) == Insert(old(Value()), id, targets, limit)
    {
      if id == "" || id in byId {
        return DuplicateBotId;
      }
      var full := ExceedsCapacity(targets, limit);
      if full {
        return ChannelCapacityExceeded;
      }
      for i := 0 to |targets|
        invariant byId == old(byId) && torn == old(torn)
        invariant Enrol(byChannel, targets[i..], id) == Enrol(old(byChannel), targets, id)
      {
        var u := targets[i];
        assert targets[i..][1..] == targets[i + 1..];
        byChannel := byChannel[u := (if u in byChannel then byChannel[u] else []) + [id]];
      }
      byId := byId[id := targets];
      outcome := Inserted;
    }

    method TearDownBot(id: BotId)
      modifies this`torn
      ensures Value() == TearDown(old(Value()), id)
    {
      torn := torn + multiset{id};
    }

    /** The section of Stop under the lock. */
    method TakeOutBot(id: BotId) returns (found: bool)
      modifies `byId, `byChannel
      ensures (Value(), found) == TakeOut(old(Value()), id)
    {
      if id !in byId {
        return false;
      }
      var targets := byId[id];
      byId := byId - {id};
      for i := 0 to |targets|
        invariant byId == old(byId) - {id}
        invariant Withdraw(byChannel, targets[i..], id) == Withdraw(old(byChannel), targets, id)
      {
        var u := targets[i];
        assert targets[i..][1..] == targets[i + 1..];
        if u in byChannel {
          var kept := EraseRemove(byChannel[u], id);
          byChannel := if kept == [] then byChannel - {u} else byChannel[u := kept];
        }
      }
      found := true;
    }

    method StopBot(id: BotId) returns (stopped: bool)
      modifies this
      ensures (Value(), stopped) == Stop(old(Value()), id)
    {
      stopped := TakeOutBot(id);
      if stopped {
        TearDownBot(id);
      }
    }

    method StopBotsOn(u: Uuid) returns (stopped: nat)
      modifies this
      ensures (Value(), stopped) == StopByChannel(old(Value()), u)
    {
      stopped := 0;
      if u !in byChannel {
        return;
      }
      var ids := byChannel[u];
      for i := 0 to |ids|
        invariant StopAll(Value(), ids[i..]).0 == StopAll(old(Value()), ids).0
        invariant stopped + StopAll(Value(), ids[i..]).1 == StopAll(old(Value()), ids).1
      {
        assert ids[i..][1..] == ids[i + 1..];
        var ok := StopBot(ids[i]);
        if ok {
          stopped := stopped + 1;
        }
      }
    }

    method Drain()
      modifies this
      ensures Value() == DrainAll(old(Value()))
    {
      var bots := byId.Keys;
      byId, byChannel := map[], map[];
      while bots != {}
        invariant byId == map[] && byChannel == map[]
        invariant torn + multiset(bots) == old(torn) + multiset(old(byId).Keys)
      {
        var id :| id in bots;
        TearDownBot(id);
        bots := bots - {id};
      }
    }
  }
}
