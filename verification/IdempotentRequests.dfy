/** Requests that go through the cache: the key of a request (src/control/idempotency_cache.cc)
    and RunIdempotent (src/control/handlers/idempotency_utils.h). */
module IdempotentRequests {
  import opened Basics
  import opened Idempotency
  import opened IdempotencyRuns
  import opened IdempotencyLru
  import opened IdempotencyExecution

  // ----- Keys ---------------------------------------------------------------------------

  const SEP: char := '\U{1f}'

  /** An empty request id opts out and has the empty key. */
  function MakeKey(rpc: string, tenant: string, request: string): (key: Key)
    ensures key == "" <==> request == ""
  {
    if request == "" then "" else rpc + [SEP] + tenant + [SEP] + request
  }

  /** What precedes the first separator determines where it is. */
  lemma FirstField(a: string, x: string, b: string, y: string)
    requires SEP !in a && SEP !in b && a + [SEP] + x == b + [SEP] + y
    ensures a == b && x == y
  {
    var s := a + [SEP] + x;
    assert s[|a|] == SEP && s[|b|] == SEP;
    assert s[..|a|] == a && s[..|b|] == b;
    assert s[|a| + 1..] == x && s[|b| + 1..] == y;
  }

  /** Different requests have different keys when method and tenant hold no separator. */
  lemma KeysDiffer(rpc: string, tenant: string, request: string, rpc': string, tenant': string, request': string)
    requires SEP !in rpc && SEP !in tenant && SEP !in rpc' && SEP !in tenant'
    requires request != "" && MakeKey(rpc, tenant, request) == MakeKey(rpc', tenant', request')
    ensures rpc == rpc' && tenant == tenant' && request == request'
  {
    var x, y := tenant + [SEP] + request, tenant' + [SEP] + request';
    assert MakeKey(rpc, tenant, request) == rpc + [SEP] + x;
    assert MakeKey(rpc', tenant', request') == rpc' + [SEP] + y;
    FirstField(rpc, x, rpc', y);
    FirstField(tenant, request, tenant', request');
  }

  /** No request of `tenant` to method `rpc` shares its key with another request of a
      well-formed tenant to that method. */
  ghost predicate Safe(rpc: string, tenant: string) {
    forall request, tenant', request' ::
      SEP !in tenant' && request != "" && MakeKey(rpc, tenant, request) == MakeKey(rpc, tenant', request')
      ==> tenant == tenant' && request == request'
  }

  /** The separator is the exact condition: for every method, a tenant that holds one does
      collide, and a tenant without one does not. */
  lemma SafeTenants(rpc: string, tenant: string)
    requires SEP !in rpc
    ensures Safe(rpc, tenant) <==> SEP !in tenant
  {
    if SEP in tenant {
      var i := FirstSeparator(tenant);
      var a, b := tenant[..i], tenant[i + 1..];
      assert tenant == a + [SEP] + b;
      assert MakeKey(rpc, tenant, "r") == MakeKey(rpc, a, b + [SEP] + "r") by {
        assert rpc + [SEP] + tenant + [SEP] + "r" == rpc + [SEP] + a + [SEP] + (b + [SEP] + "r");
      }
    } else {
      forall request, tenant', request' | SEP !in tenant' && request != ""
        && MakeKey(rpc, tenant, request) == MakeKey(rpc, tenant', request')
        ensures tenant == tenant' && request == request'
      {
        KeysDiffer(rpc, tenant, request, rpc, tenant', request');
      }
    }
  }

  lemma {:induction false} FirstSeparator(s: string) returns (i: nat)
    requires SEP in s
    ensures i < |s| && s[i] == SEP && SEP !in s[..i]
    decreases |s|
  {
    if s[0] == SEP {
      i := 0;
    } else {
      var j := FirstSeparator(s[1..]);
      i := j + 1;
      assert s[..i] == [s[0]] + s[1..][..j];
    }
  }

  // ----- RunIdempotent ------------------------------------------------------------------

  /** How a response becomes bytes and back; either way may fail. */
  datatype Codec<!R> = Codec(serialize: R -> Option<string>, parse: string -> Option<R>)

  /** The promise of the protobuf library: what was serialized parses to the same response. */
  ghost predicate RoundTrips<R(!new)>(codec: Codec<R>) {
    forall r :: codec.serialize(r).Some? ==> codec.parse(codec.serialize(r).value) == Some(r)
  }

  /** What running the action gives. */
  datatype Outcome<R> = Outcome(status: Status, response: R)

  /** What the caller of the RPC gets, and whether the action ran for it. */
  datatype Reply<R> = Reply(status: Status, response: R, executed: bool)

  function Respond<R>(codec: Codec<R>, answer: Answer, outcome: Outcome<R>): Reply<R> {
    if answer.Hit? && codec.parse(answer.entry.response).Some?
    then Reply(answer.entry.status, codec.parse(answer.entry.response).value, false)
    else Reply(outcome.status, outcome.response, true)
  }

  /** What the handler does to the cache once the action has run. */
  function Finish<R>(codec: Codec<R>, key: Key, outcome: Outcome<R>, at: Time, ttl: nat): Op {
    var bytes := codec.serialize(outcome.response);
    if bytes.Some? then Put(key, Entry(outcome.status, bytes.value, at + ttl), at) else Drop(key, at)
  }

  /** The handler after LookupOrReserve has answered: a hit that parses is the reply; otherwise the
      action's own outcome is, and it is stored for one TTL if it can be serialized. */
  method Handle<R>(
    cache: IdempotencyCache, codec: Codec<R>, key: Key, answer: Answer, outcome: Outcome<R>, at: Time, ttl: nat)
    returns (reply: Reply<R>)
    requires cache.Valid() && cache.capacity >= 1
    modifies cache
    ensures cache.Valid() && reply == Respond(codec, answer, outcome)
    ensures !reply.executed <==> answer.Hit? && codec.parse(answer.entry.response).Some?
    ensures reply.executed ==> reply.status == outcome.status && reply.response == outcome.response
    ensures !reply.executed ==> cache.Value() == old(cache.Value())
    ensures reply.executed ==>
              cache.Value() == match Finish(codec, key, outcome, at, ttl)
                               case Put(k, e, _) => Store(old(cache.Value()), k, e)
                               case _ => Cancel(old(cache.Value()), key)
  {
    if answer.Hit? {
      var parsed := codec.parse(answer.entry.response);
      if parsed.Some? {
        return Reply(answer.entry.status, parsed.value, false);
      }
    }
    reply := Reply(outcome.status, outcome.response, true);
    var bytes := codec.serialize(outcome.response);
    if bytes.None? {
      cache.CancelReservation(key);
    } else {
      cache.StoreEntry(key, Entry(outcome.status, bytes.value, at + ttl));
    }
  }

  /** A request that missed was executed: its caller gets the outcome of its own action. */
  lemma MissExecutes<R>(codec: Codec<R>, outcome: Outcome<R>)
    ensures Respond(codec, Miss, outcome) == Reply(outcome.status, outcome.response, true)
  {
  }

  /** A request replayed within the TTL, after fewer than `capacity` other keys were used, does not
      run its action again; its caller gets what the first caller got, whatever the second run of
      the action would have given. From the end of the TTL on it does not hit that result. */
  lemma ReplayRunsOnce<R(!new)>(
    codec: Codec<R>, s: System, key: Key, first: Outcome<R>, at: Time, ttl: nat,
    mid: seq<Op>, again: Op, second: Outcome<R>)
    requires RoundTrips(codec) && Inv(s) && key != ""
    requires codec.serialize(first.response).Some? && Enabled(s, Finish(codec, key, first, at, ttl))
    requires Legal(Step(s, Finish(codec, key, first, at, ttl)), mid) && NeverStored(mid, key)
    requires |Used(Step(s, Finish(codec, key, first, at, ttl)), mid) - {key}| < s.cache.capacity
    requires again.Lookup? && again.key == key
    requires Enabled(After(Step(s, Finish(codec, key, first, at, ttl)), mid), again)
    ensures var s' := After(Step(s, Finish(codec, key, first, at, ttl)), mid);
            var reply := Respond(codec, AnswerOf(s', again), second);
            && (again.now < at + ttl ==> reply == Respond(codec, Miss, first).(executed := false))
            && (again.now >= at + ttl ==> reply == Respond(codec, Miss, second))
  {
    AnswerAfterStore(s, Finish(codec, key, first, at, ttl), mid, again);
  }

  /** What a lookup answers after its key was stored: the entry while it is live, else no hit. */
  lemma AnswerAfterStore(s: System, put: Op, mid: seq<Op>, again: Op)
    requires Inv(s) && put.Put? && put.key != "" && Enabled(s, put) && Legal(Step(s, put), mid)
    requires NeverStored(mid, put.key) && |Used(Step(s, put), mid) - {put.key}| < s.cache.capacity
    requires again.Lookup? && again.key == put.key && Enabled(After(Step(s, put), mid), again)
    ensures var answer := AnswerOf(After(Step(s, put), mid), again);
            if again.now < put.entry.expiresAt then answer == Hit(put.entry) else !answer.Hit?
  {
    var s1 := Step(s, put);
    JustStored(s, put);
    if again.now < put.entry.expiresAt {
      StaysCached(s1, mid, put.key, put.entry);
    } else {
      FindAt(s1.cache.lru, 0);
      SameOrGone(s1, mid, put.key, put.entry);
    }
  }

  /** An outcome that cannot be serialized is not kept: the key is free, and the next lookup of it
      executes unless an earlier result is still live. */
  lemma UnserializableIsCancelled<R>(codec: Codec<R>, s: System, key: Key, outcome: Outcome<R>, at: Time, ttl: nat)
    requires codec.serialize(outcome.response).None? && key != "" && s.clock <= at
    ensures var op := Finish(codec, key, outcome, at, ttl);
            && Enabled(s, op) && key !in Step(s, op).cache.inFlight && Step(s, op).cache.lru == s.cache.lru
  {
  }
}
