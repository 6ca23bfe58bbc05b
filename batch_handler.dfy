/** The deferred-invalidation accumulator of pkg/common/storage/cache/redis:
    a BatchDeleterRedis collects cache keys and later tags them as deleted,
    one rockscache batch per Redis Cluster hash slot. */
module BatchHandler {
  import opened Errs
  import opened Sequences

  /** A go-redis UniversalClient. Only whether it is a *redis.ClusterClient matters. */
  datatype RedisClient = Standalone(id: nat) | Cluster(id: nat)

  /** The rockscache options this code sets; the 0.2 random expiry adjustment is a float and not modelled. */
  datatype RocksOptions = RocksOptions(strongConsistency: bool)

  /** A rockscache client built over a Redis client with some options. */
  datatype RocksClient = RocksClient(redis: RedisClient, options: RocksOptions)

  /** What the Redis deployment answers while one flush runs. */
  datatype Env = Env(
    pipeline: Option<Error>,             // error returned by Exec of the CLUSTER KEYSLOT pipeline
    slotOf: string -> Option<int>,       // each key's CLUSTER KEYSLOT reply; None when that command failed
    tag: seq<string> -> Option<Error>)   // the reply of TagAsDeletedBatch2 for one batch of keys

  /** One TagAsDeletedBatch2 call made by a flush, with the error it returned. */
  datatype Attempt = Attempt(slot: int, keys: seq<string>, outcome: Option<Error>)

  /** GetRocksCacheOptions: strongly consistent rockscache. */
  function GetRocksCacheOptions(): (o: RocksOptions)
    ensures o.strongConsistency
  {
    RocksOptions(true)
  }

  /** The keys of `keys` whose slot lookup answered `slot`, in input order. */
  function SlotKeys(keys: seq<string>, slotOf: string -> Option<int>, slot: int): seq<string>
  {
    if keys == [] then []
    else SlotKeys(keys[..|keys| - 1], slotOf, slot)
         + (if slotOf(keys[|keys| - 1]) == Some(slot) then [keys[|keys| - 1]] else [])
  }

  /** The slots that at least one key of `keys` resolved to. */
  function Slots(keys: seq<string>, slotOf: string -> Option<int>): set<int>
  {
    set k | k in keys && slotOf(k).Some? :: slotOf(k).value
  }

  /** The slot groups a flush works on: on a cluster, one group per resolved slot;
      otherwise a single group, slot 0, holding every key. */
  function Groups(client: RedisClient, keys: seq<string>, slotOf: string -> Option<int>): map<int, seq<string>>
  {
    if client.Cluster? then map s | s in Slots(keys, slotOf) :: SlotKeys(keys, slotOf, s)
    else map[0 := keys]
  }

  /** A key is in a slot's group exactly when it was asked for and resolved to that slot. */
  lemma {:induction false} SlotKeysMembership(keys: seq<string>, slotOf: string -> Option<int>, slot: int)
    ensures forall k :: k in SlotKeys(keys, slotOf, slot) <==> k in keys && slotOf(k) == Some(slot)
  {
    if keys != [] {
      var p := keys[..|keys| - 1];
      SlotKeysMembership(p, slotOf, slot);
      assert keys == p + [keys[|keys| - 1]];
    }
  }

  /** A slot's group keeps the input order. */
  lemma {:induction false} SlotKeysInOrder(keys: seq<string>, slotOf: string -> Option<int>, slot: int)
    ensures Subseq(SlotKeys(keys, slotOf, slot), keys)
  {
    if keys != [] {
      var p, k := keys[..|keys| - 1], keys[|keys| - 1];
      SlotKeysInOrder(p, slotOf, slot);
      assert keys == p + [k];
      if slotOf(k) == Some(slot) {
        var g := SlotKeys(p, slotOf, slot);
        assert (g + [k])[..|g|] == g;
      } else {
        assert SlotKeys(keys, slotOf, slot) == SlotKeys(p, slotOf, slot);
        SubseqExtend(SlotKeys(p, slotOf, slot), p, k);
      }
    }
  }

  /** A slot no key resolved to has an empty group. */
  lemma {:induction false} SlotKeysOfUnusedSlot(keys: seq<string>, slotOf: string -> Option<int>, slot: int)
    requires slot !in Slots(keys, slotOf)
    ensures SlotKeys(keys, slotOf, slot) == []
  {
    if keys != [] {
      var p, k := keys[..|keys| - 1], keys[|keys| - 1];
      assert keys == p + [k];
      assert Slots(p, slotOf) <= Slots(keys, slotOf);
      SlotKeysOfUnusedSlot(p, slotOf, slot);
    }
  }

  /** A key list without repeats gives groups without repeats. */
  lemma {:induction false} SlotKeysNoDuplicates(keys: seq<string>, slotOf: string -> Option<int>, slot: int)
    requires NoDuplicates(keys)
    ensures NoDuplicates(SlotKeys(keys, slotOf, slot))
  {
    if keys != [] {
      var p := keys[..|keys| - 1];
      assert NoDuplicates(p);
      SlotKeysNoDuplicates(p, slotOf, slot);
      SlotKeysMembership(p, slotOf, slot);
    }
  }

  /** Every key lands in exactly one group: its own slot's on a cluster, slot 0 otherwise;
      a key whose slot lookup failed lands in none. */
  lemma GroupsPartitionKeys(client: RedisClient, keys: seq<string>, slotOf: string -> Option<int>)
    ensures forall s, k :: s in Groups(client, keys, slotOf) ==>
      (k in Groups(client, keys, slotOf)[s] <==>
         k in keys && (if client.Cluster? then slotOf(k) == Some(s) else s == 0))
    ensures forall k :: k in keys && (client.Standalone? || slotOf(k).Some?) ==>
      (if client.Cluster? then slotOf(k).value else 0) in Groups(client, keys, slotOf)
  {
    forall s | s in Slots(keys, slotOf) {
      SlotKeysMembership(keys, slotOf, s);
    }
  }

  /** At most one tag call per distinct slot: there are never more groups than keys. */
  lemma {:induction false} SlotsBound(keys: seq<string>, slotOf: string -> Option<int>)
    ensures |Slots(keys, slotOf)| <= |keys|
  {
    if keys != [] {
      var p, k := keys[..|keys| - 1], keys[|keys| - 1];
      SlotsBound(p, slotOf);
      assert keys == p + [k];
      if slotOf(k).Some? {
        assert Slots(keys, slotOf) == Slots(p, slotOf) + {slotOf(k).value};
      } else {
        assert Slots(keys, slotOf) == Slots(p, slotOf);
      }
    }
  }

  /** groupKeysBySlot: on a cluster, a failed pipeline is an error; otherwise the groups. */
  method GroupKeysBySlot(client: RedisClient, keys: seq<string>, env: Env) returns (r: Result<map<int, seq<string>>>)
    ensures client.Cluster? && env.pipeline.Some? ==> r == Err(SlotLookupFailed(env.pipeline.value))
    ensures !(client.Cluster? && env.pipeline.Some?) ==> r == Ok(Groups(client, keys, env.slotOf))
  {
    if client.Standalone? {
      return Ok(map[0 := keys]);
    }
    if env.pipeline.Some? {
      return Err(SlotLookupFailed(env.pipeline.value));
    }
    var slots: map<int, seq<string>> := map[];
    var i := 0;
    while i < |keys|
      invariant 0 <= i <= |keys|
      invariant slots.Keys == Slots(keys[..i], env.slotOf)
      invariant forall s :: s in slots ==> slots[s] == SlotKeys(keys[..i], env.slotOf, s)
    {
      assert keys[..i + 1] == keys[..i] + [keys[i]];
      assert keys[..i + 1][..i] == keys[..i];
      var slot := env.slotOf(keys[i]);
      if slot.Some? {
        // a key whose own lookup failed is only logged and skipped
        var s := slot.value;
        if s !in slots {
          SlotKeysOfUnusedSlot(keys[..i], env.slotOf, s);
        }
        slots := slots[s := (if s in slots then slots[s] else []) + [keys[i]]];
        assert Slots(keys[..i + 1], env.slotOf) == Slots(keys[..i], env.slotOf) + {s};
      } else {
        assert Slots(keys[..i + 1], env.slotOf) == Slots(keys[..i], env.slotOf);
      }
      i := i + 1;
    }
    assert keys[..|keys|] == keys;
    assert slots == Groups(client, keys, env.slotOf) by {
      forall s | s in slots
        ensures slots[s] == Groups(client, keys, env.slotOf)[s]
      {
      }
    }
    return Ok(slots);
  }

  /** A flush tagged every group exactly once, with that group's keys, whatever each call answered. */
  predicate TaggedEachGroupOnce(attempts: seq<Attempt>, groups: map<int, seq<string>>, tag: seq<string> -> Option<Error>)
  {
    (forall i :: 0 <= i < |attempts| ==>
       attempts[i].slot in groups && attempts[i].keys == groups[attempts[i].slot] &&
       attempts[i].outcome == tag(attempts[i].keys)) &&
    (forall i, j :: 0 <= i < j < |attempts| ==> attempts[i].slot != attempts[j].slot) &&
    (forall s :: s in groups ==> exists i :: 0 <= i < |attempts| && attempts[i].slot == s)
  }

  /** The outcome execDel promises for a (de-duplicated) key list: nothing for no keys;
      the pipeline's error, with no tag call, when slot grouping fails; otherwise
      success after one tag call per group, even when some of those calls failed. */
  predicate FlushOutcome(client: RedisClient, keys: seq<string>, env: Env, err: Option<Error>, attempts: seq<Attempt>)
  {
    if keys == [] then err == None && attempts == []
    else if client.Cluster? && env.pipeline.Some? then
      err == Some(SlotLookupFailed(env.pipeline.value)) && attempts == []
    else
      err == None && TaggedEachGroupOnce(attempts, Groups(client, keys, env.slotOf), env.tag)
  }

  /** The slot a key is grouped under, if any: its cluster slot, or 0 without a cluster. */
  function GroupSlot(client: RedisClient, slotOf: string -> Option<int>, key: string): Option<int>
  {
    if client.Cluster? then slotOf(key) else Some(0)
  }

  /** The group slots of `keys`, each once, in the order their first key appears.
      Go ranges over the slot map in an unspecified order; the model visits the
      groups in this order, one of those Go may take. */
  function SlotOrder(client: RedisClient, keys: seq<string>, slotOf: string -> Option<int>): seq<int>
  {
    Dedup(ResolvedSlots(client, keys, slotOf))
  }

  function ResolvedSlots(client: RedisClient, keys: seq<string>, slotOf: string -> Option<int>): seq<int>
  {
    if keys == [] then []
    else
      var s := GroupSlot(client, slotOf, keys[|keys| - 1]);
      ResolvedSlots(client, keys[..|keys| - 1], slotOf) + (if s.Some? then [s.value] else [])
  }

  lemma {:induction false} ResolvedSlotsAreSlots(client: RedisClient, keys: seq<string>, slotOf: string -> Option<int>)
    requires client.Cluster?
    ensures forall s :: s in ResolvedSlots(client, keys, slotOf) <==> s in Slots(keys, slotOf)
  {
    if keys != [] {
      var p, k := keys[..|keys| - 1], keys[|keys| - 1];
      ResolvedSlotsAreSlots(client, p, slotOf);
      assert keys == p + [k];
      if slotOf(k).Some? {
        assert Slots(keys, slotOf) == Slots(p, slotOf) + {slotOf(k).value};
      } else {
        assert Slots(keys, slotOf) == Slots(p, slotOf);
      }
    }
  }

  /** The visiting order names every group once and nothing else. */
  lemma SlotOrderEnumeratesGroups(client: RedisClient, keys: seq<string>, slotOf: string -> Option<int>)
    requires keys != []
    ensures NoDuplicates(SlotOrder(client, keys, slotOf))
    ensures forall j :: 0 <= j < |SlotOrder(client, keys, slotOf)| ==> SlotOrder(client, keys, slotOf)[j] in Groups(client, keys, slotOf)
    ensures forall s :: s in Groups(client, keys, slotOf) ==> s in SlotOrder(client, keys, slotOf)
  {
    var rs := ResolvedSlots(client, keys, slotOf);
    var order := SlotOrder(client, keys, slotOf);
    if client.Cluster? {
      ResolvedSlotsAreSlots(client, keys, slotOf);
    } else {
      ResolvedSlotsStandalone(client, keys, slotOf);
      assert rs[0] == 0;
      assert 0 in order;
    }
    var groups := Groups(client, keys, slotOf);
    forall j | 0 <= j < |order|
      ensures order[j] in groups
    {
      assert order[j] in rs;
      if client.Cluster? {
        var i :| 0 <= i < |rs| && rs[i] == order[j];
        assert rs[i] in Slots(keys, slotOf);
      } else {
        assert order[j] == 0;
      }
    }
    forall s | s in groups
      ensures s in order
    {
      assert s in rs;
      var i :| 0 <= i < |rs| && rs[i] == s;
      assert rs[i] in order;
    }
  }

  lemma {:induction false} ResolvedSlotsStandalone(client: RedisClient, keys: seq<string>, slotOf: string -> Option<int>)
    requires client.Standalone?
    ensures |ResolvedSlots(client, keys, slotOf)| == |keys|
    ensures forall s :: s in ResolvedSlots(client, keys, slotOf) ==> s == 0
  {
    if keys != [] {
      ResolvedSlotsStandalone(client, keys[..|keys| - 1], slotOf);
    }
  }

  /** The loop of execDel over the slot groups: one TagAsDeletedBatch2 call per group,
      carrying on after a failed call. */
  method TagEachGroup(groups: map<int, seq<string>>, order: seq<int>, tag: seq<string> -> Option<Error>) returns (attempts: seq<Attempt>)
    requires NoDuplicates(order)
    requires forall j :: 0 <= j < |order| ==> order[j] in groups
    requires forall s :: s in groups ==> s in order
    ensures TaggedEachGroupOnce(attempts, groups, tag)
  {
    attempts := [];
    var i := 0;
    while i < |order|
      invariant 0 <= i <= |order|
      invariant |attempts| == i
      invariant forall j :: 0 <= j < i ==> attempts[j] == Attempt(order[j], groups[order[j]], tag(groups[order[j]]))
    {
      // a failed tag call is only logged; the remaining slots are still tagged
      var outcome := tag(groups[order[i]]);
      attempts := attempts + [Attempt(order[i], groups[order[i]], outcome)];
      i := i + 1;
    }
    forall s | s in groups
      ensures exists j :: 0 <= j < |attempts| && attempts[j].slot == s
    {
      var j :| 0 <= j < |order| && order[j] == s;
      assert attempts[j].slot == s;
    }
  }

  /** BatchDeleterRedis. `keys` is a value: every clone owns its own list. */
  class BatchDeleter {
    const client: RedisClient
    var keys: seq<string>
    const rocks: RocksClient
    const pubTopics: seq<string>

    /** The struct literal. */
    constructor (client: RedisClient, keys: seq<string>, rocks: RocksClient, pubTopics: seq<string>)
      ensures this.client == client && this.keys == keys && this.rocks == rocks && this.pubTopics == pubTopics
    {
      this.client := client;
      this.keys := keys;
      this.rocks := rocks;
      this.pubTopics := pubTopics;
    }

    /** execDel. The publish topics are only logged. */
    method ExecDel(keys: seq<string>, env: Env) returns (err: Option<Error>, attempts: seq<Attempt>)
      ensures FlushOutcome(client, keys, env, err, attempts)
    {
      attempts := [];
      if |keys| > 0 {
        var grouped := GroupKeysBySlot(client, keys, env);
        if grouped.Err? {
          return Some(grouped.error), [];
        }
        SlotOrderEnumeratesGroups(client, keys, env.slotOf);
        attempts := TagEachGroup(grouped.value, SlotOrder(client, keys, env.slotOf), env.tag);
      }
      err := None;
    }

    /** ExecDelWithKeys: flushes the given keys, de-duplicated; the pending list plays no part. */
    method ExecDelWithKeys(ks: seq<string>, env: Env) returns (err: Option<Error>, attempts: seq<Attempt>)
      ensures FlushOutcome(client, Dedup(ks), env, err, attempts)
    {
      err, attempts := ExecDel(Dedup(ks), env);
    }

    /** ChainExecDel: flushes the pending keys, de-duplicated. The list is not cleared,
        so flushing again tags the same groups again. */
    method ChainExecDel(env: Env) returns (err: Option<Error>, attempts: seq<Attempt>)
      ensures FlushOutcome(client, Dedup(keys), env, err, attempts)
    {
      err, attempts := ExecDel(Dedup(keys), env);
    }

    /** Clone: a new deleter with the same client, rockscache client, topics and
        pending keys, owning its own copy of the keys. */
    method Clone() returns (c: BatchDeleter)
      ensures fresh(c)
      ensures c.client == client && c.keys == keys && c.rocks == rocks && c.pubTopics == pubTopics
    {
      c := new BatchDeleter(client, keys, rocks, pubTopics);
    }

    /** AddKeys: appends to the pending list. */
    method AddKeys(ks: seq<string>)
      modifies this
      ensures keys == old(keys) + ks
    {
      keys := keys + ks;
    }
  }

  /** NewBatchDeleterRedis: an empty pending list over a fresh rockscache client. */
  method NewBatchDeleterRedis(redisClient: RedisClient, options: RocksOptions, redisPubTopics: seq<string>) returns (d: BatchDeleter)
    ensures fresh(d)
    ensures d.client == redisClient && d.keys == [] && d.rocks == RocksClient(redisClient, options) && d.pubTopics == redisPubTopics
  {
    d := new BatchDeleter(redisClient, [], RocksClient(redisClient, options), redisPubTopics);
  }

  /** With the pending list owned by each clone, two clones of one deleter that
      each add keys see their own additions only, and the deleter they came from
      is left as it was, whatever spare room the list had. */
  method SiblingClonesIsolated(d: BatchDeleter, p: seq<string>, q: seq<string>) returns (first: seq<string>, second: seq<string>, original: seq<string>)
    ensures first == d.keys + p
    ensures second == d.keys + q
    ensures original == d.keys
  {
    var x := d.Clone();
    x.AddKeys(p);
    var y := d.Clone();
    y.AddKeys(q);
    first, second, original := x.keys, y.keys, d.keys;
  }
}
