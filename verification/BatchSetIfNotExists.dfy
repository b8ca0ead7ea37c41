/** BatchSetIfNotExists: check that no key exists, then write every item through the worker pool. */
module BatchSetIfNotExists {
  import opened Options
  import opened Values
  import opened WorkerPool
  import opened WorkerPoolProgress
  import opened Batch

  /** An item to store. A `None` job is an item whose key is nil. */
  datatype Entry = Entry(key: Value, value: Value, ttl: int)

  /** A failed set, which the cache may nevertheless have carried out (a request that timed out, say). */
  datatype SetError<E> = SetError(error: E, applied: bool)

  type SetReply<V, E> = Reply<V, SetError<E>>

  /** How the KeysExist call ends: with an error, with the flags of the cache, or with a response of unknown type. */
  datatype Probe<E> = ProbeError(error: E) | ProbeFlags | ProbeUnknown

  datatype Result<V, E> =
    | NotStored
    | Stored(responses: map<Value, V>)
    | CheckError(checkErrors: map<Option<Value>, E>)
    | SetErrors(setErrors: map<Value, SetError<E>>)
    | Panicked

  type Calls<!V, !E> = seq<(Entry, SetReply<V, E>)>

  /** The cache of one name, with no writer other than the batch. */
  class Cache {
    var store: map<seq<byte>, seq<byte>>
  }

  function EntryKey(e: Entry): Value { e.key }

  function ExtractKeys(items: seq<Option<Entry>>): (keys: seq<Option<Value>>)
    ensures |keys| == |items|
  {
    seq(|items|, i requires 0 <= i < |items| => if items[i].None? then None else Some(items[i].value.key))
  }

  /** The client itself rejects a KeysExist request with a nil or an empty key. */
  predicate ValidKeys(keys: seq<Option<Value>>) {
    forall i | 0 <= i < |keys| :: keys[i].Some? && AsBytes(keys[i].value) != []
  }

  predicate IsStored(store: map<seq<byte>, seq<byte>>, key: Option<Value>) {
    key.Some? && AsBytes(key.value) in store
  }

  /** The effect of the set calls, in the order the cache carried them out. */
  function Applied<V, E>(calls: Calls<V, E>, store: map<seq<byte>, seq<byte>>): map<seq<byte>, seq<byte>> {
    if calls == [] then store
    else
      var before, (item, reply) := Applied(calls[..|calls| - 1], store), calls[|calls| - 1];
      if reply.Ok? || reply.error.applied then before[AsBytes(item.key) := AsBytes(item.value)] else before
  }

  /** Maps every key to one error; a byte-slice key makes it panic. A nil key is an ordinary map key. */
  method CreateErrorMapping<E>(keys: seq<Option<Value>>, error: E) returns (out: Option<map<Option<Value>, E>>)
    ensures out.None? <==> !AllHashable(keys, Itself)
    ensures out.Some? ==> out.value.Keys == (set k | k in keys) && forall k | k in keys :: out.value[k] == error
  {
    var m: map<Option<Value>, E> := map[];
    for i := 0 to |keys|
      invariant m.Keys == set k | k in keys[..i]
      invariant forall k | k in keys[..i] :: m[k] == error
      invariant AllHashable(keys[..i], Itself)
    {
      assert keys[..i + 1] == keys[..i] + [keys[i]];
      if keys[i].Some? && !Hashable(keys[i].value) {
        return None;
      }
      m := m[keys[i] := error];
    }
    assert keys[..|keys|] == keys;
    return Some(m);
  }

  method AnyExists(store: map<seq<byte>, seq<byte>>, keys: seq<Option<Value>>) returns (found: bool)
    ensures found <==> exists i | 0 <= i < |keys| :: IsStored(store, keys[i])
  {
    for i := 0 to |keys|
      invariant forall j | 0 <= j < i :: !IsStored(store, keys[j])
    {
      if IsStored(store, keys[i]) {
        return true;
      }
    }
    return false;
  }

  // ---------- What successful sets leave in the cache ----------

  /** Some item with these key bytes carries these value bytes. */
  ghost predicate Carries(items: seq<Option<Entry>>, key: seq<byte>, value: seq<byte>) {
    exists i | 0 <= i < |items| ::
      items[i].Some? && AsBytes(items[i].value.key) == key && AsBytes(items[i].value.value) == value
  }

  ghost predicate Mentions(items: seq<Option<Entry>>, key: seq<byte>) {
    exists i | 0 <= i < |items| :: items[i].Some? && AsBytes(items[i].value.key) == key
  }

  /** Whatever the sets did, a key of the cache either is as before or holds the value of one of the items with that key. */
  lemma {:induction false} AppliedValues<V, E>(
      calls: Calls<V, E>, store: map<seq<byte>, seq<byte>>, items: seq<Option<Entry>>)
    requires forall i | 0 <= i < |calls| :: Some(calls[i].0) in items
    ensures store.Keys <= Applied(calls, store).Keys
    ensures forall b | b in Applied(calls, store) ::
      || (b in store && Applied(calls, store)[b] == store[b])
      || Carries(items, b, Applied(calls, store)[b])
    ensures forall b | !Mentions(items, b) && b in Applied(calls, store) :: b in store && Applied(calls, store)[b] == store[b]
  {
    if calls != [] {
      var n := |calls| - 1;
      AppliedValues(calls[..n], store, items);
      var item := calls[n].0;
      var i :| 0 <= i < |items| && items[i] == Some(item);
      assert Carries(items, AsBytes(item.key), AsBytes(item.value));
      assert Mentions(items, AsBytes(item.key));
    }
  }

  /** After a successful set of each item, every key of an item holds the value of one of the items with that key. */
  lemma {:induction false} AppliedAll<V, E>(
      calls: Calls<V, E>, store: map<seq<byte>, seq<byte>>, items: seq<Option<Entry>>, done: nat)
    requires done <= |calls|
    requires forall i | 0 <= i < |calls| :: Some(calls[i].0) in items && calls[i].1.Ok?
    ensures forall i | 0 <= i < done ::
      var b := AsBytes(calls[i].0.key);
      b in Applied(calls[..done], store) && Carries(items, b, Applied(calls[..done], store)[b])
  {
    if done > 0 {
      AppliedAll(calls, store, items, done - 1);
      assert calls[..done][..done - 1] == calls[..done - 1];
      var item := calls[done - 1].0;
      var i :| 0 <= i < |items| && items[i] == Some(item);
      assert Carries(items, AsBytes(item.key), AsBytes(item.value));
    }
  }

  /** The calls that returned are one per item: each call is for an item and each item had its call. */
  lemma CallsMatchItems<V, E>(items: seq<Option<Entry>>, replies: Calls<V, E>, calls: Calls<V, E>)
    requires multiset(Jobs(replies)) == multiset(items) && multiset(calls) == multiset(replies)
    ensures forall i | 0 <= i < |calls| :: Some(calls[i].0) in items
    ensures forall i | 0 <= i < |items| :: exists k | 0 <= k < |calls| :: Some(calls[k].0) == items[i]
    ensures |calls| == |replies| == |items|
    ensures (forall i | 0 <= i < |calls| :: calls[i].1.Ok?) <==> forall i | 0 <= i < |replies| :: replies[i].1.Ok?
  {
    assert |multiset(calls)| == |calls| && |multiset(replies)| == |replies|;
    assert |multiset(Jobs(replies))| == |replies| && |multiset(items)| == |items|;
    forall i | 0 <= i < |calls| ensures Some(calls[i].0) in items {
      assert calls[i] in multiset(replies);
      var k :| 0 <= k < |replies| && replies[k] == calls[i];
      assert Jobs(replies)[k] in multiset(items);
    }
    forall i | 0 <= i < |items| ensures exists k | 0 <= k < |calls| :: Some(calls[k].0) == items[i] {
      assert items[i] in multiset(Jobs(replies));
      var j :| 0 <= j < |replies| && Jobs(replies)[j] == items[i];
      assert replies[j] in multiset(calls);
      var k :| 0 <= k < |calls| && calls[k] == replies[j];
    }
    if forall i | 0 <= i < |replies| :: replies[i].1.Ok? {
      forall i | 0 <= i < |calls| ensures calls[i].1.Ok? { assert calls[i] in multiset(replies); }
    }
    if forall i | 0 <= i < |calls| :: calls[i].1.Ok? {
      forall i | 0 <= i < |replies| ensures replies[i].1.Ok? { assert replies[i] in multiset(calls); }
    }
  }

  /** Some set for this key failed. */
  ghost predicate SetFailed<V, E>(replies: Calls<V, E>, key: Value) {
    exists i | 0 <= i < |replies| :: replies[i].0.key == key && replies[i].1.Failed?
  }

  lemma EntryLog<V, E>(replies: Calls<V, E>)
    ensures forall i | 0 <= i < |replies| :: ByKey(replies, EntryKey)[i] == (replies[i].0.key, replies[i].1)
  {
    forall i | 0 <= i < |replies| ensures ByKey(replies, EntryKey)[i] == (replies[i].0.key, replies[i].1) {
      assert ByKey(replies, EntryKey)[i].0 == EntryKey(replies[i].0);
    }
  }

  lemma FailureDomain<V, E>(replies: Calls<V, E>, key: Value)
    ensures key in Failures(ByKey(replies, EntryKey)) <==> SetFailed(replies, key)
  {
    var log := ByKey(replies, EntryKey);
    EntryLog(replies);
    EntriesAreReplies(log);
    if i :| 0 <= i < |replies| && replies[i].0.key == key && replies[i].1.Failed? {
      assert log[i].0 == key && log[i].1.Failed?;
    }
    if key in Failures(log) {
      var i :| 0 <= i < |log| && log[i].0 == key && log[i].1.Failed?;
      assert replies[i].0.key == key && replies[i].1.Failed?;
    }
  }

  /** The two maps tell a batch with a failed set from one without, and a batch without items from both. */
  lemma EmptyMaps<V, E>(replies: Calls<V, E>)
    ensures Failures(ByKey(replies, EntryKey)) == map[] <==> forall i | 0 <= i < |replies| :: replies[i].1.Ok?
    ensures replies != [] && Failures(ByKey(replies, EntryKey)) == map[] ==> Successes(ByKey(replies, EntryKey)) != map[]
  {
    var log := ByKey(replies, EntryKey);
    EntryLog(replies);
    EntriesAreReplies(log);
    forall i | 0 <= i < |replies| ensures replies[i].1.Failed? ==> log[i].0 in Failures(log) {
    }
    if Failures(log) != map[] {
      var k :| k in Failures(log);
      FailureDomain(replies, k);
    } else if replies != [] {
      assert log[0].1.Ok? && log[0].0 in Successes(log);
    }
  }

  /** Every key of an item holds the value of one of the items with that key, and no other key has changed. */
  ghost predicate Wrote(items: seq<Option<Entry>>, before: map<seq<byte>, seq<byte>>, after: map<seq<byte>, seq<byte>>) {
    && (forall b | Mentions(items, b) :: b in after && Carries(items, b, after[b]))
    && (forall b | !Mentions(items, b) :: b in after <==> b in before)
    && (forall b | !Mentions(items, b) && b in before :: after[b] == before[b])
  }

  lemma AllStored<V, E>(
      items: seq<Option<Entry>>, replies: Calls<V, E>, calls: Calls<V, E>, before: map<seq<byte>, seq<byte>>)
    requires multiset(Jobs(replies)) == multiset(items) && multiset(calls) == multiset(replies)
    requires forall i | 0 <= i < |replies| :: replies[i].1.Ok?
    ensures Wrote(items, before, Applied(calls, before))
  {
    CallsMatchItems(items, replies, calls);
    AppliedValues(calls, before, items);
    AppliedAll(calls, before, items, |calls|);
    assert calls[..|calls|] == calls;
    var after := Applied(calls, before);
    forall b | Mentions(items, b) ensures b in after && Carries(items, b, after[b]) {
      var i :| 0 <= i < |items| && items[i].Some? && AsBytes(items[i].value.key) == b;
      var k :| 0 <= k < |calls| && Some(calls[k].0) == items[i];
    }
  }

  /** Every item has a key, and none is empty. */
  ghost predicate ValidItems(items: seq<Option<Entry>>) {
    forall i | 0 <= i < |items| :: items[i].Some? && AsBytes(items[i].value.key) != []
  }

  /** No item's key is a byte slice. */
  ghost predicate StringKeys(items: seq<Option<Entry>>) {
    forall i | 0 <= i < |items| && items[i].Some? :: items[i].value.key.String?
  }

  /** Does the check succeed and find no item's key stored? Only then is anything written. */
  ghost predicate PassesCheck<E>(store: map<seq<byte>, seq<byte>>, items: seq<Option<Entry>>, probe: Probe<E>) {
    ValidItems(items) && probe.ProbeFlags? && forall b | Mentions(items, b) :: b !in store
  }

  /** The keys extracted are the items' own, in order; so the checks on them are checks on the items. */
  lemma KeysOfItems(items: seq<Option<Entry>>, store: map<seq<byte>, seq<byte>>)
    ensures forall i | 0 <= i < |items| ::
      ExtractKeys(items)[i] == match items[i] { case None => None case Some(item) => Some(item.key) }
    ensures ValidKeys(ExtractKeys(items)) <==> ValidItems(items)
    ensures AllHashable(ExtractKeys(items), Itself) <==> StringKeys(items)
    ensures AllHashable(items, EntryKey) <==> StringKeys(items)
    ensures (exists i | 0 <= i < |items| :: IsStored(store, ExtractKeys(items)[i]))
      <==> exists b :: Mentions(items, b) && b in store
  {
    var keys := ExtractKeys(items);
    forall i | 0 <= i < |items| && items[i].Some?
      ensures Itself(keys[i].value) == EntryKey(items[i].value) == items[i].value.key
    {
    }
    if i :| 0 <= i < |items| && IsStored(store, keys[i]) {
      assert Mentions(items, AsBytes(items[i].value.key));
    }
    if b :| Mentions(items, b) && b in store {
      var i :| 0 <= i < |items| && items[i].Some? && AsBytes(items[i].value.key) == b;
      assert IsStored(store, keys[i]);
    }
  }

  /** No set that succeeded, or failed after taking effect, was for this key. */
  ghost predicate Untouched<V, E>(replies: Calls<V, E>, b: seq<byte>) {
    forall i | 0 <= i < |replies| && AsBytes(replies[i].0.key) == b ::
      replies[i].1.Failed? && !replies[i].1.error.applied
  }

  lemma {:induction false} AppliedUntouched<V, E>(calls: Calls<V, E>, store: map<seq<byte>, seq<byte>>, b: seq<byte>)
    requires Untouched(calls, b)
    ensures b in Applied(calls, store) <==> b in store
    ensures b in store ==> Applied(calls, store)[b] == store[b]
  {
    if calls != [] {
      AppliedUntouched(calls[..|calls| - 1], store, b);
    }
  }

  lemma {:induction false} AppliedTouched<V, E>(
      calls: Calls<V, E>, store: map<seq<byte>, seq<byte>>, items: seq<Option<Entry>>, b: seq<byte>)
    requires forall i | 0 <= i < |calls| :: Some(calls[i].0) in items
    requires !Untouched(calls, b)
    ensures b in Applied(calls, store) && Carries(items, b, Applied(calls, store)[b])
  {
    var n := |calls| - 1;
    var item := calls[n].0;
    if AsBytes(item.key) == b && (calls[n].1.Ok? || calls[n].1.error.applied) {
      var i :| 0 <= i < |items| && items[i] == Some(item);
      assert Carries(items, b, AsBytes(item.value));
    } else {
      assert !Untouched(calls[..n], b);
      AppliedTouched(calls[..n], store, items, b);
    }
  }

  /** Exactly the keys some set took effect on are written, each with the value of one of its items. */
  lemma WritesExactly<V, E>(
      items: seq<Option<Entry>>, replies: Calls<V, E>, calls: Calls<V, E>, store: map<seq<byte>, seq<byte>>, b: seq<byte>)
    requires multiset(Jobs(replies)) == multiset(items) && multiset(calls) == multiset(replies)
    ensures Untouched(replies, b) ==>
      (b in Applied(calls, store) <==> b in store) && (b in store ==> Applied(calls, store)[b] == store[b])
    ensures !Untouched(replies, b) ==> b in Applied(calls, store) && Carries(items, b, Applied(calls, store)[b])
  {
    CallsMatchItems(items, replies, calls);
    forall i | 0 <= i < |calls| ensures calls[i] in replies { assert calls[i] in multiset(replies); }
    forall i | 0 <= i < |replies| ensures replies[i] in calls { assert replies[i] in multiset(calls); }
    if Untouched(calls, b) {
      AppliedUntouched(calls, store, b);
      assert Untouched(replies, b);
    } else {
      AppliedTouched(calls, store, items, b);
      assert !Untouched(replies, b);
    }
  }

  /** What the sets of a batch leave behind: exactly the keys some set took effect on are written. */
  ghost predicate Written<V, E>(
      items: seq<Option<Entry>>, replies: Calls<V, E>, before: map<seq<byte>, seq<byte>>, after: map<seq<byte>, seq<byte>>)
  {
    && (forall b | Untouched(replies, b) :: b in after <==> b in before)
    && (forall b | Untouched(replies, b) && b in before :: after[b] == before[b])
    && (forall b | !Untouched(replies, b) :: b in after && Carries(items, b, after[b]))
  }

  lemma SetsWrite<V, E>(
      items: seq<Option<Entry>>, replies: Calls<V, E>, calls: Calls<V, E>, store: map<seq<byte>, seq<byte>>)
    requires multiset(Jobs(replies)) == multiset(items) && multiset(calls) == multiset(replies)
    ensures Written(items, replies, store, Applied(calls, store))
  {
    forall b
      ensures Untouched(replies, b) ==>
        (b in Applied(calls, store) <==> b in store) && (b in store ==> Applied(calls, store)[b] == store[b])
      ensures !Untouched(replies, b) ==> b in Applied(calls, store) && Carries(items, b, Applied(calls, store)[b])
    {
      WritesExactly(items, replies, calls, store, b);
    }
  }

  /** All that one set per item amounts to. */
  lemma SetsDone<V, E>(
      items: seq<Option<Entry>>, replies: Calls<V, E>, calls: Calls<V, E>, store: map<seq<byte>, seq<byte>>)
    requires multiset(Jobs(replies)) == multiset(items) && multiset(calls) == multiset(replies)
    ensures |replies| == |items| && Written(items, replies, store, Applied(calls, store))
    ensures forall k :: k in Failures(ByKey(replies, EntryKey)) <==> SetFailed(replies, k)
    ensures Failures(ByKey(replies, EntryKey)) == map[] <==> forall i | 0 <= i < |replies| :: replies[i].1.Ok?
    ensures replies != [] && Failures(ByKey(replies, EntryKey)) == map[] ==>
      Successes(ByKey(replies, EntryKey)) != map[] && Wrote(items, store, Applied(calls, store))
  {
    SetsWrite(items, replies, calls, store);
    CallsMatchItems(items, replies, calls);
    EmptyMaps(replies);
    forall k ensures k in Failures(ByKey(replies, EntryKey)) <==> SetFailed(replies, k) { FailureDomain(replies, k); }
    if Failures(ByKey(replies, EntryKey)) == map[] {
      AllStored(items, replies, calls, store);
    }
  }

  /** The check is passed: the BatchSet, and what is made of its two maps. */
  method SetAll<V(!new, 00), E(!new, 00)>(
      cache: Cache, items: seq<Option<Entry>>,
      schedule: Scheduler<Entry, SetReply<V, E>>, ghost client: (Entry, SetReply<V, E>) -> bool)
    returns (out: Result<V, E>, replies: Calls<V, E>)
    requires Fair(schedule, client) && ValidItems(items)
    modifies cache
    ensures out.Stored? || out.SetErrors? || out.Panicked?
    ensures StringKeys(items) ==>
      && Answers(items, replies, client)
      && (out.Stored? <==> items != [] && forall i | 0 <= i < |replies| :: replies[i].1.Ok?)
      && (out.SetErrors? <==> exists i | 0 <= i < |replies| :: replies[i].1.Failed?)
      && (out.Panicked? <==> items == [])
    ensures out.Stored? || out.SetErrors? ==> StringKeys(items) && Written(items, replies, old(cache.store), cache.store)
    ensures out.Stored? ==>
      Wrote(items, old(cache.store), cache.store) && LastSuccesses(Some(out.responses), replies, EntryKey)
    ensures out.SetErrors? ==>
      && LastFailures(Some(out.setErrors), replies, EntryKey)
      && forall k :: k in out.setErrors <==> SetFailed(replies, k)
    ensures old(cache.store).Keys <= cache.store.Keys
    ensures forall b | b in cache.store ::
      (b in old(cache.store) && cache.store[b] == old(cache.store)[b]) || Carries(items, b, cache.store[b])
  {
    KeysOfItems(items, cache.store);
    var props := new Request(items, 0);
    var sets, answers, calls := BatchCall(props, EntryKey, schedule, client);
    replies := answers;
    AppliedValues(calls, cache.store, items);
    cache.store := Applied(calls, cache.store);
    if !sets.Returns? {
      return Panicked, replies;
    }
    SetsDone(items, replies, calls, old(cache.store));
    if sets.errors.Some? {
      out := SetErrors(sets.errors.value);
    } else if sets.responses.None? {
      out := Panicked;
    } else {
      out := Stored(sets.responses.value);
    }
  }

  /**
   The whole operation. `probe` is how the KeysExist call ends and `client` which replies a set can get; both are the
   environment's choice. It takes no concurrency: the inner BatchSet always runs with the default.
   */
  method BatchSetIfNotExists<V(!new, 00), E(!new, 00)>(
      cache: Cache, items: seq<Option<Entry>>, probe: Probe<E>, invalidKey: E, unknownResponse: E,
      schedule: Scheduler<Entry, SetReply<V, E>>, ghost client: (Entry, SetReply<V, E>) -> bool)
    returns (out: Result<V, E>, replies: Calls<V, E>)
    requires Fair(schedule, client)
    modifies cache
    // A key that exists keeps the whole batch from being written.
    ensures out.NotStored? <==>
      ValidItems(items) && probe.ProbeFlags? && exists b :: Mentions(items, b) && b in old(cache.store)
    ensures !PassesCheck(old(cache.store), items, probe) ==> cache.store == old(cache.store)
    // A failed check names every key, unless a byte slice among them makes storing the error panic.
    ensures out.CheckError? <==> !(ValidItems(items) && probe.ProbeFlags?) && StringKeys(items)
    ensures out.CheckError? ==> forall k :: k in out.checkErrors <==>
      exists i | 0 <= i < |items| :: k == match items[i] { case None => None case Some(item) => Some(item.key) }
    ensures out.CheckError? ==>
      forall k | k in out.checkErrors :: out.checkErrors[k] ==
        if !ValidItems(items) then invalidKey else if probe.ProbeError? then probe.error else unknownResponse
    // Once past the check, one set per item is made; the answer tells whether all of them succeeded.
    ensures PassesCheck(old(cache.store), items, probe) && StringKeys(items) ==>
      && Answers(items, replies, client)
      && (out.Stored? <==> items != [] && forall i | 0 <= i < |replies| :: replies[i].1.Ok?)
      && (out.SetErrors? <==> exists i | 0 <= i < |replies| :: replies[i].1.Failed?)
      && (out.Panicked? <==> items == [])
    ensures out.Stored? || out.SetErrors? ==>
      PassesCheck(old(cache.store), items, probe) && StringKeys(items)
    ensures out.Stored? || out.SetErrors? ==> forall b | Mentions(items, b) :: b !in old(cache.store)
    ensures out.Stored? ==>
      Wrote(items, old(cache.store), cache.store) && LastSuccesses(Some(out.responses), replies, EntryKey)
    ensures out.SetErrors? ==>
      && LastFailures(Some(out.setErrors), replies, EntryKey)
      && Written(items, replies, old(cache.store), cache.store)
      && forall k :: k in out.setErrors <==> SetFailed(replies, k)
    // Whatever happens, nothing is removed, and a key either keeps its value or takes that of one of its items.
    ensures old(cache.store).Keys <= cache.store.Keys
    ensures forall b | b in cache.store ::
      (b in old(cache.store) && cache.store[b] == old(cache.store)[b]) || Carries(items, b, cache.store[b])
  {
    replies := [];
    var keys := ExtractKeys(items);
    KeysOfItems(items, cache.store);
    if !ValidKeys(keys) || probe.ProbeError? {
      var errors := CreateErrorMapping(keys, if ValidKeys(keys) then probe.error else invalidKey);
      out := if errors.None? then Panicked else CheckError(errors.value);
      return;
    }
    if probe.ProbeUnknown? {
      var errors := CreateErrorMapping(keys, unknownResponse);
      out := if errors.None? then Panicked else CheckError(errors.value);
      return;
    }
    var exists_ := AnyExists(cache.store, keys);
    if exists_ {
      out := NotStored;
      return;
    }
    out, replies := SetAll(cache, items, schedule, client);
  }
}
