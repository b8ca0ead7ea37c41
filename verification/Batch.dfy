/**
 BatchDelete, BatchGet and BatchSet: one worker pool each, driven by an arbitrary scheduler, and the loop that sorts the
 drained replies into a map of responses and a map of errors.
 */
module Batch {
  import opened Options
  import opened Sums
  import opened Values
  import opened WorkerPool
  import opened WorkerPoolProgress

  const DEFAULT_CONCURRENCY := 5

  datatype Reply<+V, +E> = Ok(response: V) | Failed(error: E)

  /** How a batch call can end: it returns (nil pointers for empty maps), it panics, or it waits for ever. */
  datatype Outcome<V, E> =
    | Returns(responses: Option<map<Value, V>>, errors: Option<map<Value, E>>)
    | Panics
    | Hangs

  type Scheduler<!J, !R> = (nat, Pool<J, R>) -> Option<Event<R>>

  /**
   The Go scheduler and the cache client together: as long as some goroutine can move, one does, and a client call only
   returns a reply that `client` allows for its job.
   */
  ghost predicate Fair<J(!new), R(!new)>(schedule: Scheduler<J, R>, client: (J, R) -> bool) {
    forall n, p ::
      match schedule(n, p)
      case None => Stuck(p)
      case Some(e) => Enabled(p, e) && (e.Return? ==> client(p.workers[e.worker].job, e.reply))
  }

  // ---------- Running the pool ----------

  lemma {:induction false} RunAppend<J, R>(p: Pool<J, R>, es: seq<Event<R>>, q: Pool<J, R>, e: Event<R>)
    requires Run(p, es, q) && Enabled(q, e)
    ensures Run(p, es + [e], Next(q, e))
    decreases |es|
  {
    if es == [] {
      assert Run(Next(q, e), [], Next(q, e));
    } else {
      assert (es + [e])[1..] == es[1..] + [e];
      RunAppend(Next(p, es[0]), es[1..], q, e);
    }
  }

  lemma StuckMeansFinal<J(!new), R(!new, 00)>(p: Pool<J, R>)
    requires Inv(p) && Stuck(p)
    requires p.capacity >= 1 || |p.input| + p.width == 0
    ensures Final(p) <==> Completable(p)
  {
    if !Completable(p) {
      NeverFinal(p);
    } else if !Final(p) {
      ghost var reply: R :| true;
      var e := SomeStep(p, reply);
      assert false;
    }
  }

  /** Runs every goroutine of the batch until none can move. */
  method RunPool<J(!new), R(!new, 00)>(
      input: seq<Option<J>>, width: nat, capacity: nat, schedule: Scheduler<J, R>, ghost client: (J, R) -> bool)
    returns (p: Pool<J, R>, ghost es: seq<Event<R>>)
    requires Fair(schedule, client)
    requires capacity >= 1 || |input| + width == 0
    ensures Run(Start(input, width, capacity), es, p) && Stuck(p)
    ensures Inv(p) && p.input == input && p.width == width
    ensures Final(p) <==> NoNil(input) && (width > 0 || input == [])
    ensures forall i | 0 <= i < |p.calls| :: client(p.calls[i].0, p.calls[i].1)
  {
    p, es := Start(input, width, capacity), [];
    StartInv<J, R>(input, width, capacity);
    var n := 0;
    var next := schedule(n, p);
    while next.Some?
      invariant Inv(p) && p.input == input && p.width == width && p.capacity == capacity
      invariant Run(Start(input, width, capacity), es, p)
      invariant next == schedule(n, p)
      invariant forall i | 0 <= i < |p.calls| :: client(p.calls[i].0, p.calls[i].1)
      decreases Measure(p)
    {
      var e := next.value;
      StepInv(p, e);
      MeasureDrops(p, e);
      RunAppend(Start(input, width, capacity), es, p, e);
      p, es, n := Next(p, e), es + [e], n + 1;
      next := schedule(n, p);
    }
    StuckMeansFinal(p);
  }

  // ---------- Sorting replies into maps ----------

  type Log<!V, !E> = seq<(Value, Reply<V, E>)>

  /** What the drain loop leaves in its response map: for each key its last successful reply. */
  function Successes<V, E>(log: Log<V, E>): map<Value, V> {
    if log == [] then map[]
    else
      var m, last := Successes(log[..|log| - 1]), log[|log| - 1];
      if last.1.Ok? then m[last.0 := last.1.response] else m
  }

  function Failures<V, E>(log: Log<V, E>): map<Value, E> {
    if log == [] then map[]
    else
      var m, last := Failures(log[..|log| - 1]), log[|log| - 1];
      if last.1.Failed? then m[last.0 := last.1.error] else m
  }

  function Keys<V, E>(log: Log<V, E>): seq<Value> {
    seq(|log|, i requires 0 <= i < |log| => log[i].0)
  }

  /** The drain loop of BatchGet and BatchSet. It panics as soon as it meets a byte-slice key. */
  method Collect<V, E>(log: Log<V, E>) returns (panicked: bool, results: map<Value, V>, errors: map<Value, E>)
    ensures panicked <==> exists k | k in Keys(log) :: !Hashable(k)
    ensures !panicked ==> results == Successes(log) && errors == Failures(log)
  {
    results, errors := map[], map[];
    for i := 0 to |log|
      invariant results == Successes(log[..i]) && errors == Failures(log[..i])
      invariant forall j | 0 <= j < i :: Hashable(log[j].0)
    {
      var (key, reply) := log[i];
      assert Keys(log)[i] == key;
      assert log[..i + 1][..i] == log[..i];
      if !Hashable(key) {
        return true, results, errors;
      }
      if reply.Ok? {
        results := results[key := reply.response];
      } else {
        errors := errors[key := reply.error];
      }
    }
    assert log[..|log|] == log;
    panicked := false;
    assert forall k | k in Keys(log) :: Hashable(k);
  }

  /** The drain loop of BatchDelete, which stores only failures: it panics only on a byte-slice key that failed. */
  method CollectFailures<V, E>(log: Log<V, E>) returns (panicked: bool, errors: map<Value, E>)
    ensures panicked <==> exists i | 0 <= i < |log| :: log[i].1.Failed? && !Hashable(log[i].0)
    ensures !panicked ==> errors == Failures(log)
  {
    errors := map[];
    for i := 0 to |log|
      invariant errors == Failures(log[..i])
      invariant forall j | 0 <= j < i :: log[j].1.Failed? ==> Hashable(log[j].0)
    {
      var (key, reply) := log[i];
      assert log[..i + 1][..i] == log[..i];
      if reply.Failed? {
        if !Hashable(key) {
          return true, errors;
        }
        errors := errors[key := reply.error];
      }
    }
    assert log[..|log|] == log;
    panicked := false;
  }

  /** The last success of a key, and likewise its last error, is what its entry holds. */
  lemma {:induction false} LastReplyWins<V, E>(log: Log<V, E>, i: nat)
    requires i < |log|
    ensures log[i].1.Ok? && (forall j | i < j < |log| && log[j].1.Ok? :: log[j].0 != log[i].0) ==>
      log[i].0 in Successes(log) && Successes(log)[log[i].0] == log[i].1.response
    ensures log[i].1.Failed? && (forall j | i < j < |log| && log[j].1.Failed? :: log[j].0 != log[i].0) ==>
      log[i].0 in Failures(log) && Failures(log)[log[i].0] == log[i].1.error
  {
    var n := |log| - 1;
    if i < n {
      LastReplyWins(log[..n], i);
    }
  }

  /** Each entry of either map is the reply to some occurrence of its key, and every key that got such a reply is there. */
  lemma {:induction false} EntriesAreReplies<V, E>(log: Log<V, E>)
    ensures forall k :: k in Successes(log) <==> exists i | 0 <= i < |log| :: log[i].0 == k && log[i].1.Ok?
    ensures forall k | k in Successes(log) :: (k, Ok(Successes(log)[k])) in log
    ensures forall k :: k in Failures(log) <==> exists i | 0 <= i < |log| :: log[i].0 == k && log[i].1.Failed?
    ensures forall k | k in Failures(log) :: (k, Failed(Failures(log)[k])) in log
  {
    if log != [] {
      var n := |log| - 1;
      EntriesAreReplies(log[..n]);
      assert log == log[..n] + [log[n]];
    }
  }

  // ---------- The three calls ----------

  /** How many workers a setting gives for `n` jobs. */
  function Clamped(maxConcurrent: int, n: nat): (w: int)
    ensures w <= n
    ensures w > 0 <==> maxConcurrent >= 0 && n > 0
    ensures w < 0 <==> maxConcurrent < 0
    ensures maxConcurrent > 0 ==> w <= maxConcurrent && (maxConcurrent <= n ==> w == maxConcurrent)
    ensures maxConcurrent == 0 ==> w == if n < 5 then n else 5
    ensures maxConcurrent > n ==> w == n
  {
    var c := if maxConcurrent == 0 then DEFAULT_CONCURRENCY else maxConcurrent;
    if n < c then n else c
  }

  /** The caller's request object; a batch call overwrites its concurrency setting. */
  class Request<J> {
    const jobs: seq<Option<J>>
    var maxConcurrent: int

    constructor (jobs: seq<Option<J>>, maxConcurrent: int)
      ensures this.jobs == jobs && this.maxConcurrent == maxConcurrent
    {
      this.jobs, this.maxConcurrent := jobs, maxConcurrent;
    }

    /** Zero means the default of 5, and there are never more workers than jobs. The request keeps the new setting. */
    method ClampConcurrency()
      modifies this
      ensures maxConcurrent == Clamped(old(maxConcurrent), |jobs|)
    {
      if maxConcurrent == 0 {
        maxConcurrent := DEFAULT_CONCURRENCY;
      }
      if |jobs| < maxConcurrent {
        maxConcurrent := |jobs|;
      }
    }
  }

  function NonEmpty<K, T>(m: map<K, T>): Option<map<K, T>> {
    if |m| == 0 then None else Some(m)
  }

  /** The drained replies as the drain loop sees them: by key. */
  function ByKey<J, V, E>(replies: seq<(J, Reply<V, E>)>, keyOf: J -> Value): Log<V, E> {
    seq(|replies|, i requires 0 <= i < |replies| => (keyOf(replies[i].0), replies[i].1))
  }

  ghost predicate AllHashable<J>(jobs: seq<Option<J>>, keyOf: J -> Value) {
    forall i | 0 <= i < |jobs| && jobs[i].Some? :: keyOf(jobs[i].value).String?
  }

  /** Reply `i` is the last success of its key. */
  ghost predicate IsLastOk<J, V, E>(replies: seq<(J, Reply<V, E>)>, keyOf: J -> Value, i: nat)
    requires i < |replies|
  {
    replies[i].1.Ok? && forall j | i < j < |replies| && replies[j].1.Ok? :: keyOf(replies[j].0) != keyOf(replies[i].0)
  }

  ghost predicate IsLastFailed<J, V, E>(replies: seq<(J, Reply<V, E>)>, keyOf: J -> Value, i: nat)
    requires i < |replies|
  {
    replies[i].1.Failed? && forall j | i < j < |replies| && replies[j].1.Failed? :: keyOf(replies[j].0) != keyOf(replies[i].0)
  }

  /** `m` is the pointer to the map of each key's last success, nil if nothing succeeded. */
  ghost predicate LastSuccesses<J, V, E>(m: Option<map<Value, V>>, replies: seq<(J, Reply<V, E>)>, keyOf: J -> Value) {
    && (m.None? <==> forall i | 0 <= i < |replies| :: replies[i].1.Failed?)
    && (m.Some? ==>
      && (forall k | k in m.value :: exists i | 0 <= i < |replies| :: replies[i].1.Ok? && keyOf(replies[i].0) == k)
      && (forall i: nat | i < |replies| && IsLastOk(replies, keyOf, i) ::
           keyOf(replies[i].0) in m.value && m.value[keyOf(replies[i].0)] == replies[i].1.response))
  }

  ghost predicate LastFailures<J, V, E>(m: Option<map<Value, E>>, replies: seq<(J, Reply<V, E>)>, keyOf: J -> Value) {
    && (m.None? <==> forall i | 0 <= i < |replies| :: replies[i].1.Ok?)
    && (m.Some? ==>
      && (forall k | k in m.value :: exists i | 0 <= i < |replies| :: replies[i].1.Failed? && keyOf(replies[i].0) == k)
      && (forall i: nat | i < |replies| && IsLastFailed(replies, keyOf, i) ::
           keyOf(replies[i].0) in m.value && m.value[keyOf(replies[i].0)] == replies[i].1.error))
  }

  lemma LogOfReplies<J, V, E>(replies: seq<(J, Reply<V, E>)>, keyOf: J -> Value)
    ensures var log := ByKey(replies, keyOf);
      |log| == |replies| && forall i | 0 <= i < |log| :: log[i] == (keyOf(replies[i].0), replies[i].1)
  {
  }

  lemma SuccessesAreLast<J, V, E>(replies: seq<(J, Reply<V, E>)>, keyOf: J -> Value)
    ensures LastSuccesses(NonEmpty(Successes(ByKey(replies, keyOf))), replies, keyOf)
  {
    var log := ByKey(replies, keyOf);
    LogOfReplies(replies, keyOf);
    EntriesAreReplies(log);
    forall i: nat | i < |replies| && IsLastOk(replies, keyOf, i)
      ensures keyOf(replies[i].0) in Successes(log) && Successes(log)[keyOf(replies[i].0)] == replies[i].1.response
    {
      LastReplyWins(log, i);
    }
    forall i | 0 <= i < |replies| && replies[i].1.Ok? ensures log[i].0 in Successes(log) {}
    if Successes(log) != map[] {
      var k :| k in Successes(log);
      var i :| 0 <= i < |log| && log[i].0 == k && log[i].1.Ok?;
      assert replies[i].1.Ok?;
    }
  }

  lemma FailuresAreLast<J, V, E>(replies: seq<(J, Reply<V, E>)>, keyOf: J -> Value)
    ensures LastFailures(NonEmpty(Failures(ByKey(replies, keyOf))), replies, keyOf)
  {
    var log := ByKey(replies, keyOf);
    LogOfReplies(replies, keyOf);
    EntriesAreReplies(log);
    forall i: nat | i < |replies| && IsLastFailed(replies, keyOf, i)
      ensures keyOf(replies[i].0) in Failures(log) && Failures(log)[keyOf(replies[i].0)] == replies[i].1.error
    {
      LastReplyWins(log, i);
    }
    forall i | 0 <= i < |replies| && replies[i].1.Failed? ensures log[i].0 in Failures(log) {}
    if Failures(log) != map[] {
      var k :| k in Failures(log);
      var i :| 0 <= i < |log| && log[i].0 == k && log[i].1.Failed?;
      assert replies[i].1.Failed?;
    }
  }

  /** `replies` answers each job exactly once, each with a reply of the client. */
  ghost predicate Answers<J, R>(jobs: seq<Option<J>>, replies: seq<(J, R)>, client: (J, R) -> bool) {
    && multiset(Jobs(replies)) == multiset(jobs)
    && forall i | 0 <= i < |replies| :: client(replies[i].0, replies[i].1)
  }

  /** Whatever has been drained is a reply of the client. */
  lemma DrainedReplies<J(!new), R(!new)>(p: Pool<J, R>, client: (J, R) -> bool)
    requires Inv(p)
    requires forall i | 0 <= i < |p.calls| :: client(p.calls[i].0, p.calls[i].1)
    ensures forall i | 0 <= i < |p.drained| :: client(p.drained[i].0, p.drained[i].1)
  {
    forall i | 0 <= i < |p.drained| ensures client(p.drained[i].0, p.drained[i].1) {
      var c := p.drained[i];
      assert Logged(p, c);
      SumNonNegative(p.workers, Owing(c));
      assert c in multiset(p.drained);
      assert c in p.calls;
    }
  }

  lemma DrainedAnswers<J(!new), R(!new)>(p: Pool<J, R>, client: (J, R) -> bool)
    requires Inv(p) && Final(p)
    requires forall i | 0 <= i < |p.calls| :: client(p.calls[i].0, p.calls[i].1)
    ensures Answers(p.input, p.drained, client)
  {
    FinalAccount(p);
    DrainedReplies(p, client);
  }

  // ---------- Every schedule gives the maps of a plain loop ----------

  /** The client can only give the reply `f` for a job. */
  ghost predicate Decided<J(!new), R(!new)>(client: (J, R) -> bool, f: J -> R) {
    forall job, reply :: client(job, reply) ==> reply == f(job)
  }

  /** Jobs with the same key get the same reply; in particular when no two jobs have the same key. */
  ghost predicate OnePerKey<J, V, E>(jobs: seq<Option<J>>, keyOf: J -> Value, f: J -> Reply<V, E>) {
    forall i, j | 0 <= i < |jobs| && 0 <= j < |jobs| && jobs[i].Some? && jobs[j].Some? ::
      keyOf(jobs[i].value) == keyOf(jobs[j].value) ==> f(jobs[i].value) == f(jobs[j].value)
  }

  ghost predicate DistinctKeys<J>(jobs: seq<Option<J>>, keyOf: J -> Value) {
    forall i, j | 0 <= i < j < |jobs| && jobs[i].Some? && jobs[j].Some? :: keyOf(jobs[i].value) != keyOf(jobs[j].value)
  }

  lemma DistinctMeansOnePerKey<J, V, E>(jobs: seq<Option<J>>, keyOf: J -> Value, f: J -> Reply<V, E>)
    requires DistinctKeys(jobs, keyOf)
    ensures OnePerKey(jobs, keyOf, f)
  {
    forall i, j | 0 <= i < |jobs| && 0 <= j < |jobs| && jobs[i].Some? && jobs[j].Some?
      ensures keyOf(jobs[i].value) == keyOf(jobs[j].value) ==> f(jobs[i].value) == f(jobs[j].value)
    {
      if i < j {
        assert keyOf(jobs[i].value) != keyOf(jobs[j].value);
      } else if j < i {
        assert keyOf(jobs[j].value) != keyOf(jobs[i].value);
      }
    }
  }

  /** The batch as a plain loop over its jobs. */
  function PlainLoop<J, V, E>(jobs: seq<Option<J>>, keyOf: J -> Value, f: J -> Reply<V, E>): (log: Log<V, E>)
    requires NoNil(jobs)
    ensures |log| == |jobs|
  {
    seq(|jobs|, i requires 0 <= i < |jobs| => (keyOf(jobs[i].value), f(jobs[i].value)))
  }

  /** Equal keys have equal replies. */
  ghost predicate Functional<V, E>(log: Log<V, E>) {
    forall i, j | 0 <= i < |log| && 0 <= j < |log| && log[i].0 == log[j].0 :: log[i].1 == log[j].1
  }

  /** A log with one reply per key leaves the same maps whatever its order; no key is in both. */
  lemma SameEntriesSameMaps<V, E>(a: Log<V, E>, b: Log<V, E>)
    requires Functional(b) && forall entry :: entry in a <==> entry in b
    ensures Successes(a) == Successes(b) && Failures(a) == Failures(b)
    ensures Successes(b).Keys !! Failures(b).Keys
    ensures Successes(b).Keys + Failures(b).Keys == set entry | entry in b :: entry.0
  {
    EntriesAreReplies(a);
    EntriesAreReplies(b);
    forall k ensures k in Successes(a) <==> k in Successes(b) {
      if i :| 0 <= i < |a| && a[i].0 == k && a[i].1.Ok? { assert a[i] in b; }
      if i :| 0 <= i < |b| && b[i].0 == k && b[i].1.Ok? { assert b[i] in a; }
    }
    forall k ensures k in Failures(a) <==> k in Failures(b) {
      if i :| 0 <= i < |a| && a[i].0 == k && a[i].1.Failed? { assert a[i] in b; }
      if i :| 0 <= i < |b| && b[i].0 == k && b[i].1.Failed? { assert b[i] in a; }
    }
  }

  /** The drained replies, in whatever order, are the entries of the plain loop. */
  lemma RepliesAreLoop<J(!new), V(!new), E(!new)>(
      jobs: seq<Option<J>>, keyOf: J -> Value, replies: seq<(J, Reply<V, E>)>,
      client: (J, Reply<V, E>) -> bool, f: J -> Reply<V, E>, entry: (Value, Reply<V, E>))
    requires NoNil(jobs) && Answers(jobs, replies, client) && Decided(client, f)
    ensures entry in ByKey(replies, keyOf) <==> entry in PlainLoop(jobs, keyOf, f)
  {
    var log, loop := ByKey(replies, keyOf), PlainLoop(jobs, keyOf, f);
    if entry in log {
      var i :| 0 <= i < |log| && log[i] == entry;
      assert Jobs(replies)[i] in multiset(jobs);
      var k :| 0 <= k < |jobs| && jobs[k] == Some(replies[i].0);
      assert loop[k] == entry;
    }
    if entry in loop {
      var k :| 0 <= k < |loop| && loop[k] == entry;
      assert jobs[k] in multiset(Jobs(replies));
      var i :| 0 <= i < |replies| && Jobs(replies)[i] == jobs[k];
      assert log[i] == entry;
    }
  }

  /**
   Schedule independence. When every key has one outcome, the two maps of any schedule are those of a plain loop over the
   jobs; they have no key in common and cover all of them.
   */
  lemma ScheduleIndependent<J(!new), V(!new), E(!new)>(
      jobs: seq<Option<J>>, keyOf: J -> Value, replies: seq<(J, Reply<V, E>)>,
      client: (J, Reply<V, E>) -> bool, f: J -> Reply<V, E>)
    requires NoNil(jobs) && Answers(jobs, replies, client) && Decided(client, f) && OnePerKey(jobs, keyOf, f)
    ensures Successes(ByKey(replies, keyOf)) == Successes(PlainLoop(jobs, keyOf, f))
    ensures Failures(ByKey(replies, keyOf)) == Failures(PlainLoop(jobs, keyOf, f))
    ensures forall i | 0 <= i < |jobs| ::
      match f(jobs[i].value)
      case Ok(response) =>
        var m := Successes(ByKey(replies, keyOf)); keyOf(jobs[i].value) in m && m[keyOf(jobs[i].value)] == response
      case Failed(error) =>
        var m := Failures(ByKey(replies, keyOf)); keyOf(jobs[i].value) in m && m[keyOf(jobs[i].value)] == error
    ensures Successes(PlainLoop(jobs, keyOf, f)).Keys !! Failures(PlainLoop(jobs, keyOf, f)).Keys
    ensures Successes(PlainLoop(jobs, keyOf, f)).Keys + Failures(PlainLoop(jobs, keyOf, f)).Keys
         == set job | job in jobs :: keyOf(job.value)
  {
    var log, loop := ByKey(replies, keyOf), PlainLoop(jobs, keyOf, f);
    forall entry ensures entry in log <==> entry in loop {
      RepliesAreLoop(jobs, keyOf, replies, client, f, entry);
    }
    assert Functional(loop);
    SameEntriesSameMaps(log, loop);
    EntriesAreReplies(loop);
    forall i | 0 <= i < |jobs| ensures loop[i] == (keyOf(jobs[i].value), f(jobs[i].value)) && loop[i] in loop {}
    var keys, entries := set job | job in jobs :: keyOf(job.value), set entry | entry in loop :: entry.0;
    forall k ensures k in keys <==> k in entries {
      if i :| 0 <= i < |jobs| && keyOf(jobs[i].value) == k { assert loop[i].0 == k; }
      if i :| 0 <= i < |loop| && loop[i].0 == k { assert jobs[i] in jobs; }
    }
  }

  // ---------- What has been drained ----------

  /** Whatever has been drained belongs to some job; at the end every job has been drained. */
  lemma DrainedJobs<J(!new), R(!new)>(p: Pool<J, R>)
    requires Inv(p)
    ensures forall i | 0 <= i < |p.drained| :: Some(p.drained[i].0) in p.input
    ensures Final(p) ==> forall i | 0 <= i < |p.input| :: exists k | 0 <= k < |p.drained| :: p.input[i] == Some(p.drained[k].0)
  {
    forall i | 0 <= i < |p.drained| ensures Some(p.drained[i].0) in p.input {
      var t := Jobs(p.drained)[i];
      assert t in multiset(Jobs(p.drained));
      assert Conserved(p, t);
      SumNonNegative(p.workers, Holding(t));
      assert t in Feed(p)[..Taken(p)];
    }
    if Final(p) {
      FinalAccount(p);
      forall i | 0 <= i < |p.input|
        ensures exists k | 0 <= k < |p.drained| :: p.input[i] == Some(p.drained[k].0)
      {
        assert p.input[i] in multiset(Jobs(p.drained));
        var k :| 0 <= k < |p.drained| && Jobs(p.drained)[k] == p.input[i];
      }
    }
  }

  lemma UnhashableDrained<J(!new), V(!new), E(!new)>(p: Pool<J, Reply<V, E>>, keyOf: J -> Value)
    requires Inv(p)
    ensures (exists k | k in Keys(ByKey(p.drained, keyOf)) :: !Hashable(k)) ==> !AllHashable(p.input, keyOf)
    ensures Final(p) && !AllHashable(p.input, keyOf) ==> exists k | k in Keys(ByKey(p.drained, keyOf)) :: !Hashable(k)
  {
    DrainedJobs(p);
    var keys := Keys(ByKey(p.drained, keyOf));
    if k :| k in keys && !Hashable(k) {
      var i :| 0 <= i < |keys| && keys[i] == k;
      assert Some(p.drained[i].0) in p.input;
    }
    if Final(p) && !AllHashable(p.input, keyOf) {
      var i :| 0 <= i < |p.input| && p.input[i].Some? && !Hashable(keyOf(p.input[i].value));
      var k :| 0 <= k < |p.drained| && p.input[i] == Some(p.drained[k].0);
      assert keys[k] == keyOf(p.input[i].value);
    }
  }

  lemma BytesKeys<J, V, E>(replies: seq<(J, Reply<V, E>)>, keyOf: J -> Value)
    ensures (exists k | k in Keys(ByKey(replies, keyOf)) :: !Hashable(k))
      <==> exists i | 0 <= i < |replies| :: keyOf(replies[i].0).Bytes?
  {
    var keys := Keys(ByKey(replies, keyOf));
    LogOfReplies(replies, keyOf);
    forall i | 0 <= i < |replies| && keyOf(replies[i].0).Bytes? ensures keys[i] in keys && !Hashable(keys[i]) {}
  }

  /** There is work only for workers: a negative concurrency starts none. */
  predicate Staffed<J>(jobs: seq<Option<J>>, maxConcurrent: int) {
    maxConcurrent >= 0 || jobs == []
  }

  /**
   BatchGet (jobs are keys) and BatchSet (jobs are items). The call returns exactly when no key is nil, no key is a byte
   slice, and the concurrency is not negative unless there is nothing to do; what it returns are the replies to one
   client call per job, a nil pointer standing for an empty map. If the client has one reply per key, that is what a plain
   loop over the jobs gives, whatever the schedule.
   */
  method BatchCall<J(!new), V(!new, 00), E(!new, 00)>(
      props: Request<J>, keyOf: J -> Value,
      schedule: Scheduler<J, Reply<V, E>>, ghost client: (J, Reply<V, E>) -> bool)
    returns (out: Outcome<V, E>, replies: seq<(J, Reply<V, E>)>, calls: seq<(J, Reply<V, E>)>)
    requires Fair(schedule, client)
    modifies props
    ensures forall i | 0 <= i < |calls| :: Some(calls[i].0) in props.jobs
    ensures props.maxConcurrent == Clamped(old(props.maxConcurrent), |props.jobs|)
    ensures out.Returns? <==>
      NoNil(props.jobs) && AllHashable(props.jobs, keyOf) && Staffed(props.jobs, old(props.maxConcurrent))
    ensures out.Panics? <==> exists i | 0 <= i < |replies| :: keyOf(replies[i].0).Bytes?
    ensures forall i | 0 <= i < |replies| :: Some(replies[i].0) in props.jobs && client(replies[i].0, replies[i].1)
    ensures out.Panics? ==> !AllHashable(props.jobs, keyOf)
    ensures out.Hangs? ==> !NoNil(props.jobs) || !Staffed(props.jobs, old(props.maxConcurrent))
    ensures out.Returns? ==>
      && Answers(props.jobs, replies, client)
      && multiset(calls) == multiset(replies)
      && LastSuccesses(out.responses, replies, keyOf) && LastFailures(out.errors, replies, keyOf)
      && out.responses == NonEmpty(Successes(ByKey(replies, keyOf)))
      && out.errors == NonEmpty(Failures(ByKey(replies, keyOf)))
    ensures forall f | Decided(client, f) && OnePerKey(props.jobs, keyOf, f) && out.Returns? ::
      && out.responses == NonEmpty(Successes(PlainLoop(props.jobs, keyOf, f)))
      && out.errors == NonEmpty(Failures(PlainLoop(props.jobs, keyOf, f)))
  {
    props.ClampConcurrency();
    var width := if props.maxConcurrent < 0 then 0 else props.maxConcurrent;
    var p, es := RunPool(props.jobs, width, |props.jobs|, schedule, client);
    replies, calls := p.drained, p.calls;
    var panicked, results, errors := Collect(ByKey(p.drained, keyOf));
    BytesKeys(replies, keyOf);
    UnhashableDrained(p, keyOf);
    DrainedJobs(p);
    DrainedReplies(p, client);
    if panicked {
      out := Panics;
    } else if !Final(p) {
      out := Hangs;
    } else {
      FinalAccount(p);
      DrainedAnswers(p, client);
      out := Returns(NonEmpty(results), NonEmpty(errors));
      SuccessesAreLast(replies, keyOf);
      FailuresAreLast(replies, keyOf);
      forall f | Decided(client, f) && OnePerKey(props.jobs, keyOf, f)
        ensures Successes(ByKey(replies, keyOf)) == Successes(PlainLoop(props.jobs, keyOf, f))
        ensures Failures(ByKey(replies, keyOf)) == Failures(PlainLoop(props.jobs, keyOf, f))
      {
        ScheduleIndependent(props.jobs, keyOf, replies, client, f);
      }
    }
  }

  function Itself(key: Value): Value { key }

  lemma DrainedByKey<E>(replies: Log<(), E>)
    ensures ByKey(replies, Itself) == replies
  {
    forall i | 0 <= i < |replies| ensures ByKey(replies, Itself)[i] == replies[i] {
      assert ByKey(replies, Itself)[i].0 == Itself(replies[i].0);
    }
  }

  lemma DeletesDecided<E(!new)>(
      jobs: seq<Option<Value>>, replies: Log<(), E>, client: (Value, Reply<(), E>) -> bool)
    requires NoNil(jobs) && Answers(jobs, replies, client)
    ensures forall f | Decided(client, f) :: Failures(replies) == Failures(PlainLoop(jobs, Itself, f))
  {
    DrainedByKey(replies);
    forall f | Decided(client, f) ensures Failures(replies) == Failures(PlainLoop(jobs, Itself, f)) {
      assert OnePerKey(jobs, Itself, f) by {
        forall i | 0 <= i < |jobs| && jobs[i].Some? ensures Itself(jobs[i].value) == jobs[i].value {}
      }
      ScheduleIndependent(jobs, Itself, replies, client, f);
    }
  }

  /**
   BatchDelete. A negative concurrency panics at once (the key channel cannot be made); otherwise a nil key keeps the
   call from returning, and without nil keys it returns the failures unless a byte-slice key is among them.
   */
  method BatchDelete<E(!new, 00)>(
      props: Request<Value>, schedule: Scheduler<Value, Reply<(), E>>, ghost client: (Value, Reply<(), E>) -> bool)
    returns (out: Outcome<(), E>, replies: Log<(), E>)
    requires Fair(schedule, client)
    modifies props
    ensures props.maxConcurrent == Clamped(old(props.maxConcurrent), |props.jobs|)
    ensures old(props.maxConcurrent) < 0 ==> out.Panics?
    ensures old(props.maxConcurrent) >= 0 && NoNil(props.jobs) ==>
      && !out.Hangs?
      && Answers(props.jobs, replies, client)
    ensures old(props.maxConcurrent) >= 0 ==>
      (out.Panics? <==> exists i | 0 <= i < |replies| :: replies[i].1.Failed? && replies[i].0.Bytes?)
    ensures forall i | 0 <= i < |replies| :: Some(replies[i].0) in props.jobs && client(replies[i].0, replies[i].1)
    ensures !NoNil(props.jobs) ==> !out.Returns?
    ensures out.Returns? ==>
      out.responses == None && out.errors == NonEmpty(Failures(replies)) && LastFailures(out.errors, replies, Itself)
    ensures forall f | Decided(client, f) && out.Returns? ::
      out.errors == NonEmpty(Failures(PlainLoop(props.jobs, Itself, f)))
  {
    props.ClampConcurrency();
    replies := [];
    if props.maxConcurrent < 0 {
      return Panics, replies;
    }
    var p, es := RunPool(props.jobs, props.maxConcurrent, props.maxConcurrent, schedule, client);
    replies := p.drained;
    var panicked, errors := CollectFailures(p.drained);
    DrainedJobs(p);
    DrainedReplies(p, client);
    DrainedByKey(replies);
    FailuresAreLast(replies, Itself);
    if Final(p) {
      DrainedAnswers(p, client);
      if NoNil(props.jobs) {
        DeletesDecided(props.jobs, replies, client);
      }
    }
    out := if panicked then Panics else if Final(p) then Returns(None, NonEmpty(errors)) else Hangs;
  }
}
