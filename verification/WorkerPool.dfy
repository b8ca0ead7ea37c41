/**
 The goroutine pool behind BatchDelete, BatchGet and BatchSet, as a transition system.

 The main goroutine feeds a bounded FIFO channel with the caller's jobs and then one nil per worker, joins the workers,
 and drains one result per job. Workers take from the channel, call the client, and report on a second bounded channel.
 `None` on the job channel is a nil key: the exit sentinel, and equally a nil key passed in by the caller.
 */
module WorkerPool {
  import opened Options
  import opened Sums

  /** Where one worker goroutine is: blocked on the job channel, in the client call, about to report, or returned. */
  datatype Worker<J, R> = Waiting | Calling(job: J) | Finished(job: J, reply: R) | Exited

  /**
   `input`, `width`, `capacity` are fixed at the start. `sent` counts the sends of the main goroutine on the job channel
   `queue`; `results` is the result channel; `drained` what the main goroutine has received back; `calls` the client
   calls in the order they returned.
   */
  datatype Pool<J, R> = Pool(
    input: seq<Option<J>>, width: nat, capacity: nat,
    sent: nat, queue: seq<Option<J>>, workers: seq<Worker<J, R>>,
    results: seq<(J, R)>, joined: bool, drained: seq<(J, R)>, calls: seq<(J, R)>)

  /** One atomic step of one goroutine; `Return` carries the reply the client call happens to give. */
  datatype Event<R> = Send | Take(worker: nat) | Return(worker: nat, reply: R) | Report(worker: nat) | Join | Drain

  function Start<J, R>(input: seq<Option<J>>, width: nat, capacity: nat): Pool<J, R> {
    Pool(input, width, capacity, 0, [], seq(width, _ => Waiting), [], false, [], [])
  }

  /** Everything the main goroutine will ever send: the caller's keys, then one nil per worker. */
  function Feed<J, R>(p: Pool<J, R>): (f: seq<Option<J>>)
    ensures |f| == |p.input| + p.width
  {
    p.input + seq(p.width, _ => None)
  }

  predicate Enabled<J, R>(p: Pool<J, R>, e: Event<R>) {
    match e
    case Send => p.sent < |p.input| + p.width && |p.queue| < p.capacity
    case Take(i) => i < |p.workers| && p.workers[i].Waiting? && |p.queue| > 0
    case Return(i, _) => i < |p.workers| && p.workers[i].Calling?
    case Report(i) => i < |p.workers| && p.workers[i].Finished? && |p.results| < |p.input|
    case Join => !p.joined && p.sent == |p.input| + p.width && forall i | 0 <= i < |p.workers| :: p.workers[i].Exited?
    case Drain => p.joined && |p.results| > 0 && |p.drained| < |p.input|
  }

  function Next<J, R>(p: Pool<J, R>, e: Event<R>): Pool<J, R>
    requires Enabled(p, e)
  {
    match e
    case Send => p.(sent := p.sent + 1, queue := p.queue + [Feed(p)[p.sent]])
    case Take(i) =>
      var w := if p.queue[0].None? then Exited else Calling(p.queue[0].value);
      p.(queue := p.queue[1..], workers := p.workers[i := w])
    case Return(i, r) =>
      var job := p.workers[i].job;
      p.(workers := p.workers[i := Finished(job, r)], calls := p.calls + [(job, r)])
    case Report(i) =>
      p.(workers := p.workers[i := Waiting], results := p.results + [(p.workers[i].job, p.workers[i].reply)])
    case Join => p.(joined := true)
    case Drain => p.(results := p.results[1..], drained := p.drained + [p.results[0]])
  }

  /** The call returns: every worker has been joined and one result per key has been received. */
  predicate Final<J, R>(p: Pool<J, R>) {
    p.joined && |p.drained| == |p.input|
  }

  ghost predicate Stuck<J, R(!new)>(p: Pool<J, R>) {
    forall e :: !Enabled(p, e)
  }

  /** `q` is reached from `p` by the schedule `es`. */
  ghost predicate Run<J, R>(p: Pool<J, R>, es: seq<Event<R>>, q: Pool<J, R>)
    decreases |es|
  {
    if es == [] then p == q else Enabled(p, es[0]) && Run(Next(p, es[0]), es[1..], q)
  }

  // ---------- What every step keeps ----------

  /** Does worker `w` account for the job channel entry `t`: is it its job, or the nil it exited on? */
  predicate Holds<J(==), R>(w: Worker<J, R>, t: Option<J>) {
    match w
    case Waiting => false
    case Calling(j) => t == Some(j)
    case Finished(j, _) => t == Some(j)
    case Exited => t == None
  }

  ghost function Holding<J, R>(t: Option<J>): Worker<J, R> -> int {
    (w: Worker<J, R>) => if Holds(w, t) then 1 else 0
  }

  /** How many workers account for the entry `t`. */
  ghost function Hands<J, R>(ws: seq<Worker<J, R>>, t: Option<J>): int {
    Sum(ws, Holding(t))
  }

  /** Is `c` the worker's returned but not yet reported call? */
  predicate Pending<J(==), R(==)>(w: Worker<J, R>, c: (J, R)) {
    w == Finished(c.0, c.1)
  }

  ghost function Owing<J, R>(c: (J, R)): Worker<J, R> -> int {
    (w: Worker<J, R>) => if Pending(w, c) then 1 else 0
  }

  ghost function Unreported<J, R>(ws: seq<Worker<J, R>>, c: (J, R)): int {
    Sum(ws, Owing(c))
  }

  function Busy<J, R>(): Worker<J, R> -> int {
    (w: Worker<J, R>) => if w.Waiting? then 0 else 1
  }

  /** How many workers have taken an entry they have not reported on. */
  function Active<J, R>(ws: seq<Worker<J, R>>): int {
    Sum(ws, Busy())
  }

  function Jobs<J, R>(rs: seq<(J, R)>): seq<Option<J>> {
    seq(|rs|, i requires 0 <= i < |rs| => Some(rs[i].0))
  }

  /** How many entries of the job channel have been received so far. */
  function Taken<J, R>(p: Pool<J, R>): int {
    p.sent - |p.queue|
  }

  /** The job channel is first in, first out: it holds the entries sent but not yet taken, in order. */
  ghost predicate Fifo<J, R>(p: Pool<J, R>) {
    && |p.workers| == p.width
    && |p.queue| <= p.sent <= |p.input| + p.width
    && |p.queue| <= p.capacity
    && p.queue == Feed(p)[Taken(p)..p.sent]
    && (p.width == 0 ==> Taken(p) == 0)
    && |p.drained| <= |p.input|
    && (p.joined ==> p.sent == |p.input| + p.width && forall i | 0 <= i < |p.workers| :: p.workers[i].Exited?)
  }

  /** Each entry taken from the job channel is in one place: a worker's hands, the result channel, or drained. */
  ghost predicate Conserved<J, R>(p: Pool<J, R>, t: Option<J>)
    requires 0 <= Taken(p) <= |p.input| + p.width
  {
    multiset(Feed(p)[..Taken(p)])[t]
      == Hands(p.workers, t) + multiset(Jobs(p.results))[t] + multiset(Jobs(p.drained))[t]
  }

  /** The same partition, counted. */
  predicate Tallied<J, R>(p: Pool<J, R>) {
    Taken(p) == Active(p.workers) + |p.results| + |p.drained|
  }

  /** A job is only ever one of the caller's keys. */
  ghost predicate Sourced<J, R>(p: Pool<J, R>) {
    && (forall i | 0 <= i < |p.workers| && (p.workers[i].Calling? || p.workers[i].Finished?) ::
         Some(p.workers[i].job) in p.input)
    && (forall i | 0 <= i < |p.calls| :: Some(p.calls[i].0) in p.input)
  }

  /** Each client call that returned is about to be reported, on the result channel, or drained, with its reply. */
  ghost predicate Logged<J, R>(p: Pool<J, R>, c: (J, R)) {
    multiset(p.calls)[c] == Unreported(p.workers, c) + multiset(p.results)[c] + multiset(p.drained)[c]
  }

  ghost predicate Inv<J(!new), R(!new)>(p: Pool<J, R>) {
    && Fifo(p)
    && Tallied(p)
    && Sourced(p)
    && (forall t :: Conserved(p, t))
    && (forall c :: Logged(p, c))
  }

  lemma StartInv<J(!new), R(!new)>(input: seq<Option<J>>, width: nat, capacity: nat)
    ensures Inv(Start<J, R>(input, width, capacity))
  {
    var p := Start<J, R>(input, width, capacity);
    SumOfEqual(p.workers, Busy(), 0);
    forall t ensures Conserved(p, t) { SumOfEqual(p.workers, Holding(t), 0); }
    forall c ensures Logged(p, c) { SumOfEqual(p.workers, Owing(c), 0); }
  }

  lemma JobsAppend<J, R>(rs: seq<(J, R)>, r: (J, R))
    ensures Jobs(rs + [r]) == Jobs(rs) + [Some(r.0)]
  {
  }

  lemma JobsPrepend<J, R>(r: (J, R), rs: seq<(J, R)>)
    ensures Jobs([r] + rs) == [Some(r.0)] + Jobs(rs)
  {
  }

  lemma FifoStep<J, R>(p: Pool<J, R>, e: Event<R>)
    requires Fifo(p) && Enabled(p, e)
    ensures Fifo(Next(p, e))
  {
    if e.Send? {
      var feed := Feed(p);
      assert feed[Taken(p)..p.sent] + [feed[p.sent]] == feed[Taken(p)..p.sent + 1];
    }
  }

  lemma ConservedTake<J, R>(p: Pool<J, R>, i: nat, t: Option<J>)
    requires Fifo(p) && Enabled(p, Take(i)) && Fifo(Next(p, Take(i))) && Conserved(p, t)
    ensures Conserved(Next(p, Take(i)), t)
  {
    var q := Next(p, Take(i));
    SumUpdate(p.workers, i, q.workers[i], Holding(t));
    assert Feed(p)[..Taken(q)] == Feed(p)[..Taken(p)] + [p.queue[0]];
  }

  lemma ConservedStep<J, R>(p: Pool<J, R>, e: Event<R>, t: Option<J>)
    requires Fifo(p) && Enabled(p, e) && Fifo(Next(p, e)) && Conserved(p, t)
    ensures Conserved(Next(p, e), t)
  {
    var q := Next(p, e);
    match e {
      case Send =>
      case Take(i) => ConservedTake(p, i, t);
      case Return(i, _) => SumUpdate(p.workers, i, q.workers[i], Holding(t));
      case Report(i) =>
        SumUpdate(p.workers, i, q.workers[i], Holding(t));
        JobsAppend(p.results, (p.workers[i].job, p.workers[i].reply));
      case Join =>
      case Drain =>
        assert p.results == [p.results[0]] + q.results;
        JobsPrepend(p.results[0], q.results);
        JobsAppend(p.drained, p.results[0]);
    }
  }

  lemma LoggedStep<J, R>(p: Pool<J, R>, e: Event<R>, c: (J, R))
    requires Enabled(p, e) && Logged(p, c)
    ensures Logged(Next(p, e), c)
  {
    var q := Next(p, e);
    if e.Take? || e.Return? || e.Report? {
      SumUpdate(p.workers, e.worker, q.workers[e.worker], Owing(c));
    }
    if e.Drain? {
      assert p.results == [p.results[0]] + q.results;
    }
  }

  lemma SourcedStep<J, R>(p: Pool<J, R>, e: Event<R>)
    requires Fifo(p) && Sourced(p) && Enabled(p, e)
    ensures Sourced(Next(p, e))
  {
    if e.Take? {
      assert p.queue[0] == Feed(p)[Taken(p)];
    }
  }

  lemma StepInv<J(!new), R(!new)>(p: Pool<J, R>, e: Event<R>)
    requires Inv(p) && Enabled(p, e)
    ensures Inv(Next(p, e))
  {
    FifoStep(p, e);
    SourcedStep(p, e);
    if e.Take? || e.Return? || e.Report? {
      SumUpdate(p.workers, e.worker, Next(p, e).workers[e.worker], Busy());
    }
    forall t ensures Conserved(Next(p, e), t) { ConservedStep(p, e, t); }
    forall c ensures Logged(Next(p, e), c) { LoggedStep(p, e, c); }
  }

  /** The result channel is first in, first out: the main goroutine receives the results in the order they were reported. */
  lemma ResultsInOrder<J, R>(p: Pool<J, R>, e: Event<R>)
    requires Enabled(p, e)
    ensures var q := Next(p, e);
      q.drained + q.results == (p.drained + p.results)
        + if e.Report? then [(p.workers[e.worker].job, p.workers[e.worker].reply)] else []
    ensures p.drained <= Next(p, e).drained
  {
    if e.Drain? {
      assert p.results == [p.results[0]] + p.results[1..];
    }
  }

  lemma {:induction false} RunInv<J(!new), R(!new)>(p: Pool<J, R>, es: seq<Event<R>>, q: Pool<J, R>)
    requires Inv(p) && Run(p, es, q)
    ensures Inv(q) && q.input == p.input && q.width == p.width && q.capacity == p.capacity
    decreases |es|
  {
    if es != [] {
      StepInv(p, es[0]);
      RunInv(Next(p, es[0]), es[1..], q);
    }
  }

  /**
   In every state of every interleaving, the keys and the nils are partitioned: not yet sent, on the job channel,
   with a worker, on the result channel, or drained. No entry is lost or handled twice, whatever the schedule.
   */
  lemma Partition<J(!new), R(!new)>(input: seq<Option<J>>, width: nat, capacity: nat, es: seq<Event<R>>, p: Pool<J, R>)
    requires Run(Start(input, width, capacity), es, p)
    ensures |p.workers| == width && |p.queue| <= capacity && p.sent <= |p.input| + p.width
    ensures forall t ::
      multiset(Feed(p))[t] == multiset(Feed(p)[p.sent..])[t] + multiset(p.queue)[t] + Hands(p.workers, t)
                            + multiset(Jobs(p.results))[t] + multiset(Jobs(p.drained))[t]
    ensures Feed(p) == input + seq(width, _ => None)
  {
    StartInv<J, R>(input, width, capacity);
    RunInv(Start<J, R>(input, width, capacity), es, p);
    var f := Feed(p);
    assert f == f[..Taken(p)] + p.queue + f[p.sent..];
    forall t
      ensures multiset(f)[t] == multiset(f[p.sent..])[t] + multiset(p.queue)[t] + Hands(p.workers, t)
                              + multiset(Jobs(p.results))[t] + multiset(Jobs(p.drained))[t]
    {
      assert Conserved(p, t);
    }
  }
}
