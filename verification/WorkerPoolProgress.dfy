/** When a worker pool finishes: never blocked reports, deadlock freedom, a bound on every run, and the exact condition. */
module WorkerPoolProgress {
  import opened Options
  import opened Sums
  import opened WorkerPool

  predicate NoNil<J>(input: seq<Option<J>>) {
    forall i | 0 <= i < |input| :: input[i].Some?
  }

  /** The condition for the pool to finish: no key is nil, and there is a worker if there is a key. */
  predicate Completable<J, R>(p: Pool<J, R>) {
    NoNil(p.input) && (p.width > 0 || p.input == [])
  }

  // ---------- Counting nils ----------

  lemma {:induction false} NilsInTail<J>(n: nat)
    ensures multiset(seq<Option<J>>(n, _ => None))[None] == n
  {
    if n > 0 {
      NilsInTail<J>(n - 1);
      assert seq<Option<J>>(n, _ => None) == seq<Option<J>>(n - 1, _ => None) + [None];
    }
  }

  lemma {:induction false} NilsInFeed<J, R>(p: Pool<J, R>, d: nat)
    requires d <= |p.input| + p.width
    ensures multiset(Feed(p)[..d])[None] >= d - |p.input|
    ensures NoNil(p.input) ==> multiset(Feed(p)[..d])[None] == if d <= |p.input| then 0 else d - |p.input|
    ensures !NoNil(p.input) && d == |p.input| + p.width ==> multiset(Feed(p)[..d])[None] > p.width
  {
    var input, nils := p.input, seq(p.width, _ => None);
    if d <= |input| {
      assert Feed(p)[..d] == input[..d];
      if d == |input| && !NoNil(input) {
        assert None in input[..d];
      }
    } else {
      NilsInFeed(p, d - 1);
      assert Feed(p)[..d] == Feed(p)[..d - 1] + [None];
      if d == |input| + p.width && !NoNil(input) {
        var i :| 0 <= i < |input| && input[i] == None;
        NilsInTail<J>(p.width);
        assert Feed(p)[..d] == input + nils;
        assert multiset(input + nils) == multiset(input) + multiset(nils);
        assert input[i] in multiset(input);
      }
    }
  }

  lemma {:induction false} ExitedCount<J, R>(ws: seq<Worker<J, R>>)
    ensures 0 <= Hands(ws, None) <= Active(ws) <= |ws|
    ensures Hands(ws, None) == |ws| <==> forall i | 0 <= i < |ws| :: ws[i].Exited?
    ensures Hands(ws, None) > 0 <==> exists i | 0 <= i < |ws| :: ws[i].Exited?
    ensures forall i | 0 <= i < |ws| && (ws[i].Calling? || ws[i].Finished?) :: Hands(ws, None) < Active(ws)
  {
    if ws != [] {
      var n := |ws| - 1;
      ExitedCount(ws[..n]);
      assert forall i | 0 <= i < n :: ws[..n][i] == ws[i];
    }
  }

  lemma NoNilJobs<J, R>(rs: seq<(J, R)>)
    ensures multiset(Jobs(rs))[None] == 0
  {
    assert None !in Jobs(rs);
  }

  /** The workers that have exited are exactly as many as the nils received from the job channel. */
  lemma ExitedEqualsNils<J(!new), R(!new)>(p: Pool<J, R>)
    requires Inv(p)
    ensures Hands(p.workers, None) == multiset(Feed(p)[..Taken(p)])[None]
  {
    assert Conserved(p, None);
    NoNilJobs(p.results);
    NoNilJobs(p.drained);
  }

  /** No nil is received before every key has been: when a worker has exited, only nils remain on the job channel. */
  lemma NilsComeLast<J(!new), R(!new)>(p: Pool<J, R>)
    requires Inv(p) && NoNil(p.input)
    ensures Hands(p.workers, None) == if Taken(p) <= |p.input| then 0 else Taken(p) - |p.input|
    ensures forall i | 0 <= i < |p.workers| && p.workers[i].Exited? :: Taken(p) > |p.input|
  {
    ExitedEqualsNils(p);
    NilsInFeed(p, Taken(p));
    ExitedCount(p.workers);
  }

  /** The result channel holds one slot per key, and a worker with a result to report always finds one free. */
  lemma ReportNeverBlocks<J(!new), R(!new)>(p: Pool<J, R>)
    requires Inv(p)
    ensures |p.results| + |p.drained| <= |p.input|
    ensures forall i | 0 <= i < |p.workers| && p.workers[i].Finished? :: Enabled(p, Report(i))
  {
    ExitedEqualsNils(p);
    NilsInFeed(p, Taken(p));
    ExitedCount(p.workers);
  }

  // ---------- Deadlock freedom ----------

  /** Once every entry has been taken and no worker is busy, every worker has returned. */
  lemma EmptyMeansExited<J(!new), R(!new)>(p: Pool<J, R>)
    requires Inv(p) && NoNil(p.input) && Taken(p) == |p.input| + p.width
    ensures forall i | 0 <= i < |p.workers| :: p.workers[i].Exited?
  {
    NilsComeLast(p);
    ExitedCount(p.workers);
  }

  /** Once the workers are joined, a result is there for each one the main goroutine still waits for. */
  lemma DrainNeverBlocks<J(!new), R(!new)>(p: Pool<J, R>)
    requires Inv(p) && Completable(p) && p.joined
    ensures |p.results| + |p.drained| == |p.input|
    ensures |p.drained| < |p.input| ==> Enabled(p, Drain)
  {
    SumOfEqual(p.workers, Busy(), 1);
    ExitedCount(p.workers);
    NilsComeLast(p);
  }

  /** In every state short of the final one some goroutine can move; `reply` stands for what a client call would give. */
  lemma SomeStep<J(!new), R(!new)>(p: Pool<J, R>, reply: R) returns (e: Event<R>)
    requires Inv(p) && Completable(p) && !Final(p)
    requires p.capacity >= 1 || |p.input| + p.width == 0
    ensures Enabled(p, e)
  {
    if i: nat :| i < |p.workers| && p.workers[i].Calling? {
      e := Return(i, reply);
    } else if i: nat :| i < |p.workers| && p.workers[i].Finished? {
      ReportNeverBlocks(p);
      e := Report(i);
    } else if |p.queue| == 0 && p.sent < |p.input| + p.width {
      e := Send;
    } else if |p.queue| == 0 {
      EmptyMeansExited(p);
      e := if p.joined then Drain else Join;
      if p.joined {
        SumOfEqual(p.workers, Busy(), 1);
      }
    } else if i: nat :| i < |p.workers| && p.workers[i].Waiting? {
      e := Take(i);
    } else {
      ExitedCount(p.workers);
      NilsComeLast(p);
      assert false;
    }
  }

  // ---------- Termination ----------

  /** The steps a worker can take before it next looks at the job channel. */
  function StepsOf<J, R>(): Worker<J, R> -> int {
    (w: Worker<J, R>) => if w.Calling? then 3 else if w.Finished? then 2 else 0
  }

  /** How many steps are left at most: what each unsent, queued, held, or reported entry can still cause. */
  function Measure<J, R>(p: Pool<J, R>): int {
    5 * (|p.input| + p.width - p.sent) + 4 * |p.queue| + Sum(p.workers, StepsOf()) + |p.results| + if p.joined then 0 else 1
  }

  /** Every step of every goroutine uses up the measure. */
  lemma MeasureDrops<J, R>(p: Pool<J, R>, e: Event<R>)
    requires p.sent <= |p.input| + p.width && Enabled(p, e)
    ensures 0 <= Measure(Next(p, e)) < Measure(p)
  {
    if e.Take? || e.Return? || e.Report? {
      SumUpdate(p.workers, e.worker, Next(p, e).workers[e.worker], StepsOf());
    }
    SumNonNegative(Next(p, e).workers, StepsOf());
  }

  lemma {:induction false} RunUsesMeasure<J, R>(p: Pool<J, R>, es: seq<Event<R>>, q: Pool<J, R>)
    requires p.sent <= |p.input| + p.width && Run(p, es, q)
    ensures |es| + Measure(q) <= Measure(p) && (es != [] ==> Measure(q) >= 0)
    decreases |es|
  {
    if es != [] {
      MeasureDrops(p, es[0]);
      RunUsesMeasure(Next(p, es[0]), es[1..], q);
    }
  }

  /** No schedule of a batch of n keys on w workers takes more than 5(n + w) + 1 steps. */
  lemma RunsAreShort<J, R>(input: seq<Option<J>>, width: nat, capacity: nat, es: seq<Event<R>>, q: Pool<J, R>)
    requires Run(Start(input, width, capacity), es, q)
    ensures |es| <= 5 * (|input| + width) + 1
  {
    var p := Start<J, R>(input, width, capacity);
    RunUsesMeasure(p, es, q);
    SumOfEqual(p.workers, StepsOf(), 0);
  }

  // ---------- The exact condition ----------

  /** With a nil key, or with keys but no worker, the last drain never ends: the final state is unreachable. */
  lemma NeverFinal<J(!new), R(!new)>(p: Pool<J, R>)
    requires Inv(p) && !Completable(p)
    ensures !Final(p)
  {
    if Final(p) {
      SumOfEqual(p.workers, Busy(), 1);
      ExitedCount(p.workers);
      ExitedEqualsNils(p);
      NilsInFeed(p, Taken(p));
      assert false;
    }
  }

  /** From every state some schedule runs until nothing can move. */
  lemma {:induction false} MaximalRun<J(!new), R(!new)>(p: Pool<J, R>) returns (es: seq<Event<R>>, q: Pool<J, R>)
    requires Inv(p)
    ensures Run(p, es, q) && Stuck(q)
    decreases Measure(p)
  {
    if e :| Enabled(p, e) {
      StepInv(p, e);
      MeasureDrops(p, e);
      es, q := MaximalRun(Next(p, e));
      es := [e] + es;
    } else {
      es, q := [], p;
    }
  }

  /** Every schedule, followed until nothing can move, has returned to the caller. */
  ghost predicate AlwaysReturns<J(!new), R(!new)>(p: Pool<J, R>) {
    forall es: seq<Event<R>>, q: Pool<J, R> :: Run(p, es, q) && Stuck(q) ==> Final(q)
  }

  /** No schedule ever returns to the caller. */
  ghost predicate NeverReturns<J(!new), R(!new)>(p: Pool<J, R>) {
    forall es: seq<Event<R>>, q: Pool<J, R> :: Run(p, es, q) ==> !Final(q)
  }

  /**
   The exact condition for a batch to return. If no key is nil and there is a worker whenever there is a key, every
   schedule that cannot be continued has returned; otherwise no schedule ever does, and the caller waits for ever.
   */
  lemma CompletesExactly<J(!new), R(!new)>(input: seq<Option<J>>, width: nat, capacity: nat, reply: R)
    requires capacity >= 1 || |input| + width == 0
    ensures AlwaysReturns(Start<J, R>(input, width, capacity)) <==> NoNil(input) && (width > 0 || input == [])
    ensures NeverReturns(Start<J, R>(input, width, capacity)) <==> !(NoNil(input) && (width > 0 || input == []))
  {
    var p := Start<J, R>(input, width, capacity);
    StartInv<J, R>(input, width, capacity);
    var es, q := MaximalRun(p);
    if Completable(p) {
      forall es: seq<Event<R>>, q: Pool<J, R> | Run(p, es, q) && Stuck(q) ensures Final(q) {
        RunInv(p, es, q);
        if !Final(q) {
          var e := SomeStep(q, reply);
          assert false;
        }
      }
    } else {
      forall es: seq<Event<R>>, q: Pool<J, R> | Run(p, es, q) ensures !Final(q) {
        RunInv(p, es, q);
        NeverFinal(q);
      }
    }
  }

  /** A single nil key is enough to keep a batch of one from ever returning. */
  lemma NilKeyNeverReturns<J(!new), R(!new)>(reply: R)
    ensures NeverReturns(Start<J, R>([None], 1, 1))
  {
    var keys: seq<Option<J>> := [None];
    assert keys[0].None?;
    CompletesExactly<J, R>(keys, 1, 1, reply);
  }

  lemma FinalCount<J(!new), R(!new)>(p: Pool<J, R>, t: Option<J>)
    requires Inv(p) && Final(p) && Completable(p) && Taken(p) == |p.input| + p.width && p.results == []
    ensures multiset(Jobs(p.drained))[t] == multiset(p.input)[t]
  {
    if t.None? {
      NoNilJobs(p.drained);
      assert None !in p.input;
    } else {
      assert Conserved(p, t);
      SumOfEqual(p.workers, Holding(t), 0);
      var nils := seq<Option<J>>(p.width, _ => None);
      assert Feed(p)[..Taken(p)] == p.input + nils;
      assert multiset(p.input + nils) == multiset(p.input) + multiset(nils);
      assert t !in nils;
    }
  }

  /** When the call returns, the results drained are one per key, and each is the reply of one client call. */
  lemma FinalAccount<J(!new), R(!new)>(p: Pool<J, R>)
    requires Inv(p) && Final(p)
    ensures multiset(Jobs(p.drained)) == multiset(p.input)
    ensures multiset(p.calls) == multiset(p.drained)
    ensures p.queue == [] && p.results == []
  {
    if !Completable(p) { NeverFinal(p); }
    ReportNeverBlocks(p);
    SumOfEqual(p.workers, Busy(), 1);
    forall t ensures multiset(Jobs(p.drained))[t] == multiset(p.input)[t] { FinalCount(p, t); }
    forall c ensures multiset(p.calls)[c] == multiset(p.drained)[c] {
      assert Logged(p, c);
      SumOfEqual(p.workers, Owing(c), 0);
    }
  }
}
