/** The admission bound of ClientLedger is exact: racing goroutines can push the counter all the way up to it. */
module AdmissionRace {
  import opened Options
  import opened Sums
  import opened StreamMachine
  import opened ClientLedger

  /** `ms` leads from `start` to `g` with never more than `threads` goroutines inside topicSubscribe. */
  ghost predicate Reaches(start: Client, ms: seq<Move>, g: Client, threads: nat) {
    Run(start, ms) == Some(g) && AtMostInside(start, ms, threads)
  }

  /** A goroutine that has passed the check and not yet incremented the counter. */
  const WAITING := NEW_AGENT.(pc := Admitted)

  /** One more step of goroutine `i`. */
  lemma {:induction false} Advance(start: Client, ms: seq<Move>, g: Client, threads: nat, i: nat, act: Action)
    returns (more: seq<Move>, h: Client)
    requires Reaches(start, ms, g, threads) && Enabled(g, Act(i, act))
    requires InsideCount(g.agents) - OneInside(g.agents[i]) + OneInside(Step(g.agents[i], act).value) <= threads
    ensures Reaches(start, more, h, threads) && h == Next(g, Act(i, act))
    ensures InsideCount(h.agents) == InsideCount(g.agents) - OneInside(g.agents[i]) + OneInside(Step(g.agents[i], act).value)
  {
    more, h := ms + [Act(i, act)], Next(g, Act(i, act));
    SumUpdate(g.agents, i, Step(g.agents[i], act).value, OneInside);
    assert more[..|ms|] == ms;
    forall k | 0 <= k <= |more| && Run(start, more[..k]).Some?
      ensures InsideCount(Run(start, more[..k]).value.agents) <= threads
    {
      if k <= |ms| {
        assert more[..k] == ms[..k];
      } else {
        assert more[..k] == more;
      }
    }
  }

  /** A goroutine starts Subscribe and passes the check. */
  lemma {:induction false} PassCheck(start: Client, ms: seq<Move>, g: Client, threads: nat, i: nat)
    returns (more: seq<Move>, h: Client)
    requires Reaches(start, ms, g, threads) && i < |g.agents| && g.agents[i] == NEW_AGENT
    requires InsideCount(g.agents) < threads && g.counter < Limit(g.channels)
    ensures Reaches(start, more, h, threads) && InsideCount(h.agents) == InsideCount(g.agents) + 1
    ensures h == g.(agents := g.agents[i := WAITING])
  {
    more, h := Advance(start, ms, g, threads, i, Subscribe(0, 0));
    more, h := Advance(start, more, h, threads, i, Admit);
    assert h.agents == g.agents[i := WAITING];
  }

  lemma {:induction false} OpenStream(start: Client, ms: seq<Move>, g: Client, threads: nat, i: nat)
    returns (more: seq<Move>, h: Client)
    requires Reaches(start, ms, g, threads) && i < |g.agents| && g.agents[i] == WAITING && g.channels > 0
    requires InsideCount(g.agents) <= threads
    ensures Reaches(start, more, h, threads) && InsideCount(h.agents) == InsideCount(g.agents)
    ensures h == g.(counter := g.counter + 1, tickets := g.tickets + 1,
                    agents := g.agents[i := WAITING.(pc := Opened, cancelled := [false])])
  {
    more, h := Advance(start, ms, g, threads, i, Begin(0, 0));
    assert h.agents[i] == WAITING.(pc := Opening, cancelled := [false]);
    more, h := Advance(start, more, h, threads, i, Opens);
  }

  lemma {:induction false} GetStream(start: Client, ms: seq<Move>, g: Client, threads: nat, i: nat)
    returns (more: seq<Move>, h: Client)
    requires Reaches(start, ms, g, threads) && i < |g.agents| && g.agents[i] == WAITING && g.channels > 0
    requires InsideCount(g.agents) <= threads
    ensures Reaches(start, more, h, threads) && InsideCount(h.agents) == InsideCount(g.agents) - 1
    ensures h.counter == g.counter + 1 && h.channels == g.channels && |h.agents| == |g.agents|
    ensures forall j | 0 <= j < |g.agents| && j != i :: h.agents[j] == g.agents[j]
  {
    more, h := OpenStream(start, ms, g, threads, i);
    more, h := Advance(start, more, h, threads, i, Install);
  }

  /** `k` subscriptions can be opened one after the other. */
  lemma {:induction false} Fill(channels: nat, n: nat, threads: nat, k: nat) returns (ms: seq<Move>, g: Client)
    requires channels > 0 && k <= n && k <= Limit(channels) && threads >= 1
    ensures Reaches(Init(channels, n), ms, g, threads) && InsideCount(g.agents) == 0
    ensures g.counter == k && g.channels == channels && |g.agents| == n
    ensures forall j | k <= j < n :: g.agents[j] == NEW_AGENT
  {
    if k == 0 {
      ms, g := [], Init(channels, n);
      SumOfEqual(g.agents, OneInside, 0);
    } else {
      ms, g := Fill(channels, n, threads, k - 1);
      ms, g := PassCheck(Init(channels, n), ms, g, threads, k - 1);
      ms, g := GetStream(Init(channels, n), ms, g, threads, k - 1);
    }
  }

  /** With one place left, `k` goroutines can all pass the check. */
  lemma {:induction false} Crowd(channels: nat, threads: nat, k: nat) returns (ms: seq<Move>, g: Client)
    requires channels > 0 && Limit(channels) > 0 && 1 <= threads && k <= threads
    ensures var full, n := Limit(channels) - 1, Limit(channels) - 1 + threads;
      && Reaches(Init(channels, n), ms, g, threads) && InsideCount(g.agents) == k
      && g.counter == full && g.channels == channels && |g.agents| == n
      && (forall j | full <= j < full + k :: g.agents[j] == WAITING)
      && (forall j | full + k <= j < n :: g.agents[j] == NEW_AGENT)
  {
    var full := Limit(channels) - 1;
    if k == 0 {
      ms, g := Fill(channels, full + threads, threads, full);
    } else {
      ms, g := Crowd(channels, threads, k - 1);
      ms, g := PassCheck(Init(channels, full + threads), ms, g, threads, full + k - 1);
    }
  }

  /** And then all of them increment the counter. */
  lemma {:induction false} Burst(channels: nat, threads: nat, k: nat) returns (ms: seq<Move>, g: Client)
    requires channels > 0 && Limit(channels) > 0 && 1 <= threads && k <= threads
    ensures var full, n := Limit(channels) - 1, Limit(channels) - 1 + threads;
      && Reaches(Init(channels, n), ms, g, threads) && InsideCount(g.agents) == threads
      && g.counter == full + k && g.channels == channels && |g.agents| == n
      && (forall j | full + k <= j < n :: g.agents[j] == WAITING)
  {
    var full := Limit(channels) - 1;
    if k == 0 {
      ms, g := Crowd(channels, threads, threads);
    } else {
      ms, g := Burst(channels, threads, k - 1);
      ms, g := Advance(Init(channels, full + threads), ms, g, threads, full + k - 1, Begin(0, 0));
    }
  }

  /**
   For every number of channels with a positive limit and every number of threads, some run with at most that many
   goroutines inside topicSubscribe ends with the counter at the limit plus all threads but one.
   */
  lemma {:induction false} AdmissionBoundIsReached(channels: nat, threads: nat) returns (n: nat, ms: seq<Move>)
    requires channels > 0 && Limit(channels) > 0 && threads >= 1
    ensures Run(Init(channels, n), ms).Some? && AtMostInside(Init(channels, n), ms, threads)
    ensures Run(Init(channels, n), ms).value.counter == Limit(channels) + threads - 1
  {
    n := Limit(channels) - 1 + threads;
    var g;
    ms, g := Burst(channels, threads, threads);
  }
}
