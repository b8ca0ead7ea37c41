/** All subscriptions of one client, interleaved at will: the shared counter, the admission check, and the channels. */
module ClientLedger {
  import opened Options
  import opened Sums
  import opened StreamMachine
  import opened RoundRobin

  const STREAMS_PER_CHANNEL := 100

  /** The admission limit, computed in 32 bits. */
  function Limit(channels: nat): (limit: nat)
    ensures limit < 0x1_0000_0000 && (channels * STREAMS_PER_CHANNEL - limit) % 0x1_0000_0000 == 0
    ensures limit <= channels * STREAMS_PER_CHANNEL
    ensures 100 * channels < 0x1_0000_0000 ==> limit == 100 * channels
  {
    (channels * STREAMS_PER_CHANNEL) % 0x1_0000_0000
  }

  datatype Client = Client(channels: nat, counter: int, tickets: nat, agents: seq<Agent>)

  /** A step of one subscription, or closing the client, which zeroes its channel count. */
  datatype Move = Act(who: nat, act: Action) | Shut

  function Init(channels: nat, n: nat): Client {
    Client(channels, 0, 0, seq(n, _ => NEW_AGENT))
  }

  /**
   The check compares the counter of that moment; an open request with no channel crashes instead of going out. The
   counter and the ticket counter are incremented by the same step: no code reads both.
   */
  predicate Enabled(g: Client, m: Move) {
    match m
    case Shut => true
    case Act(i, act) =>
      && i < |g.agents| && Step(g.agents[i], act).Some?
      && (act.Reject? ==> g.counter >= Limit(g.channels))
      && (act.Admit? ==> g.counter < Limit(g.channels))
      && (act.Begin? ==> g.channels > 0)
  }

  function Next(g: Client, m: Move): Client
    requires Enabled(g, m)
  {
    match m
    case Shut => g.(channels := 0)
    case Act(i, act) =>
      g.(counter := g.counter + Delta(act), tickets := g.tickets + if act.Begin? then 1 else 0,
         agents := g.agents[i := Step(g.agents[i], act).value])
  }

  function Run(g: Client, ms: seq<Move>): Option<Client> {
    if ms == [] then Some(g)
    else
      var h := Run(g, ms[..|ms| - 1]);
      if h.Some? && Enabled(h.value, ms[|ms| - 1]) then Some(Next(h.value, ms[|ms| - 1])) else None
  }

  // ---------- The global ledger ----------

  function Shares(agents: seq<Agent>): int {
    Sum(agents, Share)
  }

  /**
   In every state of every interleaving the shared counter is the sum of what the subscriptions account for: one for each
   with a counted stream, one for each stream Subscribe leaked, minus one for each error Event has returned.
   */
  lemma {:induction false} GlobalLedger(channels: nat, n: nat, ms: seq<Move>)
    requires Run(Init(channels, n), ms).Some?
    ensures var g := Run(Init(channels, n), ms).value;
      && |g.agents| == n && g.counter == Shares(g.agents)
      && forall i | 0 <= i < n :: WellFormed(g.agents[i])
  {
    if ms == [] {
      SumOfEqual(Init(channels, n).agents, Share, 0);
    } else {
      var last := ms[|ms| - 1];
      GlobalLedger(channels, n, ms[..|ms| - 1]);
      var g := Run(Init(channels, n), ms[..|ms| - 1]).value;
      if last.Act? {
        StepLedger(g.agents[last.who], last.act);
        StepWellFormed(g.agents[last.who], last.act);
        SumUpdate(g.agents, last.who, Step(g.agents[last.who], last.act).value, Share);
      }
    }
  }

  /** No goroutine calls Event again on a subscription whose Event has returned an error. */
  ghost predicate Careful(g: Client, ms: seq<Move>) {
    forall k | 0 <= k < |ms| && ms[k].Act? && ms[k].act.Call? ::
      var h := Run(g, ms[..k]);
      h.Some? && ms[k].who < |h.value.agents| ==> h.value.agents[ms[k].who].errors == 0
  }

  predicate Unspent(a: Agent) {
    a.errors == 0 || (a.errors == 1 && a.pc.Idle?)
  }

  lemma {:induction false} CarefulAgents(channels: nat, n: nat, ms: seq<Move>)
    requires Run(Init(channels, n), ms).Some? && Careful(Init(channels, n), ms)
    ensures var g := Run(Init(channels, n), ms).value;
      forall i | 0 <= i < |g.agents| :: Unspent(g.agents[i])
  {
    if ms != [] {
      var before, last := ms[..|ms| - 1], ms[|ms| - 1];
      forall k | 0 <= k < |before| ensures ms[..k] == before[..k] {}
      CarefulAgents(channels, n, before);
      var g := Run(Init(channels, n), before).value;
      GlobalLedger(channels, n, before);
      assert ms[..|ms| - 1] == before;
    }
  }

  /** Does this subscription have a stream that counts: open or being opened, and no error returned? */
  function OneOpen(a: Agent): int {
    if Counted(a.pc) && a.errors == 0 then 1 else 0
  }

  function GivenUp(a: Agent): int {
    a.leaked
  }

  /**
   As long as every caller stops at the first error, the counter is the number of subscriptions with a stream, counting
   those whose open request is out and not those that have lost one and are still to ask again, plus the streams that
   Subscribe gave up; in particular it is never negative.
   */
  lemma {:induction false} CarefulLedger(channels: nat, n: nat, ms: seq<Move>)
    requires Run(Init(channels, n), ms).Some? && Careful(Init(channels, n), ms)
    ensures var g := Run(Init(channels, n), ms).value;
      g.counter == Sum(g.agents, OneOpen) + Sum(g.agents, GivenUp) && g.counter >= 0
  {
    var agents := Run(Init(channels, n), ms).value.agents;
    GlobalLedger(channels, n, ms);
    CarefulAgents(channels, n, ms);
    SumOfSums(agents, Share, OneOpen, GivenUp);
    SumNonNegative(agents, Share);
  }

  lemma {:induction false} RunPrefix(g: Client, ms: seq<Move>, k: nat)
    requires Run(g, ms).Some? && k <= |ms|
    ensures Run(g, ms[..k]).Some?
  {
    if k < |ms| {
      RunPrefix(g, ms[..|ms| - 1], k);
      assert ms[..|ms| - 1][..k] == ms[..k];
    } else {
      assert ms[..k] == ms;
    }
  }

  lemma {:induction false} ShutStays(g: Client, ms: seq<Move>, k: nat)
    requires Run(g, ms).Some? && k < |ms| && ms[k].Shut?
    ensures Run(g, ms).value.channels == 0
  {
    if k < |ms| - 1 {
      ShutStays(g, ms[..|ms| - 1], k);
    }
  }

  /** Once the client is closed, and as long as every caller stops at the first error, no goroutine is admitted again. */
  lemma {:induction false} ClosedClientAdmitsNobody(channels: nat, n: nat, ms: seq<Move>, k: nat, j: nat)
    requires Run(Init(channels, n), ms).Some? && Careful(Init(channels, n), ms)
    requires k < j < |ms| && ms[k].Shut?
    ensures !(ms[j].Act? && (ms[j].act.Admit? || ms[j].act.Begin?))
  {
    var g, before := Init(channels, n), ms[..j];
    RunPrefix(g, ms, j);
    RunPrefix(g, ms, j + 1);
    assert ms[..j + 1][..j] == before;
    forall i | 0 <= i < j ensures ms[..i] == before[..i] {}
    CarefulLedger(channels, n, before);
    ShutStays(g, before, k);
  }

  // ---------- Admission ----------

  /** Is this goroutine inside topicSubscribe? */
  predicate Inside(a: Agent) {
    a.pc.Checking? || a.pc.Admitted? || Fetching(a.pc)
  }

  function OneInside(a: Agent): int {
    if Inside(a) then 1 else 0
  }

  function InsideCount(agents: seq<Agent>): int {
    Sum(agents, OneInside)
  }

  function OneAdmitted(a: Agent): int {
    if a.pc.Admitted? then 1 else 0
  }

  /** Goroutines that have passed the check and not yet incremented the counter. */
  function AdmittedCount(agents: seq<Agent>): int {
    Sum(agents, OneAdmitted)
  }

  /** Throughout the run at most `threads` goroutines are inside topicSubscribe at once. */
  ghost predicate AtMostInside(g: Client, ms: seq<Move>, threads: nat) {
    forall k | 0 <= k <= |ms| && Run(g, ms[..k]).Some? :: InsideCount(Run(g, ms[..k]).value.agents) <= threads
  }

  /** A step keeps the counter and the goroutines about to increment it within `bound`. */
  lemma {:induction false} AdmissionStep(g: Client, m: Move, bound: int, threads: nat)
    requires Enabled(g, m) && InsideCount(Next(g, m).agents) <= threads
    requires g.counter + AdmittedCount(g.agents) <= bound && Limit(g.channels) + threads - 1 <= bound
    ensures Next(g, m).counter + AdmittedCount(Next(g, m).agents) <= bound
  {
    if m.Act? {
      SumUpdate(g.agents, m.who, Step(g.agents[m.who], m.act).value, OneAdmitted);
      SumAtMost(Next(g, m).agents, OneAdmitted, OneInside);
    }
  }

  lemma {:induction false} AdmissionInvariant(channels: nat, n: nat, ms: seq<Move>, threads: nat)
    requires threads >= 1 && Run(Init(channels, n), ms).Some? && AtMostInside(Init(channels, n), ms, threads)
    ensures var g := Run(Init(channels, n), ms).value;
      && g.counter + AdmittedCount(g.agents) <= Limit(channels) + threads - 1
      && (g.channels == channels || g.channels == 0)
  {
    if ms == [] {
      SumOfEqual(Init(channels, n).agents, OneAdmitted, 0);
    } else {
      var before, last := ms[..|ms| - 1], ms[|ms| - 1];
      assert ms[..|ms|] == ms;
      forall k | 0 <= k <= |before| ensures ms[..k] == before[..k] {}
      AdmissionInvariant(channels, n, before, threads);
      AdmissionStep(Run(Init(channels, n), before).value, last, Limit(channels) + threads - 1, threads);
    }
  }

  /**
   The check and the increment are not one atomic step, so the counter can pass the limit, but only by the number of other
   goroutines inside topicSubscribe; with one goroutine at a time it never does.
   */
  lemma {:induction false} AdmissionBound(channels: nat, n: nat, ms: seq<Move>, threads: nat)
    requires threads >= 1 && Run(Init(channels, n), ms).Some? && AtMostInside(Init(channels, n), ms, threads)
    ensures Run(Init(channels, n), ms).value.counter <= STREAMS_PER_CHANNEL * channels + threads - 1
    ensures threads == 1 ==> Run(Init(channels, n), ms).value.counter <= Limit(channels)
  {
    AdmissionInvariant(channels, n, ms, threads);
    SumNonNegative(Run(Init(channels, n), ms).value.agents, OneAdmitted);
  }

  // ---------- Sequential opening without failures ----------

  /** No open fails and no stream ends. */
  ghost predicate Smooth(ms: seq<Move>) {
    forall k | 0 <= k < |ms| :: ms[k].Act? && Delta(ms[k].act) >= 0
  }

  lemma {:induction false} SmoothTickets(channels: nat, n: nat, ms: seq<Move>)
    requires Run(Init(channels, n), ms).Some? && Smooth(ms)
    ensures var g := Run(Init(channels, n), ms).value; g.tickets == g.counter && g.channels == channels
  {
    if ms != [] { SmoothTickets(channels, n, ms[..|ms| - 1]); }
  }

  /**
   Opening streams one at a time, with no failure and no stream ending: no channel ever carries more than 100 streams, and
   when the check first turns a caller away every channel carries exactly 100 - or, if the 32-bit limit has wrapped, some
   channel carries less.
   */
  lemma {:induction false} ChannelsFillEvenly(channels: nat, n: nat, ms: seq<Move>, channel: nat, i: nat)
    requires channel < channels
    requires Run(Init(channels, n), ms).Some? && Smooth(ms) && AtMostInside(Init(channels, n), ms, 1)
    ensures var g := Run(Init(channels, n), ms).value;
      && Uses(g.tickets, channels, channel) <= STREAMS_PER_CHANNEL
      && (Enabled(g, Act(i, Reject)) && channels * STREAMS_PER_CHANNEL < 0x1_0000_0000 ==>
           Uses(g.tickets, channels, channel) == STREAMS_PER_CHANNEL)
      && (Enabled(g, Act(i, Reject)) && channels * STREAMS_PER_CHANNEL >= 0x1_0000_0000 ==>
           Uses(g.tickets, channels, 0) < STREAMS_PER_CHANNEL)
  {
    SmoothTickets(channels, n, ms);
    AdmissionBound(channels, n, ms, 1);
    var g := Run(Init(channels, n), ms).value;
    NoChannelOverfull(g.tickets, channels, channel, STREAMS_PER_CHANNEL);
    if g.tickets < STREAMS_PER_CHANNEL * channels {
      LastChannelWaits(g.tickets, channels, STREAMS_PER_CHANNEL);
    }
  }
}
