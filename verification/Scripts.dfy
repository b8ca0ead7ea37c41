/**
 What Event and Subscribe come to on a given script of turns, as functions of the script, the counter and the limit, and
 what follows: a call that has ended does not change its mind, Subscribe succeeds in exactly these cases, and its retries
 are bounded by the capacity they use up.
 */
module Scripts {
  import opened Options
  import opened Values
  import opened StreamMachine
  import opened ClientLedger
  import opened PubSubClient
  import opened Histories

  // ---------- Event ----------

  datatype Select = Running | Done(callerDone: bool) | NoTurn

  /** A call that is `Pending` has used up the script; one that has `Panicked` found the client without channels. */
  datatype Result = Returned(event: Event) | Failed(callerDone: bool) | Pending | Panicked

  /** How a call ends, before which turn, with its stream's context done or not, and with which counter. */
  datatype Outcome = Outcome(result: Result, at: nat, done: bool, counter: int)

  /** The select at the top of Event's loop and after a failed receive; `done` tells about the stream's own context. */
  function SelectAt(script: seq<Turn>, at: nat, done: bool): Select
    requires at <= |script|
  {
    if at == |script| then NoTurn
    else
      var turn := script[at];
      if turn.callerDone && (turn.preferCaller || !(done || turn.closed)) then Done(true)
      else if done || turn.closed then Done(false)
      else Running
  }

  /** How a reconnect ends, before which turn, and with which counter. */
  datatype Reconnection = Reconnection(answer: Answer, at: nat, counter: int)

  /** Attempts follow one another until one is granted. A request without an answer yet is counted. */
  function Reconnect(script: seq<Turn>, at: nat, counter: int, channels: nat): (r: Reconnection)
    requires at <= |script|
    ensures at <= r.at <= |script| && (r.answer.Granted? || r.answer.Waiting? || r.answer.Crashed?)
    decreases |script| - at
  {
    match AnswerAt(script, at, counter, channels)
    case Rejected => Reconnect(script, at + 1, counter + script[at].others, channels)
    case Refused => Reconnect(script, at + 2, counter + script[at].others + script[at + 1].others, channels)
    case Granted => Reconnection(Granted, at + 2, counter + script[at].others + script[at + 1].others + 1)
    case Crashed => Reconnection(Crashed, at + 1, counter + script[at].others + 1)
    case Waiting =>
      if at == |script| then Reconnection(Waiting, at, counter)
      else Reconnection(Waiting, at + 1, counter + script[at].others + 1)
  }

  /** A select that has not chosen to run ends the call or waits. */
  function StopAt(script: seq<Turn>, at: nat, done: bool, counter: int): Outcome
    requires at <= |script| && !SelectAt(script, at, done).Running?
  {
    match SelectAt(script, at, done)
    case Done(callerDone) =>
      Outcome(Failed(callerDone), at + 1, done || script[at].closed, counter + script[at].others - 1)
    case _ => Outcome(Pending, at, done, counter)
  }

  /** Event from the top of its loop. */
  function EventAt(script: seq<Turn>, at: nat, done: bool, counter: int, channels: nat): (r: Outcome)
    requires at <= |script|
    ensures at <= r.at <= |script| && (r.result.Returned? ==> at < r.at)
    decreases |script| - at
  {
    if SelectAt(script, at, done).Running? then AwaitAt(script, at + 1, counter + script[at].others, channels)
    else StopAt(script, at, done, counter)
  }

  /** Event from where it waits for a message. */
  function AwaitAt(script: seq<Turn>, at: nat, counter: int, channels: nat): (r: Outcome)
    requires at <= |script|
    ensures at <= r.at <= |script|
    decreases |script| - at
  {
    if at == |script| then Outcome(Pending, at, false, counter)
    else
      var turn := script[at];
      if !turn.reply.Delivers? then RecoverAt(script, at + 1, turn.closed, counter + turn.others, channels)
      else match EventOf(turn.reply.message)
        case Some(event) => Outcome(Returned(event), at + 1, turn.closed, counter + turn.others)
        case None => EventAt(script, at + 1, turn.closed, counter + turn.others, channels)
  }

  /** Event after a failed receive. */
  function RecoverAt(script: seq<Turn>, at: nat, done: bool, counter: int, channels: nat): (r: Outcome)
    requires at <= |script|
    ensures at <= r.at <= |script|
    decreases |script| - at
  {
    if !SelectAt(script, at, done).Running? then StopAt(script, at, done, counter)
    else
      var r := Reconnect(script, at + 1, counter + script[at].others - 1, channels);
      match r.answer
      case Granted => EventAt(script, r.at, false, r.counter, channels)
      case Crashed => Outcome(Panicked, r.at, true, r.counter)
      case _ => Outcome(Pending, r.at, true, r.counter)
  }

  // ---------- Item ----------

  datatype ItemResult = Value(value: Value) | ItemFailed(callerDone: bool) | ItemPending | ItemPanicked

  /** Item calls Event until it gets an item. */
  function ItemAt(script: seq<Turn>, at: nat, done: bool, counter: int, channels: nat): ItemResult
    requires at <= |script|
    decreases |script| - at
  {
    var end := EventAt(script, at, done, counter, channels);
    match end.result
    case Returned(TopicItem(value, _, _, _)) => Value(value)
    case Returned(_) => ItemAt(script, end.at, end.done, end.counter, channels)
    case Failed(callerDone) => ItemFailed(callerDone)
    case Pending => ItemPending
    case Panicked => ItemPanicked
  }

  // ---------- Subscribe ----------

  datatype Ending = Succeeds | Fails | Waits | Crashes

  /** What others add to the counter during one round of Subscribe. */
  function OthersInRound(script: seq<Turn>, at: nat): int
    requires at + 2 < |script|
  {
    script[at].others + script[at + 1].others + script[at + 2].others
  }

  /** Subscribe from the top of its loop. A stream given up on the way stays counted. */
  function SubscribeAt(script: seq<Turn>, at: nat, counter: int, channels: nat): Ending
    requires at <= |script|
    decreases |script| - at
  {
    match AnswerAt(script, at, counter, channels)
    case Rejected => Fails
    case Refused => Fails
    case Waiting => Waits
    case Crashed => Crashes
    case Granted =>
      if at + 2 == |script| then Waits
      else match FirstOf(script[at + 2].reply)
        case FirstHeartbeat => Succeeds
        case FirstExhausted => SubscribeAt(script, at + 3, counter + OthersInRound(script, at) + 1, channels)
        case _ => Fails
  }

  // ---------- Why a call ends ----------

  /** A reconnect ends only with a stream, at the end of the script, or without channels. */
  lemma {:induction false} ReconnectReasons(script: seq<Turn>, at: nat, counter: int, channels: nat)
    requires at <= |script|
    ensures var r := Reconnect(script, at, counter, channels);
      && (r.answer.Granted? ==> at + 2 <= r.at && script[r.at - 1].reply.Accepts?)
      && (r.answer.Waiting? ==> r.at == |script|)
      && (r.answer.Crashed? ==> channels == 0)
    decreases |script| - at
  {
    match AnswerAt(script, at, counter, channels) {
      case Rejected => ReconnectReasons(script, at + 1, counter + script[at].others, channels);
      case Refused =>
        ReconnectReasons(script, at + 2, counter + script[at].others + script[at + 1].others, channels);
      case _ =>
    }
  }

  /** The reasons for an outcome reached from turn `at`, with the stream's context `done` or not. */
  ghost predicate HasReason(script: seq<Turn>, at: nat, done: bool, channels: nat, r: Outcome)
    requires r.at <= |script|
  {
    match r.result
    case Returned(event) =>
      && at < r.at && script[r.at - 1].reply.Delivers? && Relays(event, script[r.at - 1].reply.message)
      && (r.done ==> script[r.at - 1].closed)
    case Failed(true) => at < r.at && script[r.at - 1].callerDone && (r.done ==> script[r.at - 1].preferCaller)
    case Failed(false) =>
      && at < r.at && r.done && (done || ClosedBetween(script, at, r.at))
      && (script[r.at - 1].callerDone ==> !script[r.at - 1].preferCaller)
    case Pending => r.at == |script|
    case Panicked => channels == 0
  }

  /**
   Event returns a message, or an error because a context is done: the caller's at its last look, or the stream's, which
   somebody closed. Otherwise it is still running, or the client has no channels: no behaviour of the network ends it.
   */
  lemma {:induction false} EventReasons(script: seq<Turn>, at: nat, done: bool, counter: int, channels: nat)
    requires at <= |script|
    ensures HasReason(script, at, done, channels, EventAt(script, at, done, counter, channels))
    ensures at < |script| && (script[at].callerDone || done) ==> EventAt(script, at, done, counter, channels).result.Failed?
    decreases |script| - at
  {
    if SelectAt(script, at, done).Running? && at + 1 < |script| {
      var waiting := counter + script[at].others;
      var turn := script[at + 1];
      if !turn.reply.Delivers? {
        RecoverReasons(script, at + 2, turn.closed, waiting + turn.others, channels);
      } else if EventOf(turn.reply.message).None? {
        EventReasons(script, at + 2, turn.closed, waiting + turn.others, channels);
      }
    }
  }

  lemma {:induction false} RecoverReasons(script: seq<Turn>, at: nat, done: bool, counter: int, channels: nat)
    requires at <= |script|
    ensures HasReason(script, at, done, channels, RecoverAt(script, at, done, counter, channels))
    decreases |script| - at
  {
    if SelectAt(script, at, done).Running? {
      var dropped := counter + script[at].others - 1;
      ReconnectReasons(script, at + 1, dropped, channels);
      var r := Reconnect(script, at + 1, dropped, channels);
      if r.answer.Granted? {
        EventReasons(script, r.at, false, r.counter, channels);
      }
    }
  }

  // ---------- A call that has ended stays ended ----------

  lemma {:induction false} ReconnectStays(script: seq<Turn>, more: seq<Turn>, at: nat, counter: int, channels: nat)
    requires at <= |script| && !Reconnect(script, at, counter, channels).answer.Waiting?
    ensures Reconnect(script + more, at, counter, channels) == Reconnect(script, at, counter, channels)
    decreases |script| - at
  {
    match AnswerAt(script, at, counter, channels) {
      case Rejected => ReconnectStays(script, more, at + 1, counter + script[at].others, channels);
      case Refused =>
        ReconnectStays(script, more, at + 2, counter + script[at].others + script[at + 1].others, channels);
      case _ =>
    }
  }

  /** Whatever the outside does after an Event call has ended makes no difference to it. */
  lemma {:induction false} EventStays(script: seq<Turn>, more: seq<Turn>, at: nat, done: bool, counter: int, channels: nat)
    requires at <= |script| && !EventAt(script, at, done, counter, channels).result.Pending?
    ensures EventAt(script + more, at, done, counter, channels) == EventAt(script, at, done, counter, channels)
    decreases |script| - at
  {
    if SelectAt(script, at, done).Running? {
      var waiting := counter + script[at].others;
      assert script[at + 1] == (script + more)[at + 1];
      var turn := script[at + 1];
      if !turn.reply.Delivers? {
        RecoverStays(script, more, at + 2, turn.closed, waiting + turn.others, channels);
      } else if EventOf(turn.reply.message).None? {
        EventStays(script, more, at + 2, turn.closed, waiting + turn.others, channels);
      }
    }
  }

  lemma {:induction false} RecoverStays(
      script: seq<Turn>, more: seq<Turn>, at: nat, done: bool, counter: int, channels: nat)
    requires at <= |script| && !RecoverAt(script, at, done, counter, channels).result.Pending?
    ensures RecoverAt(script + more, at, done, counter, channels) == RecoverAt(script, at, done, counter, channels)
    decreases |script| - at
  {
    if SelectAt(script, at, done).Running? {
      var dropped := counter + script[at].others - 1;
      ReconnectStays(script, more, at + 1, dropped, channels);
      var r := Reconnect(script, at + 1, dropped, channels);
      if r.answer.Granted? {
        EventStays(script, more, r.at, false, r.counter, channels);
      }
    }
  }

  // ---------- How Subscribe ends ----------

  function OthersBefore(script: seq<Turn>, n: nat): int
    requires n <= |script|
  {
    if n == 0 then 0 else OthersBefore(script, n - 1) + script[n - 1].others
  }

  /** The counter at the start of round `j`, when every round before leaked a stream. */
  function CounterAtRound(script: seq<Turn>, counter: int, j: nat): int
    requires 3 * j <= |script|
  {
    counter + OthersBefore(script, 3 * j) + j
  }

  /** Round `j` gets a stream and its first message. */
  ghost predicate Opens(script: seq<Turn>, counter: int, channels: nat, j: nat) {
    && 3 * j + 2 < |script| && channels > 0
    && CounterAtRound(script, counter, j) + script[3 * j].others < Limit(channels)
    && script[3 * j + 1].reply.Accepts?
  }

  /** Round `j` opens a stream that is out of resources. */
  ghost predicate GoesOn(script: seq<Turn>, counter: int, channels: nat, j: nat) {
    Opens(script, counter, channels, j) && script[3 * j + 2].reply == Breaks(true)
  }

  /** Rounds `from` up to `k` end in a resource-exhausted stream, round `k` in a heartbeat. */
  ghost predicate SucceedsInRound(script: seq<Turn>, counter: int, channels: nat, from: nat, k: nat) {
    && from <= k
    && (forall j | from <= j < k :: GoesOn(script, counter, channels, j))
    && Opens(script, counter, channels, k) && script[3 * k + 2].reply == Delivers(Heartbeat)
  }

  /**
   Rounds `from` up to `k` end in a resource-exhausted stream, and in round `k` the check finds the counter at the limit, or
   the request is refused, or the first thing to come is neither a heartbeat nor a resource-exhausted error.
   */
  ghost predicate FailsInRound(script: seq<Turn>, counter: int, channels: nat, from: nat, k: nat) {
    && from <= k && 3 * k < |script|
    && (forall j | from <= j < k :: GoesOn(script, counter, channels, j))
    && (
      || CounterAtRound(script, counter, k) + script[3 * k].others >= Limit(channels)
      || (channels > 0 && 3 * k + 1 < |script| && !script[3 * k + 1].reply.Accepts?)
      || (Opens(script, counter, channels, k)
          && script[3 * k + 2].reply != Delivers(Heartbeat) && script[3 * k + 2].reply != Breaks(true)))
  }

  ghost predicate SucceedsFrom(script: seq<Turn>, counter: int, channels: nat, from: nat) {
    exists k :: SucceedsInRound(script, counter, channels, from, k)
  }

  ghost predicate FailsFrom(script: seq<Turn>, counter: int, channels: nat, from: nat) {
    exists k :: FailsInRound(script, counter, channels, from, k)
  }

  lemma OthersOfRound(script: seq<Turn>, j: nat)
    requires 3 * j + 2 < |script|
    ensures OthersBefore(script, 3 * (j + 1)) == OthersBefore(script, 3 * j) + OthersInRound(script, 3 * j)
  {
    var at := 3 * j;
    assert OthersBefore(script, at + 3) == OthersBefore(script, at + 2) + script[at + 2].others;
    assert OthersBefore(script, at + 2) == OthersBefore(script, at + 1) + script[at + 1].others;
  }

  lemma GoesOnToNext(script: seq<Turn>, counter: int, channels: nat, from: nat)
    requires GoesOn(script, counter, channels, from)
    ensures SubscribeAt(script, 3 * from, CounterAtRound(script, counter, from), channels)
         == SubscribeAt(script, 3 * (from + 1), CounterAtRound(script, counter, from + 1), channels)
  {
    OthersOfRound(script, from);
  }

  lemma SucceedsLater(script: seq<Turn>, counter: int, channels: nat, from: nat)
    requires GoesOn(script, counter, channels, from)
    ensures SucceedsFrom(script, counter, channels, from) <==> SucceedsFrom(script, counter, channels, from + 1)
  {
    if SucceedsFrom(script, counter, channels, from) {
      var k :| SucceedsInRound(script, counter, channels, from, k);
      assert SucceedsInRound(script, counter, channels, from + 1, k);
    }
    if SucceedsFrom(script, counter, channels, from + 1) {
      var k :| SucceedsInRound(script, counter, channels, from + 1, k);
      assert SucceedsInRound(script, counter, channels, from, k);
    }
  }

  lemma FailsLater(script: seq<Turn>, counter: int, channels: nat, from: nat)
    requires GoesOn(script, counter, channels, from)
    ensures FailsFrom(script, counter, channels, from) <==> FailsFrom(script, counter, channels, from + 1)
  {
    if FailsFrom(script, counter, channels, from) {
      var k :| FailsInRound(script, counter, channels, from, k);
      assert FailsInRound(script, counter, channels, from + 1, k);
    }
    if FailsFrom(script, counter, channels, from + 1) {
      var k :| FailsInRound(script, counter, channels, from + 1, k);
      assert FailsInRound(script, counter, channels, from, k);
    }
  }

  /** A round that does not go on decides. */
  lemma Decides(script: seq<Turn>, counter: int, channels: nat, from: nat)
    requires 3 * from <= |script|
    requires !GoesOn(script, counter, channels, from)
    ensures var end := SubscribeAt(script, 3 * from, CounterAtRound(script, counter, from), channels);
      && (end.Succeeds? <==> SucceedsFrom(script, counter, channels, from))
      && (end.Fails? <==> FailsFrom(script, counter, channels, from))
  {
    var end := SubscribeAt(script, 3 * from, CounterAtRound(script, counter, from), channels);
    assert end.Succeeds? <==> SucceedsInRound(script, counter, channels, from, from);
    assert end.Fails? <==> FailsInRound(script, counter, channels, from, from);
  }

  lemma {:induction false} EndsFromRound(script: seq<Turn>, counter: int, channels: nat, from: nat)
    requires 3 * from <= |script|
    ensures var end := SubscribeAt(script, 3 * from, CounterAtRound(script, counter, from), channels);
      && (end.Succeeds? <==> SucceedsFrom(script, counter, channels, from))
      && (end.Fails? <==> FailsFrom(script, counter, channels, from))
    decreases |script| - from
  {
    if GoesOn(script, counter, channels, from) {
      GoesOnToNext(script, counter, channels, from);
      SucceedsLater(script, counter, channels, from);
      FailsLater(script, counter, channels, from);
      EndsFromRound(script, counter, channels, from + 1);
    } else {
      Decides(script, counter, channels, from);
    }
  }

  lemma {:induction false} NeverCrashes(script: seq<Turn>, at: nat, counter: int, channels: nat)
    requires at <= |script| && (channels > 0 || at == |script| || counter + script[at].others >= 0)
    ensures !SubscribeAt(script, at, counter, channels).Crashes?
    decreases |script| - at
  {
    if AnswerAt(script, at, counter, channels).Granted? && at + 2 < |script| {
      NeverCrashes(script, at + 3, counter + OthersInRound(script, at) + 1, channels);
    }
  }

  /**
   Subscribe succeeds if and only if some round finds the counter below the limit, gets its stream and hears a heartbeat,
   and every round before it got its stream and then heard that the server's resources were exhausted; it fails if and
   only if after such rounds the check fails, the request is refused, or anything else comes first.
   */
  lemma SubscribeEndsExactly(script: seq<Turn>, counter: int, channels: nat)
    ensures SubscribeAt(script, 0, counter, channels).Succeeds?
      <==> exists k :: SucceedsInRound(script, counter, channels, 0, k)
    ensures SubscribeAt(script, 0, counter, channels).Fails?
      <==> exists k :: FailsInRound(script, counter, channels, 0, k)
    ensures SubscribeAt(script, 0, counter, channels).Crashes?
      <==> channels == 0 && script != [] && counter + script[0].others < 0
  {
    EndsFromRound(script, counter, channels, 0);
    if channels == 0 && script != [] && counter + script[0].others < 0 {
    } else {
      NeverCrashes(script, 0, counter, channels);
    }
  }

  /** Every open is accepted, every first receive says the resources are exhausted, and nobody else uses the counter. */
  ghost predicate Exhausted(script: seq<Turn>) {
    && (forall i | 0 <= i < |script| :: script[i].others == 0)
    && (forall i | 0 <= i < |script| && i % 3 == 1 :: script[i].reply.Accepts?)
    && (forall i | 0 <= i < |script| && i % 3 == 2 :: script[i].reply == Breaks(true))
  }

  lemma Thirds(n: nat)
    requires n % 3 == 0
    ensures (n + 1) % 3 == 1 && (n + 2) % 3 == 2 && (n + 3) % 3 == 0
  {
  }

  lemma {:induction false} ExhaustedFrom(script: seq<Turn>, at: nat, counter: int, channels: nat)
    requires Exhausted(script) && at <= |script| && at % 3 == 0 && channels > 0 && counter <= Limit(channels)
    ensures SubscribeAt(script, at, counter, channels) ==
      if |script| - at > 3 * (Limit(channels) - counter) then Fails else Waits
    decreases |script| - at
  {
    Thirds(at);
    if counter < Limit(channels) && at + 2 < |script| {
      ExhaustedFrom(script, at + 3, counter + 1, channels);
    }
  }

  /**
   Subscribe's retries after a resource-exhausted error look endless but use up the capacity: each leaves its stream
   counted, so that after as many retries as there were places left the limit check fails for good.
   */
  lemma RetriesUseUpCapacity(script: seq<Turn>, counter: int, channels: nat)
    requires Exhausted(script) && channels > 0 && counter <= Limit(channels)
    ensures SubscribeAt(script, 0, counter, channels) ==
      if |script| > 3 * (Limit(channels) - counter) then Fails else Waits
  {
    ExhaustedFrom(script, 0, counter, channels);
  }
}
