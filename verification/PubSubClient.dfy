/**
 The shared client underneath all subscriptions: the stream counter, the limit check, the channels, and topicSubscribe.

 The environment of one subscription is a script of turns, one for every place where the code looks at the outside. A
 call that needs a turn when the script is used up is still running, so a script stands for every prefix of an execution.
 */
module PubSubClient {
  import opened Options
  import opened StreamMachine
  import opened ClientLedger
  import opened RoundRobin

  datatype Reply = Delivers(message: Message) | Breaks(exhausted: bool) | Accepts | Refuses

  /**
   What the outside has done when the code looks: what other goroutines have added to the stream counter, whether one of
   them has closed this subscription, whether the caller's context is done, and what the network answers.
   `preferCaller` is the choice a select makes when both contexts are done.
   */
  datatype Turn = Turn(others: int, closed: bool, callerDone: bool, preferCaller: bool, reply: Reply)

  /** Some goroutine closes the subscription in the turns from `lo` up to `hi`. */
  ghost predicate ClosedBetween(script: seq<Turn>, lo: nat, hi: nat)
    requires hi <= |script|
  {
    exists i | lo <= i < hi :: script[i].closed
  }

  class CancelContext {
    var done: bool

    constructor ()
      ensures !done
    {
      done := false;
    }
  }

  /** The first `next` turns of the script have been taken; `requests` and `contexts` are those of the
   open requests the network has seen, `others` what other goroutines have added to the counter in those turns. */
  class Network {
    const script: seq<Turn>
    var next: nat
    ghost var requests: seq<(Uint64, Uint64)>
    ghost var contexts: seq<CancelContext>
    ghost var others: int

    ghost predicate Valid()
      reads this
    {
      next <= |script|
    }

    constructor (script: seq<Turn>)
      ensures Valid() && this.script == script && next == 0 && requests == [] && contexts == [] && others == 0
    {
      this.script, next, requests, contexts, others := script, 0, [], [], 0;
    }

    method Poll() returns (turn: Option<Turn>)
      requires Valid()
      modifies `next, `others
      ensures Valid() && turn == if old(next) == |script| then None else Some(script[old(next)])
      ensures next == old(next) + if turn.None? then 0 else 1
      ensures others == old(others) + if turn.None? then 0 else turn.value.others
    {
      if next == |script| {
        return None;
      }
      turn, next, others := Some(script[next]), next + 1, others + script[next].others;
    }

    method Open(number: Uint64, page: Uint64, context: CancelContext) returns (turn: Option<Turn>)
      requires Valid()
      modifies `next, `others, `requests, `contexts
      ensures Valid() && turn == if old(next) == |script| then None else Some(script[old(next)])
      ensures next == old(next) + if turn.None? then 0 else 1
      ensures others == old(others) + if turn.None? then 0 else turn.value.others
      ensures requests == old(requests) + [(number, page)] && contexts == old(contexts) + [context]
    {
      turn := Poll();
      requests, contexts := requests + [(number, page)], contexts + [context];
    }
  }

  /** How a request for a stream ends. Without channels the ticket division panics. */
  datatype Answer = Rejected | Refused | Granted | Waiting | Crashed

  /**
   The answer the script holds from turn `at` on: the check fails if the counter, with what others have added, is at the
   limit; otherwise the next turn accepts or refuses the request.
   */
  function AnswerAt(script: seq<Turn>, at: nat, counter: int, channels: nat): Answer
    requires at <= |script|
  {
    if at == |script| then Waiting
    else if counter + script[at].others >= Limit(channels) then Rejected
    else if channels == 0 then Crashed
    else if at + 1 == |script| then Waiting
    else if script[at + 1].reply.Accepts? then Granted
    else Refused
  }

  /** What topicSubscribe returns, or where it is waiting or has stopped. */
  datatype Opening =
    | LimitExceeded
    | OpenFailed(context: CancelContext)
    | Stream(context: CancelContext, channel: nat)
    | WaitingToCheck
    | WaitingToOpen(context: CancelContext)
    | NoChannels
  {
    function Answer(): Answer {
      match this
      case LimitExceeded => Rejected
      case OpenFailed(_) => Refused
      case Stream(_, _) => Granted
      case NoChannels => Crashed
      case _ => Waiting
    }

    /** The request went out: the channel was drawn and the context made. */
    predicate Sent() {
      Stream? || OpenFailed? || WaitingToOpen?
    }
  }

  class PubSubClient {
    var numStreamChannels: nat
    var numGrpcStreams: int
    var streamTopicManagerCount: Uint64
    ghost var others: int
    ghost var drawn: seq<nat>

    /** The ticket counter counts the draws, and the draws have gone round the channels in turn. */
    ghost predicate InRotation()
      reads this
    {
      streamTopicManagerCount == |drawn| && Rotates(drawn, numStreamChannels)
    }

    constructor (channels: nat)
      ensures numStreamChannels == channels && numGrpcStreams == 0 && streamTopicManagerCount == 0
      ensures others == 0 && drawn == [] && (channels > 0 ==> InRotation())
    {
      numStreamChannels, numGrpcStreams, streamTopicManagerCount := channels, 0, 0;
      others, drawn := 0, [];
    }

    /** What the calling goroutine itself has added to the counter. */
    ghost function Own(): int
      reads this
    {
      numGrpcStreams - others
    }

    method Add(delta: int)
      modifies `numGrpcStreams
      ensures numGrpcStreams == old(numGrpcStreams) + delta
    {
      numGrpcStreams := numGrpcStreams + delta;
    }

    /** Other goroutines run. */
    method Interleave(delta: int)
      modifies `numGrpcStreams, `others
      ensures numGrpcStreams == old(numGrpcStreams) + delta && Own() == old(Own())
    {
      numGrpcStreams, others := numGrpcStreams + delta, others + delta;
    }

    /** Closing the client leaves it without channels: from then on the limit is zero. */
    method Close()
      modifies `numStreamChannels
      ensures numStreamChannels == 0 && Limit(numStreamChannels) == 0
    {
      numStreamChannels := 0;
    }

    /** Round robin over the channels; the ticket counter wraps at 2^64. */
    method GetNextStreamTopicManager() returns (channel: Option<nat>)
      modifies `streamTopicManagerCount, `drawn
      ensures old(InRotation()) && old(streamTopicManagerCount) < 0xFFFF_FFFF_FFFF_FFFF ==> InRotation()
      ensures drawn == if channel.Some? then old(drawn) + [channel.value] else old(drawn)
      ensures streamTopicManagerCount == (old(streamTopicManagerCount) + 1) % 0x1_0000_0000_0000_0000
      ensures channel == if numStreamChannels == 0 then None else Some(streamTopicManagerCount % numStreamChannels)
    {
      streamTopicManagerCount := (streamTopicManagerCount + 1) % 0x1_0000_0000_0000_0000;
      if numStreamChannels == 0 {
        return None;
      }
      channel := Some(streamTopicManagerCount % numStreamChannels);
      drawn := drawn + [channel.value];
    }

    method CheckNumConcurrentStreams() returns (ok: bool)
      ensures ok <==> numGrpcStreams < Limit(numStreamChannels)
    {
      ok := numGrpcStreams < Limit(numStreamChannels);
    }

    /** The part of topicSubscribe after the check. */
    method OpenStream(number: Uint64, page: Uint64, net: Network) returns (result: Opening, closed: bool)
      requires net.Valid()
      modifies `numGrpcStreams, `others, `streamTopicManagerCount, `drawn, net`next, net`others, net`requests, net`contexts
      ensures net.Valid() && (result.Sent() || result.NoChannels?) && (result.NoChannels? <==> numStreamChannels == 0)
      ensures result.Sent() ==> (result.WaitingToOpen? <==> old(net.next) == |net.script|)
      ensures result.Sent() && !result.WaitingToOpen? ==> (result.Stream? <==> net.script[old(net.next)].reply.Accepts?)
      ensures net.next == old(net.next) + if result.Stream? || result.OpenFailed? then 1 else 0
      ensures closed <==> net.next > old(net.next) && net.script[old(net.next)].closed
      ensures Own() == old(Own()) + if result.OpenFailed? then 0 else 1
      ensures others - net.others == old(others - net.others)
      ensures net.others == old(net.others) + if net.next > old(net.next) then net.script[old(net.next)].others else 0
      ensures streamTopicManagerCount == (old(streamTopicManagerCount) + 1) % 0x1_0000_0000_0000_0000
      ensures old(InRotation()) && old(streamTopicManagerCount) < 0xFFFF_FFFF_FFFF_FFFF ==> InRotation()
      ensures net.requests == old(net.requests) + if result.Sent() then [(number, page)] else []
      ensures net.contexts == old(net.contexts) + if result.Sent() then [result.context] else []
      ensures result.Sent() ==> fresh(result.context) && (result.context.done <==> result.OpenFailed?)
      ensures result.Stream? ==> result.channel == streamTopicManagerCount % numStreamChannels
    {
      var context := new CancelContext();
      Add(1);
      var channel := GetNextStreamTopicManager();
      if channel.None? {
        return NoChannels, false;
      }
      var turn := net.Open(number, page, context);
      if turn.None? {
        return WaitingToOpen(context), false;
      }
      Interleave(turn.value.others);
      if !turn.value.reply.Accepts? {
        Add(-1);
        context.done := true;
        return OpenFailed(context), turn.value.closed;
      }
      return Stream(context, channel.value), turn.value.closed;
    }

    /**
     Opens one stream, as the script answers. The counter is raised only if the check passes, and lowered again if the
     request is refused, whose context is then cancelled; only a stream that is returned, or a request without an answer
     yet, stays counted. `closed` tells whether the subscription was closed meanwhile.
     */
    method TopicSubscribe(number: Uint64, page: Uint64, net: Network) returns (result: Opening, closed: bool)
      requires net.Valid()
      modifies `numGrpcStreams, `others, `streamTopicManagerCount, `drawn, net`next, net`others, net`requests, net`contexts
      ensures net.Valid() && result.Answer() == AnswerAt(net.script, old(net.next), old(numGrpcStreams), numStreamChannels)
      ensures result.WaitingToCheck? <==> old(net.next) == |net.script|
      ensures result.LimitExceeded? <==>
        old(net.next) < |net.script| && old(numGrpcStreams) + net.script[old(net.next)].others >= Limit(numStreamChannels)
      ensures !result.WaitingToCheck? && !result.LimitExceeded? ==> (result.NoChannels? <==> numStreamChannels == 0)
      ensures result.Sent() ==> (result.WaitingToOpen? <==> old(net.next) + 1 == |net.script|)
      ensures result.Stream? ==> net.script[old(net.next) + 1].reply.Accepts?
      ensures result.OpenFailed? ==> !net.script[old(net.next) + 1].reply.Accepts?
      ensures net.next == old(net.next) +
        if result.WaitingToCheck? then 0 else if result.Stream? || result.OpenFailed? then 2 else 1
      ensures closed <==> ClosedBetween(net.script, old(net.next), net.next)
      ensures Own() == old(Own()) + if result.Stream? || result.WaitingToOpen? || result.NoChannels? then 1 else 0
      ensures others - net.others == old(others - net.others)
      ensures net.others == old(net.others)
        + (if net.next > old(net.next) then net.script[old(net.next)].others else 0)
        + (if net.next > old(net.next) + 1 then net.script[old(net.next) + 1].others else 0)
      ensures streamTopicManagerCount ==
        if result.WaitingToCheck? || result.LimitExceeded? then old(streamTopicManagerCount)
        else (old(streamTopicManagerCount) + 1) % 0x1_0000_0000_0000_0000
      ensures old(InRotation()) && old(streamTopicManagerCount) < 0xFFFF_FFFF_FFFF_FFFF ==> InRotation()
      ensures net.requests == old(net.requests) + if result.Sent() then [(number, page)] else []
      ensures net.contexts == old(net.contexts) + if result.Sent() then [result.context] else []
      ensures result.Sent() ==> fresh(result.context) && (result.context.done <==> result.OpenFailed?)
      ensures result.Stream? ==> numStreamChannels > 0 && result.channel == streamTopicManagerCount % numStreamChannels
    {
      closed := false;
      var turn := net.Poll();
      if turn.None? {
        return WaitingToCheck, closed;
      }
      Interleave(turn.value.others);
      closed := turn.value.closed;
      var ok := CheckNumConcurrentStreams();
      if !ok {
        return LimitExceeded, closed;
      }
      var late;
      result, late := OpenStream(number, page, net);
      closed := closed || late;
    }
  }
}
