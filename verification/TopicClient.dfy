/** The topic client's Subscribe: opens a stream, waits for the heartbeat, and tries again when resources are exhausted. */
module TopicClient {
  import opened Options
  import opened StreamMachine
  import opened PubSubClient
  import opened Histories
  import opened Scripts
  import opened TopicSubscription

  datatype SubscribeResult =
    | Subscribed(subscription: TopicSubscription)
    | SubscribeFailed
    | SubscribePending
    | SubscribePanicked

  function EndingOf(result: SubscribeResult): Ending {
    match result
    case Subscribed(_) => Succeeds
    case SubscribeFailed => Fails
    case SubscribePending => Waits
    case SubscribePanicked => Crashes
  }

  /** Where a Subscribe call stands that has not yet heard a heartbeat, with every turn so far recorded. */
  ghost predicate Asking(h: History, contexts: seq<CancelContext>, number: Uint64, page: Uint64, net: Network)
    reads net, contexts
  {
    && Genuine(h) && !h.agent.established && h.agent.askNumber == number && h.agent.askPage == page
    && Mirrors(contexts, h.agent.cancelled) && net.contexts == contexts
    && net.Valid() && net.requests == h.requests && h.messages == []
    && Answered(h.looks, net.script, net.next)
  }

  /** Every stream asked for by the call is asked for at the caller's resume position. */
  ghost predicate AsksFor(requests: seq<(Uint64, Uint64)>, number: Uint64, page: Uint64) {
    forall i | 0 <= i < |requests| :: requests[i] == (number, page)
  }

  /** One call of topicSubscribe from Subscribe, and the steps it amounts to. */
  method OpenStream(
      client: PubSubClient, number: Uint64, page: Uint64, net: Network, ghost h0: History, ghost contexts0: seq<CancelContext>)
    returns (opening: Opening, ghost h: History, ghost contexts: seq<CancelContext>)
    requires Asking(h0, contexts0, number, page, net) && h0.agent.pc.Checking?
    modifies client, net
    ensures Asking(h, contexts, number, page, net) && client.numStreamChannels == old(client.numStreamChannels)
    ensures h.agent == AgentAfter(h0.agent, opening)
    ensures AsksFor(old(net.requests), number, page) ==> AsksFor(net.requests, number, page)
    ensures opening.Sent() ==>
      && contexts == contexts0 + [opening.context] && fresh(opening.context)
      && (opening.context.done <==> opening.OpenFailed?)
    ensures opening.Answer() == AnswerAt(net.script, old(net.next), old(client.numGrpcStreams), client.numStreamChannels)
    ensures old(net.next) <= net.next <= old(net.next) + 2
    ensures opening.WaitingToCheck? || opening.WaitingToOpen? ==> net.next == |net.script|
    ensures opening.NoChannels? ==> client.numStreamChannels == 0
    ensures opening.Stream? ==>
      && net.next == old(net.next) + 2
      && client.numGrpcStreams ==
           old(client.numGrpcStreams) + net.script[old(net.next)].others + net.script[old(net.next) + 1].others + 1
    ensures client.Own() - h.added == old(client.Own()) - h0.added + if opening.NoChannels? then 1 else 0
    ensures client.others - net.others == old(client.others - net.others)
  {
    var closed;
    opening, closed := client.TopicSubscribe(number, page, net);
    h := NoteOpening(h0, opening);
    contexts := contexts0;
    LooksAnswer(opening, h0.looks, net.script, old(net.next), old(client.numGrpcStreams), client.numStreamChannels);
    if opening.Sent() {
      MirrorsMore(contexts0, h0.agent.cancelled, opening.context);
      contexts := contexts0 + [opening.context];
    }
  }

  /** Waits for the first message of a new stream. */
  method AwaitGreeting(
      client: PubSubClient, number: Uint64, page: Uint64, net: Network, ghost h0: History, ghost contexts: seq<CancelContext>)
    returns (first: Option<First>, ghost h: History)
    requires Asking(h0, contexts, number, page, net) && h0.agent.pc.Greeting?
    modifies client`numGrpcStreams, client`others, net`next, net`others
    ensures Genuine(h) && Mirrors(contexts, h.agent.cancelled) && h.requests == h0.requests && h.messages == []
    ensures net.Valid() && Answered(h.looks, net.script, net.next)
    ensures first == if old(net.next) == |net.script| then None else Some(FirstOf(net.script[old(net.next)].reply))
    ensures first.Some? ==>
      && net.next == old(net.next) + 1
      && client.numGrpcStreams == old(client.numGrpcStreams) + net.script[old(net.next)].others
    ensures first.None? ==> h == h0 && net.next == |net.script|
    ensures first.Some? ==> Step(h0.agent, Greet(first.value)) == Some(h.agent)
    ensures client.Own() - h.added == old(client.Own()) - h0.added
    ensures client.others - net.others == old(client.others - net.others)
  {
    h := h0;
    var turn := net.Poll();
    if turn.None? {
      return None, h;
    }
    client.Interleave(turn.value.others);
    first := Some(FirstOf(turn.value.reply));
    h := Note(h, Greet(first.value));
  }

  /**
   What a Subscribe call leaves behind that has ended; `own` is what its goroutine had added to the counter before. Each
   stream given up on the way is still counted.
   */
  ghost predicate Ends(result: SubscribeResult, client: PubSubClient, own: int, net: Network, h: History)
    reads client, if result.Subscribed? then {result.subscription} else {}
  {
    && (result.SubscribeFailed? ==> h.agent.pc.Abandoned? && client.Own() == own + h.agent.leaked)
    && (result.Subscribed? ==>
      && result.subscription.client == client && result.subscription.net == net && result.subscription.history == h
      && h.agent.pc.Idle? && client.Own() == own + 1 + h.agent.leaked
      && result.subscription.lastKnownSequenceNumber == 0 && result.subscription.lastKnownSequencePage == 0)
  }

  /** Hands over the stream if its first message is a heartbeat, tries again if resources are exhausted, else gives up. */
  method FirstMessage(
      client: PubSubClient, number: Uint64, page: Uint64, net: Network, context: CancelContext,
      ghost h0: History, ghost contexts: seq<CancelContext>)
    returns (result: Option<SubscribeResult>, ghost h: History)
    requires Asking(h0, contexts, number, page, net) && h0.agent.pc.Greeting? && !context.done
    requires h0.agent.current < |contexts| && context == contexts[h0.agent.current]
    modifies client`numGrpcStreams, client`others, net`next, net`others
    ensures Genuine(h) && net.Valid()
    ensures result.None? <==> old(net.next) < |net.script| && net.script[old(net.next)].reply == Breaks(true)
    ensures result.Some? ==>
      EndingOf(result.value) == (
        if old(net.next) == |net.script| then Waits
        else if net.script[old(net.next)].reply == Delivers(Heartbeat) then Succeeds
        else Fails)
    ensures result == Some(SubscribePending) ==> net.next == |net.script|
    ensures result != Some(SubscribePending) ==>
      && net.next == old(net.next) + 1
      && h.agent.leaked == h0.agent.leaked + if result.Some? && result.value.Subscribed? then 0 else 1
    ensures result.None? ==>
      && Asking(h, contexts, number, page, net) && h.agent.pc.Checking?
      && client.Own() - h.added == old(client.Own()) - h0.added
      && client.numGrpcStreams == old(client.numGrpcStreams) + net.script[old(net.next)].others
    ensures result.Some? ==> Ends(result.value, client, old(client.Own()) - h0.added, net, h)
    ensures result.Some? && result.value.Subscribed? ==>
      && result.value.subscription.Valid() && fresh(result.value.subscription)
      && result.value.subscription.cancelContext == context
    ensures client.others - net.others == old(client.others - net.others)
  {
    GenuineFacts(h0);
    var first;
    first, h := AwaitGreeting(client, number, page, net, h0, contexts);
    if first.None? {
      return Some(SubscribePending), h;
    }
    if first.value.FirstExhausted? {
      return None, h;
    }
    GenuineFacts(h);
    if !first.value.FirstHeartbeat? {
      return Some(SubscribeFailed), h;
    }
    var subscription := new TopicSubscription(client, net, context, h, contexts);
    return Some(Subscribed(subscription)), h;
  }

  /** What the rest of the script makes of Subscribe from here. */
  ghost function SubscribeFromHere(client: PubSubClient, net: Network): Ending
    reads client, net
    requires net.Valid()
  {
    SubscribeAt(net.script, net.next, client.numGrpcStreams, client.numStreamChannels)
  }

  /** One round of Subscribe's loop; `None` when it tries again. */
  method SubscribeOnce(
      client: PubSubClient, number: Uint64, page: Uint64, net: Network, ghost h0: History, ghost contexts0: seq<CancelContext>)
    returns (result: Option<SubscribeResult>, ghost h: History, ghost contexts: seq<CancelContext>)
    requires Asking(h0, contexts0, number, page, net) && h0.agent.pc.Checking?
    modifies client, net
    ensures Genuine(h) && net.Valid() && client.numStreamChannels == old(client.numStreamChannels)
    ensures AsksFor(old(net.requests), number, page) ==> AsksFor(net.requests, number, page)
    ensures old(SubscribeFromHere(client, net)) ==
      if result.None? then SubscribeFromHere(client, net) else EndingOf(result.value)
    ensures result == Some(SubscribePending) ==> net.next == |net.script|
    ensures result == Some(SubscribePanicked) ==> client.numStreamChannels == 0
    ensures result.None? || result.value.Subscribed? || result.value.SubscribeFailed? ==>
      && old(net.next) <= net.next <= old(net.next) + 3
      && h.agent.leaked + (if result.Some? && result.value.Subscribed? then 1 else 0)
           == h0.agent.leaked + if net.next == old(net.next) + 3 then 1 else 0
    ensures result.None? || result.value.Subscribed? ==> net.next == old(net.next) + 3
    ensures result.None? ==>
      && Asking(h, contexts, number, page, net) && h.agent.pc.Checking?
      && client.Own() - h.added == old(client.Own()) - h0.added
    ensures result.Some? ==> Ends(result.value, client, old(client.Own()) - h0.added, net, h)
    ensures result.Some? && result.value.Subscribed? ==>
      && result.value.subscription.Valid() && fresh(result.value.subscription)
      && fresh(result.value.subscription.cancelContext) && !result.value.subscription.cancelContext.done
    ensures client.others - net.others == old(client.others - net.others)
  {
    var opening;
    opening, h, contexts := OpenStream(client, number, page, net, h0, contexts0);
    GenuineFacts(h);
    match opening {
      case WaitingToCheck => return Some(SubscribePending), h, contexts;
      case WaitingToOpen(_) => return Some(SubscribePending), h, contexts;
      case NoChannels => return Some(SubscribePanicked), h, contexts;
      case LimitExceeded => return Some(SubscribeFailed), h, contexts;
      case OpenFailed(_) => return Some(SubscribeFailed), h, contexts;
      case Stream(context, _) =>
        result, h := FirstMessage(client, number, page, net, context, h, contexts);
    }
  }

  /**
   Subscribe. It ends as the script says: with a subscription exactly when some stream greets with a heartbeat after every
   one before it was out of resources. Every stream it opens is opened at the caller's resume position, but the
   subscription starts with no known position. A stream whose first message is not a heartbeat is given up without being
   cancelled or uncounted: whether Subscribe succeeds or fails, the counter keeps one for each of those, one for each three
   turns taken. A call that has not ended has used up the script.
   */
  method Subscribe(client: PubSubClient, number: Uint64, page: Uint64, net: Network)
    returns (result: SubscribeResult, ghost h: History)
    requires net.Valid() && net.next == 0 && net.requests == [] && net.contexts == []
    modifies client, net
    ensures Genuine(h) && Ends(result, client, old(client.Own()), net, h)
    ensures EndingOf(result) == SubscribeAt(net.script, 0, old(client.numGrpcStreams), client.numStreamChannels)
    ensures result.Subscribed? <==>
      exists k :: SucceedsInRound(net.script, old(client.numGrpcStreams), client.numStreamChannels, 0, k)
    ensures result.SubscribeFailed? <==>
      exists k :: FailsInRound(net.script, old(client.numGrpcStreams), client.numStreamChannels, 0, k)
    ensures result.SubscribePending? ==> net.next == |net.script|
    ensures result.SubscribePanicked? ==> client.numStreamChannels == 0
    ensures result.Subscribed? || result.SubscribeFailed? ==> client.Own() == old(client.Own()) + net.next / 3
    ensures result.Subscribed? ==>
      && result.subscription.Valid() && fresh(result.subscription)
      && fresh(result.subscription.cancelContext) && !result.subscription.cancelContext.done
    ensures AsksFor(net.requests, number, page)
    ensures client.numStreamChannels == old(client.numStreamChannels)
    ensures client.others - net.others == old(client.others - net.others)
  {
    SubscribeEndsExactly(net.script, client.numGrpcStreams, client.numStreamChannels);
    h := Note(BLANK, StreamMachine.Subscribe(number, page));
    ghost var contexts := [];
    var next: Option<SubscribeResult> := None;
    while next.None?
      invariant Genuine(h) && net.Valid() && client.numStreamChannels == old(client.numStreamChannels)
      invariant old(SubscribeFromHere(client, net)) ==
        if next.None? then SubscribeFromHere(client, net) else EndingOf(next.value)
      invariant next.None? ==>
        && Asking(h, contexts, number, page, net) && h.agent.pc.Checking? && client.Own() == old(client.Own()) + h.added
      invariant next.None? ==> net.next == 3 * h.agent.leaked
      invariant next == Some(SubscribePending) ==> net.next == |net.script|
      invariant next == Some(SubscribePanicked) ==> client.numStreamChannels == 0
      invariant next.Some? && (next.value.Subscribed? || next.value.SubscribeFailed?) ==>
        h.agent.leaked + (if next.value.Subscribed? then 1 else 0) == net.next / 3
      invariant next.Some? ==> Ends(next.value, client, old(client.Own()), net, h)
      invariant next.Some? && next.value.Subscribed? ==>
        && next.value.subscription.Valid() && fresh(next.value.subscription)
        && fresh(next.value.subscription.cancelContext) && !next.value.subscription.cancelContext.done
      invariant AsksFor(net.requests, number, page)
      invariant client.others - net.others == old(client.others - net.others)
      decreases if next.None? then |net.script| - net.next + 1 else 0
    {
      next, h, contexts := SubscribeOnce(client, number, page, net, h, contexts);
    }
    result := next.value;
  }
}
