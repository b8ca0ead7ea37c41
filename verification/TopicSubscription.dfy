/**
 An established subscription: Event, Item, attemptReconnect and Close.

 Each subscription keeps a ghost history of the steps of StreamMachine it has taken, and the cancel contexts made for it.
 Its invariant says that a run of the machine leads to that history and to the fields, that every context is as the machine
 has it, that the network has seen the same requests, and that each step which depends on the outside fits the turn it took.
 */
module TopicSubscription {
  import opened Options
  import opened Values
  import opened StreamMachine
  import opened PubSubClient
  import opened Histories
  import opened Scripts

  /** How Event ends when its select does not let it go on. */
  function ResultOf(select: Select): Result {
    if select.Done? then Failed(select.callerDone) else Pending
  }

  /** The event a call returns, if it does. */
  function EventIn(result: Option<Result>): Option<Event> {
    if result.Some? && result.value.Returned? then Some(result.value.event) else None
  }

  function ValueIn(result: Option<ItemResult>): Option<Value> {
    if result.Some? && result.value.Value? then Some(result.value.value) else None
  }

  class TopicSubscription {
    const client: PubSubClient
    const net: Network
    var lastKnownSequenceNumber: Uint64
    var lastKnownSequencePage: Uint64
    var cancelContext: CancelContext
    ghost var history: History
    ghost var contexts: seq<CancelContext>

    /** A run of the machine leads to `history`; its contexts are the ones made, and `cancelContext` the installed one. */
    ghost predicate Core()
      reads this, contexts
    {
      && Genuine(history) && history.agent.established
      && Mirrors(contexts, history.agent.cancelled)
      && history.agent.current < |contexts| && cancelContext == contexts[history.agent.current]
    }

    /** All but the newest `due` turns have been recorded as looks. */
    ghost predicate Holds(due: nat)
      reads this, net, contexts
    {
      && Core() && net.Valid()
      && lastKnownSequenceNumber == history.agent.number && lastKnownSequencePage == history.agent.page
      && net.requests == history.requests && net.contexts == contexts
      && Answered(history.looks, net.script, net.next - due)
    }

    ghost predicate Valid()
      reads this, net, contexts
    {
      Holds(0)
    }

    /** What this goroutine has added to the counter beyond its history: it never changes. */
    ghost function Baseline(): int
      reads this, client
    {
      client.Own() - history.added
    }

    /** More steps of the machine have been taken, more turns, and others have added what those turns say. */
    twostate predicate Continues()
      reads this, client, net
    {
      && Leads(old(history), history) && old(contexts) <= contexts && old(net.next) <= net.next
      && (cancelContext == old(cancelContext) || fresh(cancelContext))
      && client.numStreamChannels == old(client.numStreamChannels)
      && client.others - net.others == old(client.others - net.others)
      && history.agent.leaked == old(history.agent.leaked)
    }

    /** The events owed to the caller so far. */
    ghost function Heard(): seq<Event>
      reads this
    {
      EventsOf(history.messages)
    }

    /** Only the last message received has been returned, and nothing is owed for any other. */
    twostate predicate Hears(new result: Option<Result>)
      reads this
    {
      ReturnsLast(old(history.messages), history.messages, EventIn(result))
    }

    /** `result`, and the state a call leaves behind with it. */
    ghost function Here(result: Result): Outcome
      reads this, client, net, cancelContext
    {
      Outcome(result, net.next, cancelContext.done, client.numGrpcStreams)
    }

    /** What the rest of the script makes of Event from here, at the top of its loop. */
    ghost function EventFromHere(): Outcome
      reads this, client, net, cancelContext
      requires net.Valid()
    {
      EventAt(net.script, net.next, cancelContext.done, client.numGrpcStreams, client.numStreamChannels)
    }

    ghost function RecoverFromHere(): Outcome
      reads this, client, net, cancelContext
      requires net.Valid()
    {
      RecoverAt(net.script, net.next, cancelContext.done, client.numGrpcStreams, client.numStreamChannels)
    }

    ghost function ReconnectFromHere(): Reconnection
      reads this, client, net
      requires net.Valid()
    {
      Reconnect(net.script, net.next, client.numGrpcStreams, client.numStreamChannels)
    }

    /** Subscribe hands over the stream it has just greeted; its own resume position is not handed over. */
    constructor (
        client: PubSubClient, net: Network, context: CancelContext,
        ghost history: History, ghost contexts: seq<CancelContext>)
      requires Genuine(history) && history.agent.established && history.agent.number == 0 && history.agent.page == 0
      requires Mirrors(contexts, history.agent.cancelled)
      requires history.agent.current < |contexts| && context == contexts[history.agent.current]
      requires net.Valid() && net.requests == history.requests && net.contexts == contexts
      requires Answered(history.looks, net.script, net.next)
      ensures Valid() && this.client == client && this.net == net && this.cancelContext == context
      ensures this.history == history && this.contexts == contexts
    {
      this.client, this.net, cancelContext := client, net, context;
      lastKnownSequenceNumber, lastKnownSequencePage := 0, 0;
      this.history, this.contexts := history, contexts;
    }

    /** Of all contexts made since Subscribe returned, only one is live: the installed one, or the newest one. */
    lemma OneLiveContext(i: nat, j: nat)
      requires Valid()
      requires history.agent.base <= i < |contexts| && history.agent.base <= j < |contexts|
      requires !contexts[i].done && !contexts[j].done
      ensures i == j && contexts[i] == if Fetching(history.agent.pc) then contexts[|contexts| - 1] else cancelContext
    {
      var acts := HistoryOfRun(history);
      AtMostOneLiveStream(acts, i, j);
    }

    /** The resume position is that of the last item received, whatever else was received since, or zero if there was none. */
    lemma ResumesAtLastItem(i: nat)
      requires Valid() && i < |history.messages|
      requires forall j | i < j < |history.messages| :: !history.messages[j].Item?
      ensures history.messages[i].Item? ==>
        lastKnownSequenceNumber == history.messages[i].number && lastKnownSequencePage == history.messages[i].page
      ensures i == 0 && !history.messages[0].Item? ==> lastKnownSequenceNumber == 0 && lastKnownSequencePage == 0
    {
      PositionIsLastItem(history);
      assert i == 0 && !history.messages[0].Item? ==> forall j | 0 <= j < |history.messages| :: !history.messages[j].Item?;
    }

    /** Each step that depends on the outside has taken one turn and is owed to it. */
    lemma LooksAreOwed(i: nat)
      requires Valid() && i < net.next
      ensures |history.looks| == net.next <= |net.script|
      ensures history.looks[i].Opens? ==> net.script[i].reply.Accepts?
      ensures history.looks[i].OpenFails? ==> !net.script[i].reply.Accepts?
      ensures history.looks[i].CallerDone? ==> net.script[i].callerDone
      ensures history.looks[i].StreamDone? ==> !net.script[i].callerDone || !net.script[i].preferCaller
      ensures history.looks[i].Proceed? || history.looks[i].Disconnect? ==> !net.script[i].callerDone
      ensures history.looks[i].Receive? ==> net.script[i].reply == Delivers(history.looks[i].message)
      ensures history.looks[i].ReceiveFails? ==> !net.script[i].reply.Delivers?
      ensures history.looks[i] == Greet(FirstHeartbeat) ==> net.script[i].reply == Delivers(Heartbeat)
      ensures history.looks[i] == Greet(FirstExhausted) ==> net.script[i].reply == Breaks(true)
    {
    }

    ghost method Record(act: Action)
      requires Genuine(history) && Extend(history, act).Some?
      modifies `history
      ensures Some(history) == Extend(old(history), act)
      ensures Genuine(history) && Leads(old(history), history)
    {
      history := Note(history, act);
    }

    /** Close cancels the installed stream; the counter is left to Event. */
    method Close()
      requires Valid()
      modifies cancelContext, `history
      ensures Valid() && Continues() && cancelContext.done
      ensures history == old(history).(agent := CancelCurrent(old(history.agent)))
    {
      cancelContext.done := true;
      Record(StreamMachine.Close);
    }

    /** Another goroutine may have called Close. */
    method Interference(closed: bool)
      requires Core()
      modifies cancelContext, `history
      ensures Core() && Leads(old(history), history) && cancelContext.done == (old(cancelContext.done) || closed)
      ensures history ==
        if closed then old(history).(agent := CancelCurrent(old(history.agent))) else old(history)
    {
      if closed {
        cancelContext.done := true;
        Record(StreamMachine.Close);
      }
    }

    /** Takes the next turn: first other goroutines run, then the code is about to act on what it sees. */
    method Look() returns (turn: Option<Turn>)
      requires Valid()
      modifies client`numGrpcStreams, client`others, cancelContext, net`next, net`others, `history
      ensures turn == if old(net.next) == |net.script| then None else Some(net.script[old(net.next)])
      ensures net.next == old(net.next) + if turn.None? then 0 else 1
      ensures Holds(if turn.None? then 0 else 1) && Continues() && Baseline() == old(Baseline())
      ensures history.agent == if turn.Some? && turn.value.closed then CancelCurrent(old(history.agent)) else old(history.agent)
      ensures cancelContext.done == (old(cancelContext.done) || (turn.Some? && turn.value.closed))
      ensures client.numGrpcStreams == old(client.numGrpcStreams) + if turn.None? then 0 else turn.value.others
      ensures history.messages == old(history.messages)
    {
      turn := net.Poll();
      if turn.Some? {
        client.Interleave(turn.value.others);
        Interference(turn.value.closed);
      }
    }

    /** Event gives up: the counter goes down, and the call returns the error of one of the two contexts. */
    method EndCall(callerDone: bool)
      requires Holds(1) && net.next > 0 && (history.agent.pc.Polling? || history.agent.pc.Deciding?)
      requires Fits(if callerDone then CallerDone else StreamDone, net.script[net.next - 1])
      requires !callerDone ==> cancelContext.done
      modifies client`numGrpcStreams, `history
      ensures Valid() && Continues() && Baseline() == old(Baseline())
      ensures history.agent == old(history.agent).(pc := Idle, errors := old(history.agent.errors) + 1)
      ensures client.numGrpcStreams == old(client.numGrpcStreams) - 1
      ensures history.messages == old(history.messages)
    {
      client.Add(-1);
      Record(if callerDone then CallerDone else StreamDone);
    }

    /**
     The select at the top of Event's loop and after a failed receive. It ends the call if a context is done: the caller's,
     unless the stream's is done too and the select prefers it, or else the stream's.
     */
    method SelectDone() returns (select: Select)
      requires Valid() && (history.agent.pc.Polling? || history.agent.pc.Deciding?)
      modifies client`numGrpcStreams, client`others, cancelContext, net`next, net`others, `history
      ensures Holds(if select.Running? then 1 else 0) && Continues() && Baseline() == old(Baseline())
      ensures select == SelectAt(net.script, old(net.next), old(cancelContext.done))
      ensures select.Running? ==>
        && net.next == old(net.next) + 1 && !cancelContext.done
        && client.numGrpcStreams == old(client.numGrpcStreams) + net.script[old(net.next)].others
      ensures !select.Running? ==>
        Here(ResultOf(select)) == StopAt(net.script, old(net.next), old(cancelContext.done), old(client.numGrpcStreams))
      ensures history.agent.pc == if select.Done? then Idle else old(history.agent.pc)
      ensures history.agent.errors == old(history.agent.errors) + if select.Done? then 1 else 0
      ensures history.messages == old(history.messages)
    {
      var turn := Look();
      if turn.None? {
        return NoTurn;
      }
      if turn.value.callerDone && (turn.value.preferCaller || !cancelContext.done) {
        EndCall(true);
        return Done(true);
      }
      if cancelContext.done {
        EndCall(false);
        return Done(false);
      }
      return Running;
    }

    /** Notes how the request ended, and installs the stream if there is one. */
    method Settle(opening: Opening)
      requires Core() && history.agent.pc.Checking?
      requires opening.Sent() ==> opening.context !in contexts && (opening.context.done <==> opening.OpenFailed?)
      modifies `history, `contexts, `cancelContext
      ensures Core() && Leads(old(history), history)
      ensures cancelContext == if opening.Stream? then opening.context else old(cancelContext)
      ensures contexts == if opening.Sent() then old(contexts) + [opening.context] else old(contexts)
      ensures history == old(history).(
        agent := AgentAfter(old(history.agent), opening),
        added := old(history.added) + if opening.Stream? || opening.WaitingToOpen? then 1 else 0,
        requests := if opening.Sent() then old(history.requests) + [Request(old(history.agent))] else old(history.requests),
        looks := old(history.looks) + LooksFor(opening))
    {
      history := NoteOpening(history, opening);
      if opening.Sent() {
        MirrorsMore(contexts, old(history.agent.cancelled), opening.context);
        contexts := contexts + [opening.context];
      }
      if opening.Stream? {
        cancelContext := opening.context;
      }
    }

    /** Asks for a stream at the last known position. */
    method AskAgain() returns (opening: Opening)
      requires Valid() && history.agent.pc.Checking?
      modifies client, cancelContext, net, `history
      ensures Core() && Continues() && net.Valid()
      ensures history.agent == old(history.agent) && contexts == old(contexts)
      ensures history.added == old(history.added) && history.messages == old(history.messages)
      ensures history.requests == old(history.requests)
      ensures opening.Sent() ==> fresh(opening.context) && (opening.context.done <==> opening.OpenFailed?)
      ensures cancelContext.done
      ensures net.next > old(net.next) || opening.WaitingToCheck?
      ensures Answered(history.looks + LooksFor(opening), net.script, net.next)
      ensures old(ReconnectFromHere()) == if opening.Answer().Rejected? || opening.Answer().Refused?
        then ReconnectFromHere() else Reconnection(opening.Answer(), net.next, client.numGrpcStreams)
      ensures Baseline() ==
        old(Baseline()) + if opening.Stream? || opening.WaitingToOpen? || opening.NoChannels? then 1 else 0
      ensures net.requests == if opening.Sent() then history.requests + [Request(history.agent)] else history.requests
      ensures net.contexts == if opening.Sent() then contexts + [opening.context] else contexts
    {
      GenuineFacts(history);
      var closed;
      opening, closed := client.TopicSubscribe(lastKnownSequenceNumber, lastKnownSequencePage, net);
      Interference(closed);
      assert history.agent.cancelled == old(history.agent.cancelled);
      LooksAnswer(opening, history.looks, net.script, old(net.next), old(client.numGrpcStreams), client.numStreamChannels);
    }

    /** Reconnecting leaves the caller's position and the count of failed calls alone, and receives nothing. */
    twostate predicate OnlyReconnects()
      reads this
    {
      && history.messages == old(history.messages) && history.agent.errors == old(history.agent.errors)
      && history.agent.number == old(history.agent.number) && history.agent.page == old(history.agent.page)
    }

    /** Every request since was for the last known position. */
    twostate predicate AsksForPosition()
      reads this, net
    {
      && old(net.requests) <= net.requests
      && forall i | |old(net.requests)| <= i < |net.requests| ::
           net.requests[i] == (lastKnownSequenceNumber, lastKnownSequencePage)
    }

    /** One round of attemptReconnect: open a stream at the last known position, and install it if that succeeds. */
    method ReconnectOnce() returns (answer: Answer)
      requires Valid() && history.agent.pc.Checking?
      modifies this, client, cancelContext, net
      ensures Valid() && Continues() && OnlyReconnects() && AsksForPosition()
      ensures old(ReconnectFromHere()) == if answer.Rejected? || answer.Refused?
        then ReconnectFromHere() else Reconnection(answer, net.next, client.numGrpcStreams)
      ensures Baseline() == old(Baseline()) + if answer.Crashed? then 1 else 0
      ensures answer.Rejected? || answer.Refused? ==> history.agent.pc.Checking? && net.next > old(net.next)
      ensures if answer.Granted? then history.agent.pc.Polling? && fresh(cancelContext) && !cancelContext.done
              else cancelContext == old(cancelContext) && cancelContext.done
    {
      var opening := AskAgain();
      Settle(opening);
      return opening.Answer();
    }

    /**
     Opens streams at the last known position until one open succeeds, and installs that stream: it comes back without
     one only while it waits, or from a client without channels.
     */
    method AttemptReconnect() returns (answer: Answer)
      requires Valid() && history.agent.pc.Checking?
      modifies this, client, cancelContext, net
      ensures Valid() && Continues() && OnlyReconnects() && AsksForPosition()
      ensures Reconnection(answer, net.next, client.numGrpcStreams) == old(ReconnectFromHere())
      ensures answer.Granted? || answer.Waiting? || answer.Crashed?
      ensures if answer.Granted? then history.agent.pc.Polling? && fresh(cancelContext) && !cancelContext.done
              else cancelContext == old(cancelContext) && cancelContext.done
      ensures answer.Waiting? ==> net.next == |net.script|
      ensures answer.Crashed? ==> client.numStreamChannels == 0
      ensures Baseline() == old(Baseline()) + if answer.Crashed? then 1 else 0
    {
      ReconnectReasons(net.script, net.next, client.numGrpcStreams, client.numStreamChannels);
      answer := ReconnectOnce();
      while answer.Rejected? || answer.Refused?
        invariant Valid() && Continues() && OnlyReconnects() && AsksForPosition()
        invariant old(ReconnectFromHere()) == if answer.Rejected? || answer.Refused?
          then ReconnectFromHere() else Reconnection(answer, net.next, client.numGrpcStreams)
        invariant answer.Rejected? || answer.Refused? ==> history.agent.pc.Checking?
        invariant if answer.Granted? then history.agent.pc.Polling? && fresh(cancelContext) && !cancelContext.done
                  else cancelContext == old(cancelContext) && cancelContext.done
        invariant Baseline() == old(Baseline()) + if answer.Crashed? then 1 else 0
        decreases |net.script| - net.next + if answer.Rejected? || answer.Refused? then 1 else 0
      {
        answer := ReconnectOnce();
      }
    }

    /** What Event does with a message: an item moves the last known position, and a known message is returned. */
    method Deliver(message: Message) returns (event: Option<Event>)
      requires Holds(1) && history.agent.pc.Receiving? && net.next > 0 && net.script[net.next - 1].reply == Delivers(message)
      modifies `lastKnownSequenceNumber, `lastKnownSequencePage, `history
      ensures Valid() && Leads(old(history), history)
      ensures (history.agent.number, history.agent.page) ==
        if message.Item? then (message.number, message.page) else (old(history.agent.number), old(history.agent.page))
      ensures history.agent.errors == old(history.agent.errors) && history.agent.leaked == old(history.agent.leaked)
      ensures message.Item? && message.payload.Text? ==>
        event == Some(TopicItem(String(message.payload.text), message.publisher, message.number, message.page))
      ensures message.Item? && message.payload.Binary? ==>
        event == Some(TopicItem(Bytes(message.payload.data), message.publisher, message.number, message.page))
      ensures message.Discontinuity? ==>
        event == Some(TopicDiscontinuity(message.last, message.newNumber, message.newPage))
      ensures message.Heartbeat? ==> event == Some(TopicHeartbeat)
      ensures event.None? <==> message.Unknown? || (message.Item? && message.payload.Unset?)
      ensures event == EventOf(message) && history.agent.pc == if event.Some? then Idle else Polling
      ensures history.messages == old(history.messages) + [message] && history.added == old(history.added)
    {
      Record(Receive(message));
      match message {
        case Discontinuity(last, newNumber, newPage) =>
          return Some(TopicDiscontinuity(last, newNumber, newPage));
        case Item(number, page, publisher, payload) =>
          lastKnownSequenceNumber, lastKnownSequencePage := number, page;
          match payload {
            case Text(text) => return Some(TopicItem(String(text), publisher, number, page));
            case Binary(data) => return Some(TopicItem(Bytes(data), publisher, number, page));
            case Unset => return None;
          }
        case Heartbeat =>
          return Some(TopicHeartbeat);
        case Unknown =>
          return None;
      }
    }

    /** The stream broke: cancel it and stop counting it. */
    method Drop()
      requires Holds(1) && history.agent.pc.Deciding? && !cancelContext.done
      requires net.next > 0 && !net.script[net.next - 1].callerDone
      modifies client`numGrpcStreams, cancelContext, `history
      ensures Valid() && Continues() && history.messages == old(history.messages) && Baseline() == old(Baseline())
      ensures history.agent == CancelCurrent(old(history.agent)).(pc := Checking) && cancelContext.done
      ensures client.numGrpcStreams == old(client.numGrpcStreams) - 1
    {
      cancelContext.done := true;
      Record(Disconnect);
      client.Add(-1);
      Record(Release);
    }

    /** A message is delivered; anything else is a failed receive. */
    method HandleReply(reply: Reply) returns (event: Option<Event>)
      requires Holds(1) && history.agent.pc.Receiving? && net.next > 0 && net.script[net.next - 1].reply == reply
      modifies `lastKnownSequenceNumber, `lastKnownSequencePage, `history
      ensures Valid() && Leads(old(history), history) && history.added == old(history.added)
      ensures event == if reply.Delivers? then EventOf(reply.message) else None
      ensures history.agent.pc == if !reply.Delivers? then Deciding else if event.None? then Polling else Idle
      ensures history.agent.errors == old(history.agent.errors) && history.agent.leaked == old(history.agent.leaked)
      ensures Hears(if event.Some? then Some(Returned(event.value)) else None)
    {
      if !reply.Delivers? {
        Record(ReceiveFails);
        return None;
      }
      event := Deliver(reply.message);
    }

    /** Waits for the next message. */
    method AwaitMessage() returns (result: Option<Result>, broken: bool)
      requires Valid() && history.agent.pc.Receiving? && !cancelContext.done
      modifies client`numGrpcStreams, client`others, cancelContext, net`next, net`others
      modifies `lastKnownSequenceNumber, `lastKnownSequencePage, `history
      ensures Valid() && Continues() && Baseline() == old(Baseline()) && history.agent.errors == old(history.agent.errors)
      ensures AwaitAt(net.script, old(net.next), old(client.numGrpcStreams), client.numStreamChannels) ==
        if broken then RecoverFromHere() else if result.None? then EventFromHere() else Here(result.value)
      ensures result.Some? ==> !broken && (result.value.Returned? || result.value.Pending?)
      ensures result != Some(Pending) ==>
        history.agent.pc == if broken then Deciding else if result.None? then Polling else Idle
      ensures Hears(result)
    {
      var turn := Look();
      if turn.None? {
        return Some(Pending), false;
      }
      var event := HandleReply(turn.value.reply);
      return if event.Some? then Some(Returned(event.value)) else None, !turn.value.reply.Delivers?;
    }

    /** A round of Event's loop accounts for itself: the phase it ends in, the errors returned, and the counter. */
    twostate predicate Settled(new result: Option<Result>)
      reads this, client
    {
      && (result.None? ==> history.agent.pc.Polling?)
      && (result.Some? && (result.value.Returned? || result.value.Failed?) ==> history.agent.pc.Idle?)
      && history.agent.errors == old(history.agent.errors) + (if result.Some? && result.value.Failed? then 1 else 0)
      && Baseline() == old(Baseline()) + if result == Some(Panicked) then 1 else 0
    }

    /** The stream broke while neither context is done: get rid of it and reconnect. */
    method DropAndReconnect() returns (result: Option<Result>)
      requires Holds(1) && history.agent.pc.Deciding? && !cancelContext.done
      requires net.next > 0 && !net.script[net.next - 1].callerDone
      modifies this, client, cancelContext, net
      ensures Valid() && Continues() && Settled(result) && history.messages == old(history.messages)
      ensures var r := old(Reconnect(net.script, net.next, client.numGrpcStreams - 1, client.numStreamChannels));
        match r.answer
        case Granted =>
          && result.None? && r == Reconnection(Granted, net.next, client.numGrpcStreams) && !cancelContext.done
        case Crashed => result == Some(Panicked) && Here(Panicked) == Outcome(Panicked, r.at, true, r.counter)
        case _ => result == Some(Pending) && Here(Pending) == Outcome(Pending, r.at, true, r.counter)
    {
      Drop();
      var answer := AttemptReconnect();
      match answer {
        case Granted => return None;
        case Crashed => return Some(Panicked);
        case _ => return Some(Pending);
      }
    }

    /** After a failed receive: the call ends if a context is done, otherwise it reconnects and goes on. */
    method Recover() returns (result: Option<Result>)
      requires Valid() && history.agent.pc.Deciding?
      modifies this, client, cancelContext, net
      ensures Valid() && Continues() && Settled(result) && history.messages == old(history.messages)
      ensures old(RecoverFromHere()) == if result.None? then EventFromHere() else Here(result.value)
      ensures result.Some? ==> !result.value.Returned?
    {
      var select := SelectDone();
      if !select.Running? {
        return Some(ResultOf(select));
      }
      result := DropAndReconnect();
    }

    /** Neither context is done: wait for a message, and recover if the stream breaks. */
    method ReceiveOnce() returns (result: Option<Result>)
      requires Holds(1) && history.agent.pc.Polling? && !cancelContext.done
      requires net.next > 0 && !net.script[net.next - 1].callerDone
      modifies this, client, cancelContext, net
      ensures Valid() && Continues() && Settled(result)
      ensures AwaitAt(net.script, old(net.next), old(client.numGrpcStreams), client.numStreamChannels) ==
        if result.None? then EventFromHere() else Here(result.value)
      ensures Hears(result)
    {
      Record(Proceed);
      var broken;
      result, broken := AwaitMessage();
      if broken {
        result := Recover();
      }
    }

    /** One round of Event's loop; `None` when the loop goes on. */
    method EventOnce() returns (result: Option<Result>)
      requires Valid() && history.agent.pc.Polling?
      modifies this, client, cancelContext, net
      ensures Valid() && Continues() && Settled(result)
      ensures old(EventFromHere()) == if result.None? then EventFromHere() else Here(result.value)
      ensures result.None? ==> net.next > old(net.next)
      ensures Hears(result)
    {
      var select := SelectDone();
      if !select.Running? {
        return Some(ResultOf(select));
      }
      result := ReceiveOnce();
    }

    /** Event's loop. */
    method Rounds() returns (result: Result)
      requires Valid() && history.agent.pc.Polling?
      modifies this, client, cancelContext, net
      ensures Valid() && Continues() && Settled(Some(result))
      ensures Here(result) == old(EventFromHere())
      ensures Hears(Some(result))
    {
      var next: Option<Result> := None;
      while next.None?
        invariant Valid() && Continues() && Settled(next)
        invariant old(EventFromHere()) == if next.None? then EventFromHere() else Here(next.value)
        invariant Hears(next)
        decreases |net.script| - net.next + if next.None? then 1 else 0
      {
        ghost var before := history.messages;
        next := EventOnce();
        ReturnsLater(old(history.messages), before, history.messages, EventIn(next));
      }
      result := next.value;
    }

    /**
     Event. It returns the next message the client knows, in order and skipping nothing it knows, and then this goroutine
     has left the stream counter as it was; or it returns an error, and then the counter is one lower. It fails only when
     the caller's context is done at the last look, or the stream's is, which takes a Close before or during the call:
     whatever the network does, it reconnects and goes on, and reconnects on the way leave nothing in the counter.
     */
    method Event() returns (result: Result)
      requires Valid() && history.agent.pc.Idle?
      modifies this, client, cancelContext, net
      ensures Valid() && Continues() && Settled(Some(result))
      ensures Here(result) == old(EventFromHere())
      ensures HasReason(net.script, old(net.next), old(cancelContext.done), client.numStreamChannels, Here(result))
      ensures old(net.next < |net.script| && (net.script[net.next].callerDone || cancelContext.done)) ==> result.Failed?
      ensures result.Returned? ==> client.Own() == old(client.Own())
      ensures result.Failed? ==> client.Own() == old(client.Own()) - 1
      ensures Heard() == if result.Returned? then old(Heard()) + [result.event] else old(Heard())
      ensures Hears(Some(result))
    {
      EventReasons(net.script, net.next, cancelContext.done, client.numGrpcStreams, client.numStreamChannels);
      GenuineFacts(history);
      Record(Call);
      ghost var before := history.messages;
      result := Rounds();
      ReturnedInOrder(before, history.messages, EventIn(Some(result)));
      GenuineFacts(history);
    }

    /** What the rest of the script makes of Item from here. */
    ghost function ItemFromHere(): ItemResult
      reads this, client, net, cancelContext
      requires net.Valid()
    {
      ItemAt(net.script, net.next, cancelContext.done, client.numGrpcStreams, client.numStreamChannels)
    }

    /** The reasons for the end of an Item call, and what it has done to the counter. */
    twostate predicate ItemSettled(new result: Option<ItemResult>)
      reads this, client, net, cancelContext
      requires net.Valid()
    {
      && (cancelContext.done && (result.None? || result.value == ItemFailed(false)) ==>
           old(cancelContext.done) || ClosedBetween(net.script, old(net.next), net.next))
      && match result {
           case None =>
             history.agent.pc.Idle? && client.Own() == old(client.Own()) && history.agent.errors == old(history.agent.errors)
           case Some(Value(_)) =>
             history.agent.pc.Idle? && client.Own() == old(client.Own()) && history.agent.errors == old(history.agent.errors)
           case Some(ItemFailed(callerDone)) =>
             && history.agent.pc.Idle?
             && client.Own() == old(client.Own()) - 1 && history.agent.errors == old(history.agent.errors) + 1
             && net.next > old(net.next)
             && if callerDone then net.script[net.next - 1].callerDone else cancelContext.done
           case Some(ItemPending) => net.next == |net.script|
           case Some(ItemPanicked) => client.numStreamChannels == 0
         }
    }

    /** The value handed out is that of the last message received, whose position is now the last known one. */
    twostate predicate HearsItem(new result: Option<ItemResult>)
      reads this
    {
      && HandsOutLast(old(history.messages), history.messages, ValueIn(result))
      && (ValueIn(result).Some? ==>
           var m := history.messages[|history.messages| - 1];
           lastKnownSequenceNumber == m.number && lastKnownSequencePage == m.page)
    }

    /** One round of Item's loop: an item's value is handed out, any other event passed over. */
    method ItemOnce() returns (result: Option<ItemResult>)
      requires Valid() && history.agent.pc.Idle?
      modifies this, client, cancelContext, net
      ensures Valid() && Continues()
      ensures old(ItemFromHere()) == if result.None? then ItemFromHere() else result.value
      ensures ItemSettled(result) && HearsItem(result)
      ensures result.None? ==> net.next > old(net.next)
    {
      ghost var messages := history.messages;
      var end := Event();
      HandsOutReturned(messages, history, EventIn(Some(end)));
      match end {
        case Failed(callerDone) => result := Some(ItemFailed(callerDone));
        case Pending => result := Some(ItemPending);
        case Panicked => result := Some(ItemPanicked);
        case Returned(event) =>
          result := if event.TopicItem? then Some(Value(event.value)) else None;
      }
      assert ValueIn(result) == ValueOf(EventIn(Some(end)));
    }

    /**
     Item. Over any number of calls it hands out exactly the values of the items delivered, in order: what Event returns
     without heartbeats and discontinuities. It fails for the same reasons as Event.
     */
    method Item() returns (result: ItemResult)
      requires Valid() && history.agent.pc.Idle?
      modifies this, client, cancelContext, net
      ensures Valid() && Continues() && result == old(ItemFromHere())
      ensures ItemSettled(Some(result)) && HearsItem(Some(result))
      ensures ValuesOf(Heard()) == if result.Value? then ValuesOf(old(Heard())) + [result.value] else ValuesOf(old(Heard()))
    {
      var next: Option<ItemResult> := None;
      while next.None?
        invariant Valid() && Continues()
        invariant old(ItemFromHere()) == if next.None? then ItemFromHere() else next.value
        invariant ItemSettled(next) && HearsItem(next)
        decreases |net.script| - net.next + if next.None? then 1 else 0
      {
        ghost var before := history.messages;
        next := ItemOnce();
        HandsOutLater(old(history.messages), before, history.messages, ValueIn(next));
      }
      HandedOutInOrder(old(history.messages), history.messages, ValueIn(next));
      result := next.value;
    }
  }
}
