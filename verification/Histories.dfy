/** The history of a subscription: what the steps it has taken amount to, and one look at the outside for each turn taken. */
module Histories {
  import opened Options
  import opened Values
  import opened StreamMachine
  import opened PubSubClient

  // ---------- Looks ----------

  /** Steps decided by a look at the outside; all others follow from where the code stands. */
  predicate IsLook(act: Action) {
    match act
    case Reject | Admit => true
    case Opens | OpenFails => true
    case Greet(_) => true
    case CallerDone | StreamDone | Proceed | Disconnect => true
    case Receive(_) | ReceiveFails => true
    case _ => false
  }

  /** How the wait for the first message ends. Only a resource-exhausted error makes Subscribe try again. */
  function FirstOf(reply: Reply): First {
    match reply
    case Delivers(Heartbeat) => FirstHeartbeat
    case Delivers(_) => FirstOther
    case Breaks(true) => FirstExhausted
    case _ => FirstError
  }

  /**
   What a look is owed to: the turn taken by it. An error of a context needs that context to be done, a failed receive a
   broken stream, a reconnect both contexts running. Whether the limit check passes depends on the counter, not the turn.
   */
  predicate Fits(act: Action, turn: Turn) {
    match act
    case Opens => turn.reply.Accepts?
    case OpenFails => !turn.reply.Accepts?
    case Greet(first) => first == FirstOf(turn.reply)
    case CallerDone => turn.callerDone
    case StreamDone => !(turn.callerDone && turn.preferCaller)
    case Proceed | Disconnect => !turn.callerDone
    case Receive(message) => turn.reply == Delivers(message)
    case ReceiveFails => !turn.reply.Delivers?
    case _ => true
  }

  /** Each of the first `n` turns has been taken by one look, which it fits. */
  ghost predicate Answered(looks: seq<Action>, script: seq<Turn>, n: int) {
    |looks| == n <= |script| && forall i | 0 <= i < n :: Fits(looks[i], script[i])
  }

  /** The looks of one call of topicSubscribe. */
  function LooksFor(opening: Opening): seq<Action> {
    match opening
    case WaitingToCheck => []
    case LimitExceeded => [Reject]
    case OpenFailed(_) => [Admit, OpenFails]
    case Stream(_, _) => [Admit, Opens]
    case _ => [Admit]
  }

  lemma LooksAnswer(opening: Opening, looks: seq<Action>, script: seq<Turn>, at: nat, counter: int, channels: nat)
    requires at <= |script| && opening.Answer() == AnswerAt(script, at, counter, channels)
    requires opening.WaitingToCheck? <==> at == |script|
    requires Answered(looks, script, at)
    ensures Answered(looks + LooksFor(opening), script, at + |LooksFor(opening)|)
  {
  }

  // ---------- Histories ----------

  /**
   Where a subscription has got to: the machine's state, what the goroutine has added to the stream counter, the positions
   asked for, the messages received, and the looks, all in order.
   */
  datatype History = History(
    agent: Agent, added: int, requests: seq<(Uint64, Uint64)>, messages: seq<Message>, looks: seq<Action>)

  const BLANK := History(NEW_AGENT, 0, [], [], [])

  function Extend(h: History, act: Action): Option<History> {
    var b := Step(h.agent, act);
    if b.None? then None
    else Some(History(
      b.value, h.added + Delta(act),
      if act.Begin? then h.requests + [(act.number, act.page)] else h.requests,
      if act.Receive? then h.messages + [act.message] else h.messages,
      if IsLook(act) then h.looks + [act] else h.looks))
  }

  /** No step leads out of `s`. */
  ghost predicate Closed(s: iset<History>) {
    forall h, act :: h in s && Extend(h, act).Some? ==> Extend(h, act).value in s
  }

  /** Some steps of the machine lead from `h` to `k`: no set that steps do not leave has `h` without `k`. */
  ghost predicate Leads(h: History, k: History) {
    forall s: iset<History> :: Closed(s) && h in s ==> k in s
  }

  /** The positions asked for by a run, in order. */
  function Requests(acts: seq<Action>): seq<(Uint64, Uint64)> {
    if acts == [] then []
    else
      var last := acts[|acts| - 1];
      if last.Begin? then Requests(acts[..|acts| - 1]) + [(last.number, last.page)] else Requests(acts[..|acts| - 1])
  }

  /** The messages received in a run, in order. */
  function Messages(acts: seq<Action>): seq<Message> {
    if acts == [] then []
    else
      var last := acts[|acts| - 1];
      if last.Receive? then Messages(acts[..|acts| - 1]) + [last.message] else Messages(acts[..|acts| - 1])
  }

  /** `h` is the history of a run. */
  ghost predicate Genuine(h: History) {
    Leads(BLANK, h)
  }

  /** `acts` is a run of the machine, and `h` its history. */
  ghost predicate Reaches(acts: seq<Action>, h: History) {
    && Exec(NEW_AGENT, acts) == Some(h.agent) && h.added == Total(acts)
    && h.requests == Requests(acts) && h.messages == Messages(acts)
  }

  ghost predicate HasRun(h: History) {
    exists acts :: Reaches(acts, h)
  }

  lemma {:induction false} OneMoreStep(acts: seq<Action>, act: Action)
    ensures Total(acts + [act]) == Total(acts) + Delta(act)
    ensures Requests(acts + [act]) ==
      if act.Begin? then Requests(acts) + [(act.number, act.page)] else Requests(acts)
    ensures Messages(acts + [act]) == if act.Receive? then Messages(acts) + [act.message] else Messages(acts)
  {
    assert (acts + [act])[..|acts|] == acts;
  }

  lemma {:induction false} ReachesMore(acts: seq<Action>, h: History, act: Action)
    requires Reaches(acts, h) && Extend(h, act).Some?
    ensures Reaches(acts + [act], Extend(h, act).value)
  {
    OneMoreStep(acts, act);
    ExecSnoc(NEW_AGENT, acts, act);
  }

  /** A history is that of a run of the machine, so what holds of all runs holds of it. */
  lemma HistoryOfRun(h: History) returns (acts: seq<Action>)
    requires Genuine(h)
    ensures Reaches(acts, h)
  {
    var s := iset k | HasRun(k);
    assert Reaches([], BLANK);
    forall k, act | k in s && Extend(k, act).Some? ensures Extend(k, act).value in s {
      var acts :| Reaches(acts, k);
      ReachesMore(acts, k, act);
    }
    assert h in s;
    acts :| Reaches(acts, h);
  }

  lemma GenuineFacts(h: History)
    requires Genuine(h)
    ensures WellFormed(h.agent) && h.added == Share(h.agent)
  {
    var acts := HistoryOfRun(h);
    Ledger(NEW_AGENT, acts);
    RunWellFormed(NEW_AGENT, acts);
  }

  lemma Note(h: History, act: Action) returns (k: History)
    requires Genuine(h) && Extend(h, act).Some?
    ensures Some(k) == Extend(h, act)
    ensures Genuine(k) && Leads(h, k)
  {
    k := Extend(h, act).value;
  }

  /** The steps of topicSubscribe up to sending the open request. */
  lemma NoteRequest(h: History) returns (k: History)
    requires Genuine(h) && h.agent.pc.Checking?
    ensures Genuine(k) && Leads(h, k)
    ensures k == h.(
      agent := h.agent.(pc := StreamMachine.Opening, cancelled := h.agent.cancelled + [false]),
      added := h.added + 1, requests := h.requests + [Request(h.agent)], looks := h.looks + [Admit])
  {
    k := Note(h, Admit);
    k := Note(k, Begin(Request(h.agent).0, Request(h.agent).1));
  }

  /** The request is refused: uncount the stream, cancel its context. */
  lemma NoteRefusal(h: History) returns (k: History)
    requires Genuine(h) && h.agent.pc.Checking?
    ensures Genuine(k) && Leads(h, k)
    ensures k == h.(
      agent := h.agent.(pc := if h.agent.established then Checking else Abandoned, cancelled := h.agent.cancelled + [true]),
      requests := h.requests + [Request(h.agent)], looks := h.looks + [Admit, OpenFails])
  {
    k := NoteRequest(h);
    k := Note(k, OpenFails);
    k := Note(k, Unwind);
    assert (h.agent.cancelled + [false])[|h.agent.cancelled| := true] == h.agent.cancelled + [true];
    assert h.looks + [Admit] + [OpenFails] == h.looks + [Admit, OpenFails];
  }

  /** The stream is open and installed. */
  lemma NoteStream(h: History) returns (k: History)
    requires Genuine(h) && h.agent.pc.Checking?
    ensures Genuine(k) && Leads(h, k)
    ensures k == h.(
      agent := h.agent.(pc := if h.agent.established then Polling else Greeting,
                        cancelled := h.agent.cancelled + [false], current := |h.agent.cancelled|),
      added := h.added + 1, requests := h.requests + [Request(h.agent)], looks := h.looks + [Admit, Opens])
  {
    k := NoteRequest(h);
    k := Note(k, Opens);
    k := Note(k, Install);
    assert h.looks + [Admit] + [Opens] == h.looks + [Admit, Opens];
  }

  /** Where a call of topicSubscribe leaves the machine. */
  function AgentAfter(a: Agent, opening: Opening): Agent {
    match opening
    case WaitingToCheck => a
    case LimitExceeded => if a.established then a else a.(pc := Abandoned)
    case NoChannels => a.(pc := Admitted)
    case WaitingToOpen(_) => a.(pc := StreamMachine.Opening, cancelled := a.cancelled + [false])
    case OpenFailed(_) => a.(pc := if a.established then Checking else Abandoned, cancelled := a.cancelled + [true])
    case Stream(_, _) =>
      a.(pc := if a.established then Polling else Greeting, cancelled := a.cancelled + [false], current := |a.cancelled|)
  }

  /** One call of topicSubscribe, as steps of the machine. */
  lemma NoteOpening(h: History, opening: Opening) returns (k: History)
    requires Genuine(h) && h.agent.pc.Checking?
    ensures Genuine(k) && Leads(h, k)
    ensures k == h.(
      agent := AgentAfter(h.agent, opening),
      added := h.added + if opening.Stream? || opening.WaitingToOpen? then 1 else 0,
      requests := if opening.Sent() then h.requests + [Request(h.agent)] else h.requests,
      looks := h.looks + LooksFor(opening))
  {
    match opening {
      case WaitingToCheck =>
        k := h;
          case LimitExceeded => k := Note(h, Reject);
      case NoChannels => k := Note(h, Admit);
      case WaitingToOpen(_) => k := NoteRequest(h);
      case OpenFailed(_) => k := NoteRefusal(h);
      case Stream(_, _) => k := NoteStream(h);
    }
  }

  // ---------- Contexts ----------

  /** The cancel contexts created for a subscription, in order, are as the machine's flags say. */
  ghost predicate Mirrors(contexts: seq<CancelContext>, flags: seq<bool>)
    reads contexts
  {
    && |contexts| == |flags|
    && (forall i | 0 <= i < |flags| :: contexts[i].done == flags[i])
    && (forall i, j | 0 <= i < j < |contexts| :: contexts[i] != contexts[j])
  }

  lemma MirrorsMore(contexts: seq<CancelContext>, flags: seq<bool>, context: CancelContext)
    requires Mirrors(contexts, flags) && context !in contexts
    ensures Mirrors(contexts + [context], flags + [context.done])
  {
  }

  // ---------- What the callers of Event and Item are owed ----------

  /** The event says exactly what the message does. */
  predicate Relays(event: Event, m: Message) {
    match event
    case TopicItem(String(text), publisher, number, page) => m == Item(number, page, publisher, Text(text))
    case TopicItem(Bytes(data), publisher, number, page) => m == Item(number, page, publisher, Binary(data))
    case TopicDiscontinuity(last, newNumber, newPage) => m == Discontinuity(last, newNumber, newPage)
    case TopicHeartbeat => m == Heartbeat
  }

  /** A message Event has nothing to return for: of an unknown kind, or an item whose payload is of none. */
  predicate Silent(m: Message) {
    m.Unknown? || (m.Item? && m.payload.Unset?)
  }

  /** The position is that of the last item received, or zero if there was none. */
  ghost predicate IsLastPosition(messages: seq<Message>, number: Uint64, page: Uint64) {
    && (forall i | 0 <= i < |messages| && messages[i].Item? && (forall j | i < j < |messages| :: !messages[j].Item?) ::
         number == messages[i].number && page == messages[i].page)
    && ((forall i | 0 <= i < |messages| :: !messages[i].Item?) ==> number == 0 && page == 0)
  }

  lemma OneMorePosition(messages: seq<Message>, number: Uint64, page: Uint64, m: Message)
    requires IsLastPosition(messages, number, page)
    ensures m.Item? ==> IsLastPosition(messages + [m], m.number, m.page)
    ensures !m.Item? ==> IsLastPosition(messages + [m], number, page)
  {
    var n, more := |messages|, messages + [m];
    assert more[n] == m;
    assert forall i | 0 <= i < n :: more[i] == messages[i];
    if !m.Item? {
      forall i | 0 <= i < |more| && more[i].Item? && (forall j | i < j < |more| :: !more[j].Item?)
        ensures number == more[i].number && page == more[i].page
      {
        forall j | i < j < n ensures !messages[j].Item? { assert !more[j].Item?; }
      }
    }
  }

  ghost predicate KnowsLastItem(h: History) {
    IsLastPosition(h.messages, h.agent.number, h.agent.page)
  }

  /** Only an item moves the last known position. */
  lemma PositionStep(h: History, act: Action)
    requires Extend(h, act).Some?
    ensures var k := Extend(h, act).value;
      && k.messages == (if act.Receive? then h.messages + [act.message] else h.messages)
      && (k.agent.number, k.agent.page) ==
           if act.Receive? && act.message.Item? then (act.message.number, act.message.page) else (h.agent.number, h.agent.page)
  {
  }

  lemma KnowsMore(h: History, act: Action)
    requires KnowsLastItem(h) && Extend(h, act).Some?
    ensures KnowsLastItem(Extend(h, act).value)
  {
    PositionStep(h, act);
    if act.Receive? {
      OneMorePosition(h.messages, h.agent.number, h.agent.page, act.message);
    }
  }

  lemma PositionIsLastItem(h: History)
    requires Genuine(h)
    ensures KnowsLastItem(h)
  {
    var s := iset k | KnowsLastItem(k);
    forall k, act | k in s && Extend(k, act).Some? ensures Extend(k, act).value in s {
      KnowsMore(k, act);
    }
    assert h in s;
  }

  /** Of the messages received since, the last one, and no other, has been returned: as `event`, if there is one. */
  ghost predicate ReturnsLast(before: seq<Message>, after: seq<Message>, event: Option<Event>) {
    && before <= after
    && match event {
         case None => forall i | |before| <= i < |after| :: Silent(after[i])
         case Some(e) =>
           && |before| < |after| && Relays(e, after[|after| - 1])
           && forall i | |before| <= i < |after| - 1 :: Silent(after[i])
       }
  }

  /** The payload of the last message received since, an item, is `value`, if there is one; no other has a payload. */
  ghost predicate HandsOutLast(before: seq<Message>, after: seq<Message>, value: Option<Value>) {
    && before <= after
    && match value {
         case None => forall i | |before| <= i < |after| :: after[i].Item? ==> after[i].payload.Unset?
         case Some(v) =>
           && |before| < |after| && after[|after| - 1].Item?
           && after[|after| - 1].payload == (match v { case String(text) => Text(text) case Bytes(data) => Binary(data) })
           && forall i | |before| <= i < |after| - 1 :: after[i].Item? ==> after[i].payload.Unset?
       }
  }

  /** The value an event has for Item. */
  function ValueOf(event: Option<Event>): Option<Value> {
    if event.Some? && event.value.TopicItem? then Some(event.value.value) else None
  }

  /** What Item makes of what Event returns. */
  lemma HandsOutReturned(before: seq<Message>, h: History, event: Option<Event>)
    requires Genuine(h) && ReturnsLast(before, h.messages, event)
    ensures HandsOutLast(before, h.messages, ValueOf(event))
    ensures ValueOf(event).Some? ==>
      && h.messages[|h.messages| - 1].Item?
      && h.agent.number == h.messages[|h.messages| - 1].number && h.agent.page == h.messages[|h.messages| - 1].page
  {
    PositionIsLastItem(h);
  }

  lemma ReturnsLater(a: seq<Message>, b: seq<Message>, c: seq<Message>, event: Option<Event>)
    requires ReturnsLast(a, b, None) && ReturnsLast(b, c, event)
    ensures ReturnsLast(a, c, event)
  {
    forall i | |a| <= i < |b| ensures Silent(c[i]) { assert c[i] == b[i]; }
  }

  lemma HandsOutLater(a: seq<Message>, b: seq<Message>, c: seq<Message>, value: Option<Value>)
    requires HandsOutLast(a, b, None) && HandsOutLast(b, c, value)
    ensures HandsOutLast(a, c, value)
  {
    forall i | |a| <= i < |b| ensures c[i] == b[i] {}
  }

  /** The events Event owes its caller for a list of messages: every known one, in order, once. */
  function EventsOf(messages: seq<Message>): seq<Event> {
    if messages == [] then []
    else
      var event := EventOf(messages[|messages| - 1]);
      EventsOf(messages[..|messages| - 1]) + if event.Some? then [event.value] else []
  }

  lemma EventsAppend(messages: seq<Message>, m: Message)
    ensures EventsOf(messages + [m]) ==
      if EventOf(m).Some? then EventsOf(messages) + [EventOf(m).value] else EventsOf(messages)
  {
    assert (messages + [m])[..|messages|] == messages;
  }

  /** The values Item owes its caller: those of the items, without heartbeats and discontinuities. */
  function ValuesOf(events: seq<Event>): seq<Value> {
    if events == [] then []
    else
      var last := events[|events| - 1];
      ValuesOf(events[..|events| - 1]) + if last.TopicItem? then [last.value] else []
  }

  lemma ValuesAppend(events: seq<Event>, e: Event)
    ensures ValuesOf(events + [e]) == if e.TopicItem? then ValuesOf(events) + [e.value] else ValuesOf(events)
  {
    assert (events + [e])[..|events|] == events;
  }

  /** So the events returned are, over any number of calls, those owed for the messages received. */
  lemma {:induction false} ReturnedInOrder(before: seq<Message>, after: seq<Message>, event: Option<Event>)
    requires ReturnsLast(before, after, event)
    ensures EventsOf(after) == if event.Some? then EventsOf(before) + [event.value] else EventsOf(before)
    decreases |after|
  {
    if |after| == |before| {
      assert after == before;
    } else {
      var init, last := after[..|after| - 1], after[|after| - 1];
      assert after == init + [last];
      EventsAppend(init, last);
      ReturnedInOrder(before, init, None);
    }
  }

  lemma OneMoreValue(messages: seq<Message>, m: Message)
    ensures ValuesOf(EventsOf(messages + [m])) ==
      if ValueOf(EventOf(m)).Some? then ValuesOf(EventsOf(messages)) + [ValueOf(EventOf(m)).value]
      else ValuesOf(EventsOf(messages))
  {
    EventsAppend(messages, m);
    if EventOf(m).Some? {
      ValuesAppend(EventsOf(messages), EventOf(m).value);
    }
  }

  /** And the values handed out are those of the items among them. */
  lemma {:induction false} HandedOutInOrder(before: seq<Message>, after: seq<Message>, value: Option<Value>)
    requires HandsOutLast(before, after, value)
    ensures ValuesOf(EventsOf(after)) ==
      if value.Some? then ValuesOf(EventsOf(before)) + [value.value] else ValuesOf(EventsOf(before))
    decreases |after|
  {
    if |after| == |before| {
      assert after == before;
    } else {
      var init, last := after[..|after| - 1], after[|after| - 1];
      assert after == init + [last];
      OneMoreValue(init, last);
      assert ValueOf(EventOf(last)) == value;
      HandedOutInOrder(before, init, None);
    }
  }
}
