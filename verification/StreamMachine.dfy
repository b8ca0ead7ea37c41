/**
 One subscription, from the call to Subscribe to the last call to Event, as a machine of atomic steps.

 Every step is one access to state that other goroutines can see (the shared stream counter, a cancel context) or one
 interaction with the network. All choice is in the actions: `Step` is a partial function, and a list of actions is a
 run exactly when `Exec` is defined on it.
 */
module StreamMachine {
  import opened Options
  import opened Values

  type Uint64 = n: int | 0 <= n < 0x1_0000_0000_0000_0000

  // ---------- Messages and events ----------

  datatype Payload = Text(text: seq<byte>) | Binary(data: seq<byte>) | Unset

  /** What a stream delivers. A message of a kind this client does not know is `Unknown`. */
  datatype Message =
    | Item(number: Uint64, page: Uint64, publisher: seq<byte>, payload: Payload)
    | Discontinuity(last: Uint64, newNumber: Uint64, newPage: Uint64)
    | Heartbeat
    | Unknown

  /** What Event returns. */
  datatype Event =
    | TopicItem(value: Value, publisher: seq<byte>, number: Uint64, page: Uint64)
    | TopicDiscontinuity(lastKnown: Uint64, newNumber: Uint64, newPage: Uint64)
    | TopicHeartbeat

  /** The event a message is returned as, or `None` when Event silently goes on to the next message. */
  function EventOf(m: Message): Option<Event> {
    match m
    case Item(n, p, publisher, Text(t)) => Some(TopicItem(String(t), publisher, n, p))
    case Item(n, p, publisher, Binary(d)) => Some(TopicItem(Bytes(d), publisher, n, p))
    case Item(_, _, _, Unset) => None
    case Discontinuity(last, number, page) => Some(TopicDiscontinuity(last, number, page))
    case Heartbeat => Some(TopicHeartbeat)
    case Unknown => None
  }

  // ---------- The machine ----------

  datatype Pc =
    | Fresh       // Subscribe has not been called
    | Checking    // in topicSubscribe, before comparing the counter with the limit
    | Admitted    // the comparison passed, the counter is not incremented yet
    | Opening     // the counter is incremented, the open request is out
    | Unwinding   // the open failed and the counter is decremented again; its context is not cancelled yet
    | Opened      // the open succeeded, its stream is not installed yet
    | Greeting    // Subscribe waits for the first message
    | Abandoned   // Subscribe has returned an error
    | Idle        // Subscribe has returned; no Event call is running
    | Polling     // top of Event's loop
    | Receiving   // in RecvMsg
    | Deciding    // RecvMsg has failed
    | Dropped     // the broken stream's context is cancelled, the counter is not decremented yet

  /**
   `cancelled` has one flag per cancel context created so far, in order; `current` is the installed one and `base` the
   one installed by Subscribe. `number` and `page` are the last known position. `leaked` counts the streams Subscribe
   opened and gave up, `errors` the Event calls that have returned an error.
   */
  datatype Agent = Agent(
    pc: Pc, established: bool, askNumber: Uint64, askPage: Uint64, number: Uint64, page: Uint64,
    cancelled: seq<bool>, current: nat, base: nat, leaked: nat, errors: nat)

  const NEW_AGENT := Agent(Fresh, false, 0, 0, 0, 0, [], 0, 0, 0, 0)

  /** How Subscribe's wait for the first message ends. */
  datatype First = FirstHeartbeat | FirstOther | FirstExhausted | FirstError

  datatype Action =
    | Subscribe(number: Uint64, page: Uint64)  // the caller's resume position
    | Reject | Admit                           // the limit check
    | Begin(number: Uint64, page: Uint64)      // counter + 1 and an open request for this position
    | OpenFails | Unwind | Opens | Install
    | Greet(first: First)
    | Call                                     // the caller calls Event
    | CallerDone | StreamDone                  // Event returns an error: counter - 1
    | Proceed | Receive(message: Message) | ReceiveFails
    | Disconnect | Release                     // cancel the broken stream, then counter - 1
    | Close                                    // some goroutine cancels the installed context

  predicate Cancelled(a: Agent) {
    a.current < |a.cancelled| && a.cancelled[a.current]
  }

  function CancelCurrent(a: Agent): Agent {
    if a.current < |a.cancelled| then a.(cancelled := a.cancelled[a.current := true]) else a
  }

  /** The position an open request carries: the caller's for Subscribe, afterwards the last known one. */
  function Request(a: Agent): (Uint64, Uint64) {
    if a.established then (a.number, a.page) else (a.askNumber, a.askPage)
  }

  function Step(a: Agent, act: Action): Option<Agent> {
    match act
    case Subscribe(n, p) =>
      if a.pc.Fresh? then Some(a.(pc := Checking, askNumber := n, askPage := p)) else None
    case Reject =>
      if a.pc.Checking? then Some(if a.established then a else a.(pc := Abandoned)) else None
    case Admit =>
      if a.pc.Checking? then Some(a.(pc := Admitted)) else None
    case Begin(n, p) =>
      if a.pc.Admitted? && (n, p) == Request(a) then Some(a.(pc := Opening, cancelled := a.cancelled + [false])) else None
    case OpenFails =>
      if a.pc.Opening? then Some(a.(pc := Unwinding)) else None
    case Unwind =>
      if a.pc.Unwinding? && a.cancelled != [] then
        Some(a.(pc := if a.established then Checking else Abandoned,
                cancelled := a.cancelled[|a.cancelled| - 1 := true]))
      else None
    case Opens =>
      if a.pc.Opening? then Some(a.(pc := Opened)) else None
    case Install =>
      if a.pc.Opened? && a.cancelled != [] then
        Some(a.(pc := if a.established then Polling else Greeting, current := |a.cancelled| - 1))
      else None
    case Greet(first) =>
      if !a.pc.Greeting? then None
      else match first {
        case FirstHeartbeat => Some(a.(pc := Idle, established := true, base := a.current))
        case FirstExhausted => Some(a.(pc := Checking, leaked := a.leaked + 1))
        case _ => Some(a.(pc := Abandoned, leaked := a.leaked + 1))
      }
    case Call =>
      if a.pc.Idle? then Some(a.(pc := Polling)) else None
    case CallerDone =>
      if a.pc.Polling? || a.pc.Deciding? then Some(a.(pc := Idle, errors := a.errors + 1)) else None
    case StreamDone =>
      if (a.pc.Polling? || a.pc.Deciding?) && Cancelled(a) then Some(a.(pc := Idle, errors := a.errors + 1)) else None
    case Proceed =>
      if a.pc.Polling? && !Cancelled(a) then Some(a.(pc := Receiving)) else None
    case Receive(m) =>
      if !a.pc.Receiving? then None
      else
        var next := if EventOf(m).None? then Polling else Idle;
        Some(if m.Item? then a.(pc := next, number := m.number, page := m.page) else a.(pc := next))
    case ReceiveFails =>
      if a.pc.Receiving? then Some(a.(pc := Deciding)) else None
    case Disconnect =>
      if a.pc.Deciding? && !Cancelled(a) then Some(CancelCurrent(a).(pc := Dropped)) else None
    case Release =>
      if a.pc.Dropped? then Some(a.(pc := Checking)) else None
    case Close =>
      if a.established then Some(CancelCurrent(a)) else None
  }

  function Exec(a: Agent, acts: seq<Action>): Option<Agent> {
    if acts == [] then Some(a)
    else
      var b := Exec(a, acts[..|acts| - 1]);
      if b.None? then None else Step(b.value, acts[|acts| - 1])
  }

  lemma {:induction false} ExecSnoc(a: Agent, acts: seq<Action>, act: Action)
    ensures Exec(a, acts + [act]) ==
      var b := Exec(a, acts); if b.None? then None else Step(b.value, act)
  {
    assert (acts + [act])[..|acts|] == acts;
  }

  lemma {:induction false} ExecSplit(a: Agent, acts: seq<Action>, more: seq<Action>)
    requires Exec(a, acts).Some?
    ensures Exec(a, acts + more) == Exec(Exec(a, acts).value, more)
  {
    if more == [] {
      assert acts + more == acts;
    } else {
      var init, last := more[..|more| - 1], more[|more| - 1];
      ExecSplit(a, acts, init);
      ExecSnoc(a, acts + init, last);
      ExecSnoc(Exec(a, acts).value, init, last);
      assert acts + more == (acts + init) + [last];
      assert more == init + [last];
    }
  }

  lemma {:induction false} ExecPrefix(a: Agent, acts: seq<Action>, k: nat)
    requires k <= |acts| && Exec(a, acts).Some?
    ensures Exec(a, acts[..k]).Some?
  {
    if k < |acts| {
      ExecPrefix(a, acts[..|acts| - 1], k);
      assert acts[..|acts| - 1][..k] == acts[..k];
    } else {
      assert acts[..k] == acts;
    }
  }

  // ---------- What every reachable state satisfies ----------

  /** Between losing one stream and installing the next. */
  predicate Reconnecting(a: Agent) {
    a.established && (a.pc.Dropped? || a.pc.Checking? || a.pc.Admitted? || a.pc.Opening? || a.pc.Unwinding? || a.pc.Opened?)
  }

  /** The newest context is not installed yet. */
  predicate Fetching(pc: Pc) {
    pc.Opening? || pc.Unwinding? || pc.Opened?
  }

  /**
   Since Subscribe returned, every context but one has been cancelled: only the installed one can be live, or, while
   reconnecting, only the newest one.
   */
  ghost predicate OneLive(a: Agent) {
    a.established ==>
      && a.base <= a.current < |a.cancelled|
      && (Fetching(a.pc) ==> a.current < |a.cancelled| - 1)
      && (Reconnecting(a) ==> a.cancelled[a.current])
      && (!Fetching(a.pc) ==> forall i | a.base <= i < |a.cancelled| && i != a.current :: a.cancelled[i])
      && (Fetching(a.pc) ==> forall i | a.base <= i < |a.cancelled| - 1 :: a.cancelled[i])
  }

  /** Which phases belong to Subscribe and which to an established subscription. */
  predicate Phased(a: Agent) {
    && (a.pc.Idle? || a.pc.Polling? || a.pc.Receiving? || a.pc.Deciding? || a.pc.Dropped? ==> a.established)
    && (a.pc.Fresh? || a.pc.Greeting? || a.pc.Abandoned? ==> !a.established)
    && (Fetching(a.pc) ==> a.cancelled != [] && !a.cancelled[|a.cancelled| - 1])
    && (a.pc.Greeting? ==> a.current + 1 == |a.cancelled|)
    && (!a.established ==> a.number == 0 && a.page == 0 && a.errors == 0)
  }

  ghost predicate WellFormed(a: Agent) {
    Phased(a) && OneLive(a)
  }

  lemma StepPhased(a: Agent, act: Action)
    requires WellFormed(a) && Step(a, act).Some?
    ensures Phased(Step(a, act).value)
    ensures a.established ==> Step(a, act).value.established && Step(a, act).value.leaked == a.leaked
  {
  }

  /** Does the step create, install, or cancel a context? */
  predicate MovesContext(act: Action) {
    act.Begin? || act.Unwind? || act.Install? || act.Greet? || act.Disconnect? || act.Close?
  }

  lemma StepOneLive(a: Agent, act: Action)
    requires WellFormed(a) && Step(a, act).Some? && MovesContext(act)
    ensures OneLive(Step(a, act).value)
  {
  }

  lemma StepKeepsContexts(a: Agent, act: Action)
    requires WellFormed(a) && Step(a, act).Some? && !MovesContext(act)
    ensures OneLive(Step(a, act).value)
  {
  }

  lemma StepWellFormed(a: Agent, act: Action)
    requires WellFormed(a) && Step(a, act).Some?
    ensures WellFormed(Step(a, act).value)
    ensures a.established ==> Step(a, act).value.established && Step(a, act).value.leaked == a.leaked
  {
    StepPhased(a, act);
    if MovesContext(act) {
      StepOneLive(a, act);
    } else {
      StepKeepsContexts(a, act);
    }
  }

  lemma {:induction false} RunWellFormed(a: Agent, acts: seq<Action>)
    requires WellFormed(a) && Exec(a, acts).Some?
    ensures WellFormed(Exec(a, acts).value)
    ensures a.established ==> Exec(a, acts).value.established && Exec(a, acts).value.leaked == a.leaked
  {
    if acts != [] {
      RunWellFormed(a, acts[..|acts| - 1]);
      StepWellFormed(Exec(a, acts[..|acts| - 1]).value, acts[|acts| - 1]);
    }
  }

  /** In every reachable state at most one stream opened since Subscribe returned has a live context. */
  lemma AtMostOneLiveStream(acts: seq<Action>, i: nat, j: nat)
    requires Exec(NEW_AGENT, acts).Some? && Exec(NEW_AGENT, acts).value.established
    requires var a := Exec(NEW_AGENT, acts).value;
      a.base <= i < |a.cancelled| && a.base <= j < |a.cancelled| && !a.cancelled[i] && !a.cancelled[j]
    ensures i == j
    ensures var a := Exec(NEW_AGENT, acts).value; i == if Fetching(a.pc) then |a.cancelled| - 1 else a.current
  {
    RunWellFormed(NEW_AGENT, acts);
  }

  // ---------- The stream ledger of one subscription ----------

  /** What a step adds to the shared stream counter. */
  function Delta(act: Action): int {
    match act
    case Begin(_, _) => 1
    case OpenFails => -1
    case CallerDone => -1
    case StreamDone => -1
    case Release => -1
    case _ => 0
  }

  function Total(acts: seq<Action>): int {
    if acts == [] then 0 else Total(acts[..|acts| - 1]) + Delta(acts[|acts| - 1])
  }

  /** Is a stream of this agent counted at this point (before any error was returned)? */
  predicate Counted(pc: Pc) {
    !(pc.Fresh? || pc.Checking? || pc.Admitted? || pc.Unwinding? || pc.Abandoned?)
  }

  /** The part of the shared counter this agent accounts for. */
  function Share(a: Agent): int {
    a.leaked + (if Counted(a.pc) then 1 else 0) - a.errors
  }

  lemma StepLedger(a: Agent, act: Action)
    requires Step(a, act).Some?
    ensures Delta(act) == Share(Step(a, act).value) - Share(a)
  {
  }

  /** Every run adds to the counter exactly what the agent's state says, whatever the network did. */
  lemma {:induction false} Ledger(a: Agent, acts: seq<Action>)
    requires Exec(a, acts).Some?
    ensures Total(acts) == Share(Exec(a, acts).value) - Share(a)
  {
    if acts != [] {
      Ledger(a, acts[..|acts| - 1]);
      StepLedger(Exec(a, acts[..|acts| - 1]).value, acts[|acts| - 1]);
    }
  }

  lemma {:induction false} TotalSplit(acts: seq<Action>, more: seq<Action>)
    ensures Total(acts + more) == Total(acts) + Total(more)
  {
    if more == [] {
      assert acts + more == acts;
    } else {
      TotalSplit(acts, more[..|more| - 1]);
      assert (acts + more)[..|acts + more| - 1] == acts + more[..|more| - 1];
    }
  }

  /** `acts` is a single Event call of `a`, with Close possibly called meanwhile: it is Idle again only at the end. */
  ghost predicate OneCall(a: Agent, acts: seq<Action>) {
    && |acts| >= 2 && acts[0].Call? && !acts[|acts| - 1].Close?
    && forall k | 1 <= k < |acts| :: Exec(a, acts[..k]).Some? && !Exec(a, acts[..k]).value.pc.Idle?
  }

  lemma {:induction false} ErrorsStay(a: Agent, acts: seq<Action>, k: nat)
    requires 1 <= k <= |acts| && Exec(a, acts[..k]).Some?
    requires forall j | 1 <= j <= k :: Exec(a, acts[..j]).Some? && !Exec(a, acts[..j]).value.pc.Idle?
    ensures Exec(a, acts[..k]).value.errors == a.errors
  {
    assert acts[..k][..k - 1] == acts[..k - 1];
    if k > 1 {
      ErrorsStay(a, acts, k - 1);
    }
  }

  lemma OneCallErrors(a: Agent, acts: seq<Action>)
    requires WellFormed(a) && a.pc.Idle? && Exec(a, acts).Some? && Exec(a, acts).value.pc.Idle? && OneCall(a, acts)
    ensures acts[|acts| - 1].Receive? ==> Exec(a, acts).value.errors == a.errors
    ensures !acts[|acts| - 1].Receive? ==> Exec(a, acts).value.errors == a.errors + 1
  {
    var before := acts[..|acts| - 1];
    ErrorsStay(a, acts, |before|);
    RunWellFormed(a, before);
    assert Exec(a, acts) == Step(Exec(a, before).value, acts[|acts| - 1]);
  }

  /**
   One Event call, from Idle back to Idle: the counter changes by minus one if it returned an error and not at all if it
   returned an event, however many disconnects and failed reconnects happened inside.
   */
  lemma EventLedger(a: Agent, acts: seq<Action>)
    requires WellFormed(a) && a.pc.Idle? && Exec(a, acts).Some? && Exec(a, acts).value.pc.Idle?
    ensures Total(acts) == a.errors - Exec(a, acts).value.errors
    ensures OneCall(a, acts) ==> Total(acts) == if acts[|acts| - 1].Receive? then 0 else -1
  {
    Ledger(a, acts);
    RunWellFormed(a, acts);
    if OneCall(a, acts) {
      OneCallErrors(a, acts);
    }
  }
}
