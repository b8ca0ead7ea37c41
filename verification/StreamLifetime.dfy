/** When a subscription ends, and when the stream counter stops telling how many streams are open. */
module StreamLifetime {
  import opened Options
  import opened StreamMachine

  // ---------- Close ----------

  /** No run from `a` ever waits for a message on a stream again. */
  ghost predicate Stopped(a: Agent) {
    forall more | Exec(a, more).Some? :: Proceed !in more
  }

  /** The installed stream is cancelled and no new one is being fetched. */
  predicate Ending(a: Agent) {
    Cancelled(a) && (a.pc.Idle? || a.pc.Polling? || a.pc.Receiving? || a.pc.Deciding?)
  }

  lemma {:induction false} EndingStays(a: Agent, more: seq<Action>)
    requires Ending(a) && Exec(a, more).Some?
    ensures Ending(Exec(a, more).value) && Proceed !in more
  {
    if more != [] {
      EndingStays(a, more[..|more| - 1]);
    }
  }

  function Rank(pc: Pc): nat {
    match pc
    case Dropped => 6
    case Unwinding => 6
    case Checking => 5
    case Admitted => 4
    case Opening => 3
    case Opened => 2
    case Polling => 1
    case _ => 0
  }

  /** A reconnecting subscription can always get hold of a new stream and wait on it, closed or not. */
  lemma {:induction false} ReachesNewStream(a: Agent) returns (more: seq<Action>)
    requires WellFormed(a) && (Reconnecting(a) || (a.pc.Polling? && !Cancelled(a)))
    ensures Exec(a, more).Some? && Proceed in more
    decreases Rank(a.pc)
  {
    var act := match a.pc {
      case Dropped => Release
      case Unwinding => Unwind
      case Checking => Admit
      case Admitted => Begin(a.number, a.page)
      case Opening => Opens
      case Opened => Install
      case _ => Proceed
    };
    var b := Step(a, act).value;
    StepWellFormed(a, act);
    assert Exec(a, []) == Some(a) && Exec(a, [act]) == Some(b);
    if act.Proceed? {
      more := [act];
    } else {
      var rest := ReachesNewStream(b);
      ExecSplit(a, [act], rest);
      more := [act] + rest;
    }
  }

  /**
   Close ends a subscription exactly when no reconnect is under way: then the subscription never waits for another
   message; called during a reconnect it cancels only the stream already lost, and a new one can still be installed.
   */
  lemma CloseStopsUnlessReconnecting(acts: seq<Action>)
    requires Exec(NEW_AGENT, acts).Some? && Exec(NEW_AGENT, acts).value.established
    ensures var a := Exec(NEW_AGENT, acts).value;
      Stopped(CancelCurrent(a)) <==> !Reconnecting(a)
  {
    RunWellFormed(NEW_AGENT, acts);
    var a := Exec(NEW_AGENT, acts).value;
    var b := CancelCurrent(a);
    StepWellFormed(a, Close);
    if Reconnecting(a) {
      var more := ReachesNewStream(b);
    } else {
      forall more | Exec(b, more).Some? ensures Proceed !in more {
        EndingStays(b, more);
      }
    }
  }

  // ---------- Errors and the counter ----------

  /** Calling Event with a done context is always possible and counts one stream less, live or not. */
  lemma FailedCall(a: Agent)
    requires a.pc.Idle? && a.established
    ensures Exec(a, [Call, CallerDone]) == Some(a.(errors := a.errors + 1))
  {
    assert Exec(a, []) == Some(a);
    assert [Call, CallerDone][..1] == [Call] && [Call][..0] == [];
    assert Exec(a, [Call]) == Some(a.(pc := Polling));
  }

  /**
   The counter reports a subscription once only if Event is not called again after an error: with no stream leaked, an
   idle subscription accounts for a stream or for none exactly when at most one Event call has failed, and a further
   failing call always takes its share below zero.
   */
  lemma RepeatedErrorsUndercount(acts: seq<Action>)
    requires Exec(NEW_AGENT, acts).Some? && Exec(NEW_AGENT, acts).value.pc.Idle? && Exec(NEW_AGENT, acts).value.leaked == 0
    ensures Total(acts) >= 0 <==> Exec(NEW_AGENT, acts).value.errors <= 1
    ensures Exec(NEW_AGENT, acts).value.errors >= 1 ==>
      Exec(NEW_AGENT, acts + [Call, CallerDone]).Some? && Total(acts + [Call, CallerDone]) < 0
  {
    var a := Exec(NEW_AGENT, acts).value;
    RunWellFormed(NEW_AGENT, acts);
    Ledger(NEW_AGENT, acts);
    FailedCall(a);
    ExecSplit(NEW_AGENT, acts, [Call, CallerDone]);
    Ledger(NEW_AGENT, acts + [Call, CallerDone]);
  }

  /** An Event call that fails because its own context is done leaves the stream open, but no longer counted. */
  lemma OpenButUncounted(a: Agent)
    requires WellFormed(a) && a.pc.Idle? && a.leaked == 0 && a.errors == 0 && !Cancelled(a)
    ensures var b := Exec(a, [Call, CallerDone]);
      b.Some? && Share(b.value) == 0 && !Cancelled(b.value) && Step(b.value, Call).Some?
  {
    FailedCall(a);
  }

  // ---------- Subscribe ----------

  /** How many streams Subscribe opened and then gave up because the first message was not a heartbeat. */
  function FailedGreetings(acts: seq<Action>): nat {
    if acts == [] then 0
    else
      var last := acts[|acts| - 1];
      FailedGreetings(acts[..|acts| - 1]) + if last.Greet? && !last.first.FirstHeartbeat? then 1 else 0
  }

  lemma {:induction false} LeakedCount(acts: seq<Action>)
    requires Exec(NEW_AGENT, acts).Some?
    ensures Exec(NEW_AGENT, acts).value.leaked == FailedGreetings(acts)
  {
    if acts != [] {
      LeakedCount(acts[..|acts| - 1]);
    }
  }

  /**
   Subscribe keeps the counter exact if and only if every first message it waited for was a heartbeat: it leaves one
   count too many for every stream on which the first receive failed or brought anything else.
   */
  lemma SubscribeLedger(acts: seq<Action>)
    requires Exec(NEW_AGENT, acts).Some?
    ensures var a := Exec(NEW_AGENT, acts).value;
      && (a.pc.Abandoned? ==> Total(acts) == FailedGreetings(acts))
      && (a.pc.Idle? && a.errors == 0 ==> Total(acts) == 1 + FailedGreetings(acts))
  {
    RunWellFormed(NEW_AGENT, acts);
    Ledger(NEW_AGENT, acts);
    LeakedCount(acts);
  }
}
