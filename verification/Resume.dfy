/** Where a subscription resumes: the positions it asks for, and what that gives against a well-behaved server. */
module Resume {
  import opened Options
  import opened StreamMachine

  /** A place in a topic: positions are ordered by page first, then by sequence number. */
  datatype Position = Position(page: Uint64, number: Uint64)

  predicate NotAfter(a: Position, b: Position) {
    a.page < b.page || (a.page == b.page && a.number <= b.number)
  }

  const ORIGIN := Position(0, 0)

  /** One open request and the items received on the stream it opened. */
  datatype Leg = Leg(request: Position, items: seq<Position>)

  function Legs(acts: seq<Action>): seq<Leg> {
    if acts == [] then []
    else
      var legs := Legs(acts[..|acts| - 1]);
      match acts[|acts| - 1]
      case Begin(n, p) => legs + [Leg(Position(p, n), [])]
      case Receive(Item(n, p, _, _)) =>
        if legs == [] then legs
        else
          var leg := legs[|legs| - 1];
          legs[..|legs| - 1] + [leg.(items := leg.items + [Position(p, n)])]
      case _ => legs
  }

  /** All items received, over all legs, in order of arrival. */
  function Items(legs: seq<Leg>): seq<Position> {
    if legs == [] then [] else Items(legs[..|legs| - 1]) + legs[|legs| - 1].items
  }

  function LastOf(items: seq<Position>): Position {
    if items == [] then ORIGIN else items[|items| - 1]
  }

  /** The position of the last item message, or the origin: what a reconnect will ask for. */
  function Known(a: Agent): Position {
    Position(a.page, a.number)
  }

  // ---------- What the client asks for ----------

  /** The newest leg with one more item. */
  function Extend(legs: seq<Leg>, pos: Position): seq<Leg>
    requires legs != []
  {
    var leg := legs[|legs| - 1];
    legs[..|legs| - 1] + [leg.(items := leg.items + [pos])]
  }

  predicate IsItem(act: Action) {
    act.Receive? && act.message.Item?
  }

  function PositionOf(act: Action): Position
    requires IsItem(act)
  {
    Position(act.message.page, act.message.number)
  }

  lemma {:induction false} ItemsExtend(legs: seq<Leg>, pos: Position)
    requires legs != []
    ensures Items(Extend(legs, pos)) == Items(legs) + [pos]
  {
    assert Extend(legs, pos)[..|legs| - 1] == legs[..|legs| - 1];
  }

  lemma {:induction false} ItemsBegin(legs: seq<Leg>, request: Position)
    ensures Items(legs + [Leg(request, [])]) == Items(legs)
  {
    assert (legs + [Leg(request, [])])[..|legs|] == legs;
  }

  lemma {:induction false} LegsStep(acts: seq<Action>)
    requires acts != []
    ensures var before, last := Legs(acts[..|acts| - 1]), acts[|acts| - 1];
      Legs(acts) ==
        if last.Begin? then before + [Leg(Position(last.page, last.number), [])]
        else if IsItem(last) && before != [] then Extend(before, PositionOf(last))
        else before
    ensures var before, last := Legs(acts[..|acts| - 1]), acts[|acts| - 1];
      Items(Legs(acts)) == if IsItem(last) && before != [] then Items(before) + [PositionOf(last)] else Items(before)
  {
    var before, last := Legs(acts[..|acts| - 1]), acts[|acts| - 1];
    if last.Begin? {
      ItemsBegin(before, Position(last.page, last.number));
    } else if IsItem(last) && before != [] {
      ItemsExtend(before, PositionOf(last));
    }
  }

  /** Has a stream been asked for? */
  predicate HasLeg(a: Agent) {
    a.established || a.pc.Greeting? || Fetching(a.pc)
  }

  /** Only an item message moves the last known position, and only a subscription that is established receives one. */
  lemma KnownStep(a: Agent, act: Action)
    requires WellFormed(a) && Step(a, act).Some?
    ensures var b := Step(a, act).value;
      && (if IsItem(act) then a.established && Known(b) == PositionOf(act) else Known(b) == Known(a))
      && (HasLeg(b) ==> HasLeg(a) || act.Begin?)
      && (!b.established ==> !a.established)
  {
  }

  /** Bookkeeping of a whole run: the last known position is that of the last item received. */
  ghost predicate Tracks(a: Agent, legs: seq<Leg>) {
    && (HasLeg(a) ==> legs != [])
    && (!a.established ==> Items(legs) == [])
    && Known(a) == LastOf(Items(legs))
  }

  lemma {:induction false} RunTracks(acts: seq<Action>)
    requires Exec(NEW_AGENT, acts).Some?
    ensures Tracks(Exec(NEW_AGENT, acts).value, Legs(acts)) && WellFormed(Exec(NEW_AGENT, acts).value)
  {
    RunWellFormed(NEW_AGENT, acts);
    if acts != [] {
      var before := acts[..|acts| - 1];
      RunTracks(before);
      LegsStep(acts);
      KnownStep(Exec(NEW_AGENT, before).value, acts[|acts| - 1]);
    }
  }

  /**
   Every reconnect asks for exactly the position of the last item received on any stream, or for the origin if there was
   none: neither Subscribe's own resume position nor a discontinuity is remembered.
   */
  lemma {:induction false} ReconnectsAskForLastItem(acts: seq<Action>, k: nat)
    requires k < |acts| && acts[k].Begin? && Exec(NEW_AGENT, acts).Some?
    requires Exec(NEW_AGENT, acts[..k]).Some? && Exec(NEW_AGENT, acts[..k]).value.established
    ensures Position(acts[k].page, acts[k].number) == LastOf(Items(Legs(acts[..k])))
  {
    RunTracks(acts[..k]);
    ExecPrefix(NEW_AGENT, acts, k + 1);
    assert acts[..k + 1][..k] == acts[..k];
  }

  // ---------- Order over the whole run ----------

  ghost predicate Sorted(items: seq<Position>) {
    forall i, j | 0 <= i < j < |items| :: NotAfter(items[i], items[j])
  }

  /** The server sends each stream in order and nothing from before the requested position. */
  ghost predicate InOrder(leg: Leg) {
    Sorted(leg.items) && forall i | 0 <= i < |leg.items| :: NotAfter(leg.request, leg.items[i])
  }

  /** What the newest leg allows next is never before what has been received already. */
  ghost predicate Seam(legs: seq<Leg>) {
    legs != [] ==>
      var leg := legs[|legs| - 1];
      if leg.items == [] then Items(legs) == [] || leg.request == LastOf(Items(legs))
      else LastOf(leg.items) == LastOf(Items(legs))
  }

  lemma {:induction false} RunSeam(acts: seq<Action>)
    requires Exec(NEW_AGENT, acts).Some?
    ensures Seam(Legs(acts))
  {
    if acts != [] {
      var before := acts[..|acts| - 1];
      RunSeam(before);
      RunTracks(before);
      LegsStep(acts);
    }
  }

  lemma SortedAppend(items: seq<Position>, pos: Position)
    requires Sorted(items) && (items == [] || NotAfter(LastOf(items), pos))
    ensures Sorted(items + [pos])
  {
    forall i | 0 <= i < |items| ensures NotAfter(items[i], pos) {
      assert i < |items| - 1 ==> NotAfter(items[i], LastOf(items));
    }
  }

  ghost predicate AllInOrder(legs: seq<Leg>) {
    forall k | 0 <= k < |legs| :: InOrder(legs[k])
  }

  lemma InOrderBefore(leg: Leg, pos: Position)
    requires InOrder(leg.(items := leg.items + [pos]))
    ensures InOrder(leg)
    ensures if leg.items == [] then NotAfter(leg.request, pos) else NotAfter(LastOf(leg.items), pos)
  {
    var items := leg.items + [pos];
    assert items[|leg.items|] == pos;
    forall i, j | 0 <= i < j < |leg.items| ensures NotAfter(leg.items[i], leg.items[j]) {
      assert NotAfter(items[i], items[j]);
    }
    forall i | 0 <= i < |leg.items| ensures NotAfter(leg.request, leg.items[i]) {
      assert NotAfter(leg.request, items[i]);
    }
    if leg.items != [] {
      assert NotAfter(items[|leg.items| - 1], items[|leg.items|]);
    }
  }

  lemma {:induction false} AllInOrderBefore(legs: seq<Leg>, pos: Position)
    requires legs != [] && AllInOrder(Extend(legs, pos))
    ensures AllInOrder(legs)
    ensures var leg := legs[|legs| - 1];
      if leg.items == [] then NotAfter(leg.request, pos) else NotAfter(LastOf(leg.items), pos)
  {
    var more := Extend(legs, pos);
    assert InOrder(more[|legs| - 1]);
    InOrderBefore(legs[|legs| - 1], pos);
    forall k | 0 <= k < |legs| - 1 ensures InOrder(legs[k]) { assert more[k] == legs[k]; }
  }

  lemma {:induction false} AllInOrderBeforeBegin(legs: seq<Leg>, leg: Leg)
    requires AllInOrder(legs + [leg])
    ensures AllInOrder(legs)
  {
    forall k | 0 <= k < |legs| ensures InOrder(legs[k]) { assert (legs + [leg])[k] == legs[k]; }
  }

  /**
   Through any number of disconnects and failed reconnects, items arrive in the order of their positions, provided the
   server sends each single stream in order from the requested position on.
   */
  lemma {:induction false} WholeRunInOrder(acts: seq<Action>)
    requires Exec(NEW_AGENT, acts).Some? && AllInOrder(Legs(acts))
    ensures Sorted(Items(Legs(acts)))
  {
    if acts != [] {
      var before, last := acts[..|acts| - 1], acts[|acts| - 1];
      var legs := Legs(before);
      LegsStep(acts);
      if last.Begin? {
        AllInOrderBeforeBegin(legs, Leg(Position(last.page, last.number), []));
        WholeRunInOrder(before);
      } else if IsItem(last) && legs != [] {
        AllInOrderBefore(legs, PositionOf(last));
        WholeRunInOrder(before);
        RunSeam(before);
        SortedAppend(Items(legs), PositionOf(last));
      } else {
        WholeRunInOrder(before);
      }
    }
  }

  // ---------- At least once, without gaps ----------

  /**
   The server's promise for one stream of a topic that stays on one page: consecutive numbers, starting with the requested
   one if that is at least 2. (Zero asks for the latest messages and 1 for an unspecified stretch of recent ones.)
   */
  ghost predicate Replays(leg: Leg, page: Uint64) {
    && (forall i | 0 <= i < |leg.items| :: leg.items[i].page == page)
    && (forall i | 0 <= i < |leg.items| - 1 :: leg.items[i + 1].number == leg.items[i].number + 1)
    && (leg.request.number >= 2 && leg.request.page == page && leg.items != [] ==>
         leg.items[0].number == leg.request.number)
  }

  ghost predicate AllReplay(legs: seq<Leg>, page: Uint64) {
    forall k | 0 <= k < |legs| :: Replays(legs[k], page)
  }

  lemma ReplaysBefore(leg: Leg, pos: Position, page: Uint64)
    requires Replays(leg.(items := leg.items + [pos]), page)
    ensures Replays(leg, page) && pos.page == page
    ensures leg.items != [] ==> pos.number == LastOf(leg.items).number + 1
    ensures leg.items == [] && leg.request.number >= 2 && leg.request.page == page ==> pos == leg.request
  {
    var n, items := |leg.items|, leg.items + [pos];
    assert items[n] == pos;
    forall i | 0 <= i < n - 1 ensures leg.items[i + 1].number == leg.items[i].number + 1 {
      assert items[i] == leg.items[i] && items[i + 1] == leg.items[i + 1];
    }
    forall i | 0 <= i < n ensures leg.items[i].page == page { assert items[i] == leg.items[i]; }
    if n > 0 {
      assert items[n - 1 + 1].number == items[n - 1].number + 1;
      assert items[0] == leg.items[0];
    }
  }

  lemma {:induction false} AllReplayBefore(legs: seq<Leg>, pos: Position, page: Uint64)
    requires legs != [] && AllReplay(Extend(legs, pos), page)
    ensures AllReplay(legs, page) && pos.page == page
    ensures var leg := legs[|legs| - 1];
      && (leg.items != [] ==> pos.number == LastOf(leg.items).number + 1)
      && (leg.items == [] && leg.request.number >= 2 && leg.request.page == page ==> pos == leg.request)
  {
    var more := Extend(legs, pos);
    assert Replays(more[|legs| - 1], page);
    ReplaysBefore(legs[|legs| - 1], pos, page);
    forall k | 0 <= k < |legs| - 1 ensures Replays(legs[k], page) { assert more[k] == legs[k]; }
  }

  lemma {:induction false} AllReplayBeforeBegin(legs: seq<Leg>, leg: Leg, page: Uint64)
    requires AllReplay(legs + [leg], page)
    ensures AllReplay(legs, page)
  {
    forall k | 0 <= k < |legs| ensures Replays(legs[k], page) { assert (legs + [leg])[k] == legs[k]; }
  }

  /** Numbers never go back and never skip one. */
  ghost predicate Gapless(items: seq<Position>, page: Uint64) {
    && (forall i | 0 <= i < |items| :: items[i].page == page && items[0].number <= items[i].number)
    && (forall i | 0 <= i < |items| - 1 :: items[i].number <= items[i + 1].number <= items[i].number + 1)
  }

  /**
   The next item, if it is not the very first: on the same stream it is the successor of the item before; as the first
   one after a reconnect it is that item once more.
   */
  lemma {:induction false} NextItem(legs: seq<Leg>, pos: Position, page: Uint64)
    requires legs != [] && Seam(legs) && AllReplay(Extend(legs, pos), page)
    requires Items(legs) != [] && Gapless(Items(legs), page) && Items(legs)[0].number >= 2
    ensures if legs[|legs| - 1].items == [] then pos == LastOf(Items(legs))
            else pos.page == page && pos.number == LastOf(Items(legs)).number + 1
  {
    AllReplayBefore(legs, pos, page);
    assert LastOf(Items(legs)) == Items(legs)[|Items(legs)| - 1];
  }

  lemma GaplessAppend(items: seq<Position>, pos: Position, page: Uint64)
    requires Gapless(items, page) && pos.page == page
    requires items != [] ==> LastOf(items).number <= pos.number <= LastOf(items).number + 1
    ensures Gapless(items + [pos], page)
  {
    var all := items + [pos];
    forall i | 0 <= i < |all| - 1 ensures all[i].number <= all[i + 1].number <= all[i].number + 1 {
      if i == |items| - 1 {
        assert all[i] == LastOf(items) && all[i + 1] == pos;
      } else {
        assert all[i] == items[i] && all[i + 1] == items[i + 1];
      }
    }
  }

  lemma {:induction false} AllReplayPrefix(acts: seq<Action>, page: Uint64)
    requires acts != [] && AllReplay(Legs(acts), page)
    ensures AllReplay(Legs(acts[..|acts| - 1]), page)
  {
    var legs, last := Legs(acts[..|acts| - 1]), acts[|acts| - 1];
    LegsStep(acts);
    if last.Begin? {
      AllReplayBeforeBegin(legs, Leg(Position(last.page, last.number), []), page);
    } else if IsItem(last) && legs != [] {
      AllReplayBefore(legs, PositionOf(last), page);
    }
  }

  lemma {:induction false} FirstItemStays(acts: seq<Action>)
    requires acts != [] && Items(Legs(acts[..|acts| - 1])) != []
    ensures Items(Legs(acts)) != [] && Items(Legs(acts))[0] == Items(Legs(acts[..|acts| - 1]))[0]
  {
    LegsStep(acts);
  }

  lemma {:induction false} GapFreeItem(legs: seq<Leg>, pos: Position, page: Uint64)
    requires legs != [] && Seam(legs) && AllReplay(Extend(legs, pos), page) && Gapless(Items(legs), page)
    requires Items(legs) != [] ==> Items(legs)[0].number >= 2
    ensures Gapless(Items(legs) + [pos], page)
  {
    AllReplayBefore(legs, pos, page);
    if Items(legs) != [] {
      NextItem(legs, pos, page);
    }
    GaplessAppend(Items(legs), pos, page);
  }

  /**
   Gap-free, at-least-once delivery: once an item numbered 2 or more has been received, the numbers received over all
   streams go up one at a time, whatever disconnects and failed reconnects lie between them.
   */
  lemma {:induction false} GapFreeResume(acts: seq<Action>, page: Uint64)
    requires Exec(NEW_AGENT, acts).Some? && AllReplay(Legs(acts), page)
    requires Items(Legs(acts)) != [] ==> Items(Legs(acts))[0].number >= 2
    ensures Gapless(Items(Legs(acts)), page)
  {
    if acts != [] {
      var before, last := acts[..|acts| - 1], acts[|acts| - 1];
      AllReplayPrefix(acts, page);
      if Items(Legs(before)) != [] {
        FirstItemStays(acts);
      }
      GapFreeResume(before, page);
      LegsStep(acts);
      if IsItem(last) && Legs(before) != [] {
        RunSeam(before);
        GapFreeItem(Legs(before), PositionOf(last), page);
      }
    }
  }

  /**
   A number is received twice only as the last item before a reconnect and the first item after it; every other item
   is numbered one more than the item before.
   */
  lemma RepeatsOnlyAfterReconnect(acts: seq<Action>, page: Uint64)
    requires acts != [] && IsItem(acts[|acts| - 1])
    requires Exec(NEW_AGENT, acts).Some? && AllReplay(Legs(acts), page)
    requires var items := Items(Legs(acts[..|acts| - 1])); items != [] && items[0].number >= 2
    ensures var legs, pos := Legs(acts[..|acts| - 1]), PositionOf(acts[|acts| - 1]);
      && legs != []
      && if legs[|legs| - 1].items == [] then pos == LastOf(Items(legs))
         else pos.page == page && pos.number == LastOf(Items(legs)).number + 1
  {
    var before := acts[..|acts| - 1];
    LegsStep(acts);
    AllReplayBefore(Legs(before), PositionOf(acts[|acts| - 1]), page);
    GapFreeResume(before, page);
    RunSeam(before);
    NextItem(Legs(before), PositionOf(acts[|acts| - 1]), page);
  }

  /** So no number between the first and the last one received is missing. */
  lemma {:induction false} NothingMissing(items: seq<Position>, page: Uint64, n: Uint64)
    requires Gapless(items, page) && items != []
    requires items[0].number <= n <= LastOf(items).number
    ensures Position(page, n) in items
  {
    var k := |items| - 1;
    if n == items[k].number {
      assert items[k] == Position(page, n);
    } else {
      assert k > 0;
      assert items[k - 1].number <= items[k - 1 + 1].number <= items[k - 1].number + 1;
      NothingMissing(items[..k], page, n);
    }
  }
}
