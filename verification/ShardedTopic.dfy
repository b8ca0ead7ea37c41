/** The sharded topic client: all shards open or none, and a bounded channel that merges what the shards deliver. */
module ShardedTopic {
  import opened Options

  const CHANNEL_SIZE := 1000

  // ---------- Opening ----------

  class Subscription {
    var closed: bool

    constructor ()
      ensures !closed
    {
      closed := false;
    }

    method Close()
      modifies this
      ensures closed
    {
      closed := true;
    }
  }

  method CloseAll(subscriptions: seq<Option<Subscription>>)
    modifies set s: Subscription | Some(s) in subscriptions
    ensures forall s: Subscription | Some(s) in subscriptions :: s.closed
  {
    for j := 0 to |subscriptions|
      invariant forall k | 0 <= k < j && subscriptions[k].Some? :: subscriptions[k].value.closed
    {
      if subscriptions[j].Some? {
        subscriptions[j].value.Close();
      }
    }
  }

  /**
   Subscribe on every shard; `opens` is what each single Subscribe does. Either every shard ends up open, or one fails and
   every subscription opened before it is closed. `made` are the subscriptions made.
   */
  method Subscribe(numShards: nat, opens: nat -> bool)
    returns (result: Option<seq<Subscription>>, ghost made: seq<Subscription>)
    ensures forall i | 0 <= i < |made| :: fresh(made[i]) && opens(i)
    ensures result.Some? <==> forall i: nat | i < numShards :: opens(i)
    ensures result.Some? ==>
      result.value == made && |made| == numShards && forall i | 0 <= i < numShards :: !made[i].closed
    ensures result.None? ==>
      && |made| < numShards && !opens(|made|)
      && forall i | 0 <= i < |made| :: made[i].closed
  {
    var subscriptions := seq(numShards, _ => None);
    var list: seq<Subscription> := [];
    for i := 0 to numShards
      invariant |subscriptions| == numShards && |list| == i
      invariant forall k | 0 <= k < i :: fresh(list[k]) && !list[k].closed && subscriptions[k] == Some(list[k]) && opens(k)
      invariant forall k | i <= k < numShards :: subscriptions[k] == None
    {
      if !opens(i) {
        CloseAll(subscriptions);
        forall k | 0 <= k < i ensures list[k].closed { assert Some(list[k]) == subscriptions[k]; }
        return None, list;
      }
      var subscription := new Subscription();
      subscriptions := subscriptions[i := Some(subscription)];
      list := list + [subscription];
    }
    return Some(list), list;
  }

  // ---------- Merging ----------

  /** A shard's goroutine: about to look at its contexts, reading its subscription, sending what it read, or returned. */
  datatype Reader<T> = Checking | Reading | Sending(item: T) | Stopped

  /** `read` and `returned` record what each goroutine has read and what Item has handed out. */
  datatype Merge<T> = Merge(
    readers: seq<Reader<T>>, channel: seq<(nat, T)>, read: seq<seq<T>>, returned: seq<(nat, T)>)

  datatype Event<T> = Stop(shard: nat) | Continue(shard: nat) | Read(shard: nat, item: T) | Send(shard: nat) | Item

  predicate Enabled<T>(m: Merge<T>, e: Event<T>) {
    match e
    case Stop(i) => i < |m.readers| && m.readers[i].Checking?
    case Continue(i) => i < |m.readers| && m.readers[i].Checking?
    case Read(i, _) => i < |m.readers| && m.readers[i].Reading? && i < |m.read|
    case Send(i) => i < |m.readers| && m.readers[i].Sending? && |m.channel| < CHANNEL_SIZE
    case Item => m.channel != []
  }

  function Next<T>(m: Merge<T>, e: Event<T>): Merge<T>
    requires Enabled(m, e)
  {
    match e
    case Stop(i) => m.(readers := m.readers[i := Stopped])
    case Continue(i) => m.(readers := m.readers[i := Reading])
    case Read(i, x) => m.(readers := m.readers[i := Sending(x)], read := m.read[i := m.read[i] + [x]])
    case Send(i) => m.(readers := m.readers[i := Checking], channel := m.channel + [(i, m.readers[i].item)])
    case Item => m.(channel := m.channel[1..], returned := m.returned + [m.channel[0]])
  }

  function Start<T>(shards: nat): Merge<T> {
    Merge(seq(shards, _ => Checking), [], seq(shards, _ => []), [])
  }

  function Exec<T>(m: Merge<T>, es: seq<Event<T>>): Option<Merge<T>> {
    if es == [] then Some(m)
    else
      var before := Exec(m, es[..|es| - 1]);
      if before.Some? && Enabled(before.value, es[|es| - 1]) then Some(Next(before.value, es[|es| - 1])) else None
  }

  /** The items of one shard, in order. */
  function Of<T>(entries: seq<(nat, T)>, shard: nat): seq<T> {
    if entries == [] then []
    else
      var last := entries[|entries| - 1];
      Of(entries[..|entries| - 1], shard) + if last.0 == shard then [last.1] else []
  }

  lemma {:induction false} OfAppend<T>(a: seq<(nat, T)>, b: seq<(nat, T)>, shard: nat)
    ensures Of(a + b, shard) == Of(a, shard) + Of(b, shard)
  {
    if b == [] {
      assert a + b == a;
    } else {
      OfAppend(a, b[..|b| - 1], shard);
      assert (a + b)[..|a + b| - 1] == a + b[..|b| - 1];
    }
  }

  function InHand<T>(r: Reader<T>): seq<T> {
    if r.Sending? then [r.item] else []
  }

  /** What shard i read is what was handed out, then what is buffered, then what its goroutine holds, in this order. */
  ghost predicate Kept<T>(m: Merge<T>, i: nat)
    requires i < |m.readers| == |m.read|
  {
    m.read[i] == Of(m.returned, i) + Of(m.channel, i) + InHand(m.readers[i])
  }

  lemma {:induction false} KeptSend<T>(m: Merge<T>, k: nat, i: nat)
    requires i < |m.readers| == |m.read| && Enabled(m, Send(k)) && Kept(m, i)
    ensures Kept(Next(m, Send(k)), i)
  {
    var x := (k, m.readers[k].item);
    OfAppend(m.channel, [x], i);
    assert Of([x], i) == if k == i then [x.1] else [];
  }

  lemma {:induction false} KeptItem<T>(m: Merge<T>, i: nat)
    requires i < |m.readers| == |m.read| && Enabled(m, Item) && Kept(m, i)
    ensures Kept(Next(m, Item), i)
  {
    var first, rest := [m.channel[0]], m.channel[1..];
    OfAppend(first, rest, i);
    assert m.channel == first + rest;
    OfAppend(m.returned, first, i);
  }

  lemma {:induction false} KeptStep<T>(m: Merge<T>, e: Event<T>, i: nat)
    requires i < |m.readers| == |m.read| && Enabled(m, e) && Kept(m, i)
    ensures Kept(Next(m, e), i)
  {
    match e {
      case Send(k) => KeptSend(m, k, i);
      case Item => KeptItem(m, i);
      case _ =>
    }
  }

  /** What the goroutine of one shard reads in the course of a run, in order. */
  function ReadsIn<T>(es: seq<Event<T>>, shard: nat): seq<T> {
    if es == [] then []
    else
      var last := es[|es| - 1];
      ReadsIn(es[..|es| - 1], shard) + if last.Read? && last.shard == shard then [last.item] else []
  }

  /**
   In every interleaving nothing is lost, duplicated, or reordered within a shard between its subscription and Item, and
   the merged channel never holds more than its 1000 slots.
   */
  lemma {:induction false} FanInConserves<T>(shards: nat, es: seq<Event<T>>)
    requires Exec(Start<T>(shards), es).Some?
    ensures var m := Exec(Start<T>(shards), es).value;
      && |m.readers| == |m.read| == shards && |m.channel| <= CHANNEL_SIZE
      && forall i | 0 <= i < shards :: Kept(m, i) && m.read[i] == ReadsIn(es, i)
  {
    if es != [] {
      FanInConserves(shards, es[..|es| - 1]);
      var m := Exec(Start<T>(shards), es[..|es| - 1]).value;
      var n := Next(m, es[|es| - 1]);
      forall i | 0 <= i < shards ensures Kept(n, i) && n.read[i] == ReadsIn(es, i) {
        KeptStep(m, es[|es| - 1], i);
      }
    }
  }
}
