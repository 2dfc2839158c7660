/**
 The ordered queue of one key (keyed-writes.ts): every push chains a link behind the current tail.
 A tail is forgotten when it is done, so whether a push still finds the tail decides its place.
 */
module SerialQueue {
  import opened Wrappers

  datatype Phase = Blocked | Running | Done

  /** `after` is the link whose promise this one was chained to, if there was one. */
  datatype Link<T> = Link(item: T, after: Option<nat>, phase: Phase)

  /** The pushes of one key in order, the entry of `tails`, and the order in which items started. */
  datatype Queue<T> = Queue(links: seq<Link<T>>, tail: Option<nat>, started: seq<nat>)

  datatype Event<T> = Pushed(item: T) | Begun(link: nat) | Finished(link: nat)

  function Empty<T>(): Queue<T> { Queue([], None, []) }

  function Push<T>(q: Queue<T>, item: T): Queue<T> {
    q.(links := q.links + [Link(item, q.tail, Blocked)], tail := Some(|q.links|))
  }

  predicate MayBegin<T>(q: Queue<T>, i: nat) {
    i < |q.links| && q.links[i].phase.Blocked? &&
    (q.links[i].after.None? || (q.links[i].after.value < |q.links| && q.links[q.links[i].after.value].phase.Done?))
  }

  /** The last callback of a link: only the newest tail clears its entry. A failed item ends like any other. */
  function Finish<T>(q: Queue<T>, i: nat): Queue<T>
    requires i < |q.links|
  {
    q.(links := q.links[i := q.links[i].(phase := Done)], tail := if q.tail == Some(i) then None else q.tail)
  }

  function Step<T>(q: Queue<T>, e: Event<T>): Option<Queue<T>> {
    match e
    case Pushed(item) => Some(Push(q, item))
    case Begun(i) =>
      if MayBegin(q, i) then Some(q.(links := q.links[i := q.links[i].(phase := Running)], started := q.started + [i])) else None
    case Finished(i) => if i < |q.links| && q.links[i].phase.Running? then Some(Finish(q, i)) else None
  }

  function Run<T>(q: Queue<T>, events: seq<Event<T>>): Option<Queue<T>>
    decreases |events|
  {
    if events == [] then Some(q)
    else
      var r := Step(q, events[0]);
      if r.None? then None else Run(r.value, events[1..])
  }

  function Items<T>(events: seq<Event<T>>): seq<T> {
    if events == [] then []
    else (if events[0].Pushed? then [events[0].item] else []) + Items(events[1..])
  }

  predicate DoneBefore<T>(q: Queue<T>, i: nat) { forall j | 0 <= j < i && j < |q.links| :: q.links[j].phase.Done? }

  /** Each link waits for the one before it, unless everything before it was done when it was pushed. */
  ghost predicate Inv<T>(q: Queue<T>) {
    && (forall i | 0 <= i < |q.links| ::
          if q.links[i].after.Some? then i > 0 && q.links[i].after == Some(i - 1) else DoneBefore(q, i))
    && (if q.tail.Some? then |q.links| > 0 && q.tail == Some(|q.links| - 1) && !q.links[|q.links| - 1].phase.Done? else DoneBefore(q, |q.links|))
    && (forall i | 0 <= i < |q.links| && !q.links[i].phase.Blocked? :: DoneBefore(q, i))
    && |q.started| <= |q.links|
    && (forall i | 0 <= i < |q.links| :: !q.links[i].phase.Blocked? <==> i < |q.started|)
    && (forall k | 0 <= k < |q.started| :: q.started[k] == k)
  }

  lemma NextToBegin<T>(q: Queue<T>, i: nat)
    requires Inv(q) && MayBegin(q, i)
    ensures DoneBefore(q, i) && i == |q.started|
  {
    if q.links[i].after.Some? {
      assert DoneBefore(q, i - 1);
    }
    assert i > 0 ==> q.links[i - 1].phase.Done?;
  }

  lemma BeginKeeps<T>(q: Queue<T>, i: nat)
    requires Inv(q) && MayBegin(q, i)
    ensures Inv(Step(q, Begun(i)).value)
  {
    NextToBegin(q, i);
  }

  lemma FinishKeeps<T>(q: Queue<T>, i: nat)
    requires Inv(q) && i < |q.links| && q.links[i].phase.Running?
    ensures Inv(Finish(q, i))
  {
  }

  lemma PushKeeps<T>(q: Queue<T>, item: T)
    requires Inv(q)
    ensures Inv(Push(q, item))
  {
  }

  lemma StepKeeps<T>(q: Queue<T>, e: Event<T>)
    requires Inv(q)
    ensures Step(q, e).Some? ==> Inv(Step(q, e).value)
  {
    hide Inv, MayBegin;
    if Step(q, e).Some? {
      match e {
        case Pushed(item) => PushKeeps(q, item);
        case Begun(i) => BeginKeeps(q, i);
        case Finished(i) => FinishKeeps(q, i);
      }
    }
  }

  lemma {:induction false} RunKeeps<T>(q: Queue<T>, events: seq<Event<T>>)
    requires Inv(q)
    ensures Run(q, events).Some? ==> Inv(Run(q, events).value)
    decreases |events|
  {
    if events != [] && Step(q, events[0]).Some? {
      StepKeeps(q, events[0]);
      RunKeeps(Step(q, events[0]).value, events[1..]);
    }
  }

  function ItemsOf<T>(links: seq<Link<T>>): seq<T> { seq(|links|, i requires 0 <= i < |links| => links[i].item) }

  /** Links stay, in place, and a finished one stays finished. */
  lemma {:induction false} RunExtends<T>(q: Queue<T>, events: seq<Event<T>>)
    requires Run(q, events).Some?
    ensures var r := Run(q, events).value;
      && ItemsOf(r.links) == ItemsOf(q.links) + Items(events)
      && |q.links| <= |r.links| && forall i | 0 <= i < |q.links| && q.links[i].phase.Done? :: r.links[i].phase.Done?
    decreases |events|
  {
    if events != [] {
      var m := Step(q, events[0]).value;
      assert ItemsOf(m.links) == ItemsOf(q.links) + (if events[0].Pushed? then [events[0].item] else []);
      RunExtends(m, events[1..]);
    }
  }

  /** Items start in the order they were pushed, each once, and one at a time. */
  lemma RunsInPushOrder<T>(events: seq<Event<T>>)
    requires Run(Empty<T>(), events).Some?
    ensures var r := Run(Empty<T>(), events).value;
      && ItemsOf(r.links) == Items(events)
      && (forall k | 0 <= k < |r.started| :: r.started[k] == k)
      && (forall i, j | 0 <= i < j < |r.links| && r.links[i].phase.Running? :: r.links[j].phase.Blocked?)
  {
    var empty := Empty<T>();
    RunKeeps(empty, events);
    RunExtends(empty, events);
    assert ItemsOf(empty.links) + Items(events) == Items(events);
    var r := Run(empty, events).value;
    forall i, j | 0 <= i < j < |r.links| && r.links[i].phase.Running? ensures r.links[j].phase.Blocked? {
      assert !r.links[j].phase.Blocked? ==> DoneBefore(r, j);
    }
  }

  /** The promise `drain` returns: once it is resolved, everything pushed before the call has run. */
  lemma DrainCoversEarlierPushes<T>(q: Queue<T>, events: seq<Event<T>>)
    requires Inv(q) && Run(q, events).Some?
    requires var r := Run(q, events).value; q.tail.None? || (q.tail.value < |r.links| && r.links[q.tail.value].phase.Done?)
    ensures DoneBefore(Run(q, events).value, |q.links|)
  {
    RunKeeps(q, events);
    RunExtends(q, events);
    var r := Run(q, events).value;
    if q.tail.Some? {
      assert DoneBefore(r, q.tail.value);
    }
  }

  /** Over every run a drain waits exactly if something that was pushed has not run: the tail is forgotten with its last item. */
  lemma DrainWaitsIff<T>(events: seq<Event<T>>)
    requires Run(Empty<T>(), events).Some?
    ensures var q := Run(Empty<T>(), events).value; q.tail.None? <==> DoneBefore(q, |q.links|)
  {
    RunKeeps(Empty<T>(), events);
  }

  /** Nothing that was pushed is stuck: unless all is done, some item may begin or is running. */
  lemma NothingIsStuck<T>(q: Queue<T>)
    requires Inv(q) && !DoneBefore(q, |q.links|)
    ensures exists i: nat :: MayBegin(q, i) || (i < |q.links| && q.links[i].phase.Running?)
  {
    var i: nat :| i < |q.links| && !q.links[i].phase.Done?;
    FirstUndone(q, i);
  }

  lemma {:induction false} FirstUndone<T>(q: Queue<T>, i: nat)
    requires Inv(q) && i < |q.links| && !q.links[i].phase.Done?
    ensures exists k: nat :: MayBegin(q, k) || (k < |q.links| && q.links[k].phase.Running?)
    decreases i
  {
    if q.links[i].phase.Blocked? && q.links[i].after.Some? && !q.links[i - 1].phase.Done? {
      FirstUndone(q, i - 1);
    } else {
      assert MayBegin(q, i) || q.links[i].phase.Running?;
    }
  }

  // ---------------------------------------------------------------- the object, for all keys

  type Key = string

  /** `tails` is the program's; the links hang on the promises, and `begun` is what the caller's `run` sees. */
  class KeyedQueue<T> {
    var tails: map<Key, nat>
    ghost var chains: Key -> seq<Link<T>>
    ghost var begun: Key -> seq<nat>

    ghost function View(k: Key): Queue<T>
      reads this
    {
      Queue(chains(k), if k in tails then Some(tails[k]) else None, begun(k))
    }

    constructor ()
      ensures forall k :: View(k) == Empty<T>()
    {
      tails, chains, begun := map[], k => [], k => [];
    }

    /** Chains `item` behind the tail; `link` names the promise that becomes the new one. */
    method PushItem(key: Key, item: T, link: nat)
      requires link == |View(key).links|
      modifies this`tails, this`chains
      ensures View(key) == Push(old(View(key)), item)
      ensures forall k | k != key :: View(k) == old(View(k))
    {
      ghost var was, prev := chains, View(key).tail;
      chains := k => if k == key then was(k) + [Link(item, prev, Blocked)] else was(k);
      tails := tails[key := link];
    }

    /** The promise in front has resolved, and the item is run. */
    ghost method BeginItem(key: Key, link: nat)
      requires MayBegin(View(key), link)
      modifies this`chains, this`begun
      ensures Some(View(key)) == Step(old(View(key)), Begun(link))
      ensures forall k | k != key :: View(k) == old(View(k))
    {
      var was, log := chains, begun;
      chains := k => if k == key && link < |was(k)| then was(k)[link := was(k)[link].(phase := Running)] else was(k);
      begun := k => if k == key then log(k) + [link] else log(k);
    }

    /** The last callback of a link, whether its item succeeded or failed. */
    method ItemSettled(key: Key, link: nat)
      requires link < |View(key).links| && View(key).links[link].phase.Running?
      modifies this`tails, this`chains
      ensures Some(View(key)) == Step(old(View(key)), Finished(link))
      ensures forall k | k != key :: View(k) == old(View(k))
    {
      ghost var was := chains;
      chains := k => if k == key && link < |was(k)| then was(k)[link := was(k)[link].(phase := Done)] else was(k);
      if key in tails && tails[key] == link {
        tails := tails - {key};
      }
    }

    /** The promise a drain waits for; none means that it resolves at once, because everything has run. */
    method Drain(key: Key) returns (link: Option<nat>)
      ensures link == View(key).tail
      ensures Inv(View(key)) && link.None? ==> DoneBefore(View(key), |View(key).links|)
    {
      link := if key in tails then Some(tails[key]) else None;
    }
  }
}
