/**
 The latest-wins writer (keyed-writes.ts) and the plan snapshot it keeps (session.ts): the life of
 one key, and the object that serves all keys.
 */
module CoalescedWrites {
  import opened Wrappers

  type Key = string
  type Plan = seq<string>
  type Waiter = nat

  /**
   What a key has seen: `flying` counts writes that have not landed, `carrying` is what the newest
   one read, `covered` the requests made before it started, `resolved` the drains that were answered.
   */
  datatype Record = Record(
    flying: nat, carrying: Option<Plan>, writes: nat, requests: nat, covered: nat, resolved: seq<Waiter>)

  datatype Slot = Slot(inFlight: bool, pending: bool, waiters: seq<Waiter>, seen: Record)

  const IDLE := Slot(false, false, [], Record(0, None, 0, 0, 0, []))

  predicate Idle(s: Slot) { !s.inFlight && !s.pending }

  function SettleWaiters(s: Slot): Slot {
    if Idle(s) then s.(waiters := [], seen := s.seen.(resolved := s.seen.resolved + s.waiters)) else s
  }

  /** `run`: starts a write that reads `plan` now, or coalesces; `throws` is a synchronous failure. */
  function Start(s: Slot, plan: Option<Plan>, throws: bool): Slot {
    if s.inFlight then s.(pending := true)
    else if throws then SettleWaiters(s.(pending := false, seen := s.seen.(writes := s.seen.writes + 1)))
    else s.(inFlight := true,
            seen := s.seen.(flying := s.seen.flying + 1, carrying := plan, writes := s.seen.writes + 1, covered := s.seen.requests))
  }

  function Request(s: Slot, plan: Option<Plan>, throws: bool): Slot {
    Start(s.(seen := s.seen.(requests := s.seen.requests + 1)), plan, throws)
  }

  /** The promise of the write has settled: free the slot, follow up, answer drains. */
  function Settle(s: Slot, plan: Option<Plan>, throws: bool): Slot {
    var free := s.(inFlight := false, pending := false);
    SettleWaiters(if s.pending then Start(free, plan, throws) else free)
  }

  function Drain(s: Slot, w: Waiter): Slot {
    if Idle(s) then s.(seen := s.seen.(resolved := s.seen.resolved + [w])) else s.(waiters := s.waiters + [w])
  }

  function Cancel(s: Slot): Slot { SettleWaiters(s.(pending := false)) }

  // ---------------------------------------------------------------- one key with its plan and its file

  /**
   `plan` is the ledger in memory, `None` once its session is gone, and `file` the durable copy.
   `dirty`: the plan changed after the last request. `given`: the last request was given up, because
   it was cancelled or the write that covers it failed.
   */
  datatype State = State(slot: Slot, plan: Option<Plan>, file: Option<Plan>, dirty: bool, given: bool)

  const START := State(IDLE, Some([]), None, true, false)

  datatype Event =
    | Changed(plan: Option<Plan>) | Requested(throws: bool) | Landed(ok: bool) | Settled(throws: bool)
    | Drained(w: Waiter) | Cancelled

  function Step(s: State, e: Event): Option<State> {
    match e
    case Changed(p) => Some(s.(plan := p, dirty := true))
    case Requested(throws) =>
      Some(s.(slot := Request(s.slot, s.plan, throws), dirty := false, given := throws && !s.slot.inFlight))
    case Landed(ok) =>
      if s.slot.seen.flying == 0 then None
      else Some(s.(slot := s.slot.(seen := s.slot.seen.(flying := s.slot.seen.flying - 1)),
                   file := if ok && s.slot.seen.carrying.Some? then s.slot.seen.carrying else s.file,
                   given := s.given || (!ok && !s.slot.pending)))
    case Settled(throws) =>
      if !s.slot.inFlight || s.slot.seen.flying > 0 then None
      else Some(s.(slot := Settle(s.slot, s.plan, throws), given := s.given || (s.slot.pending && throws)))
    case Drained(w) => Some(s.(slot := Drain(s.slot, w)))
    case Cancelled => Some(s.(slot := Cancel(s.slot), given := s.given || s.slot.pending))
  }

  function Run(s: State, events: seq<Event>): Option<State>
    decreases |events|
  {
    if events == [] then Some(s)
    else
      var t := Step(s, events[0]);
      if t.None? then None else Run(t.value, events[1..])
  }

  /** One write at a time, a follow-up only behind one, never more writes than requests, no drain left behind. */
  ghost predicate SlotInv(s: Slot) {
    && s.seen.flying <= (if s.inFlight then 1 else 0)
    && (s.pending ==> s.inFlight)
    && s.seen.writes + (if s.pending then 1 else 0) <= s.seen.requests
    && s.seen.covered <= s.seen.requests
    && (Idle(s) ==> s.waiters == [])
  }

  /** The request that is not given up is on disk, in a write that read it, or ahead of a follow-up. */
  ghost predicate Covered(s: State) {
    !s.dirty && !s.given && s.plan.Some? && !s.slot.pending ==>
      if s.slot.seen.flying > 0 then s.slot.seen.carrying == s.plan else s.file == s.plan
  }

  ghost predicate Inv(s: State) {
    && SlotInv(s.slot) && Covered(s)
    && (s.slot.seen.covered < s.slot.seen.requests ==> s.slot.pending || s.given)
  }

  lemma StepKeeps(s: State, e: Event)
    requires Inv(s)
    ensures Step(s, e).Some? ==> Inv(Step(s, e).value)
  {
  }

  lemma {:induction false} RunKeeps(s: State, events: seq<Event>)
    requires Inv(s)
    ensures Run(s, events).Some? ==> Inv(Run(s, events).value)
    decreases |events|
  {
    if events != [] && Step(s, events[0]).Some? {
      StepKeeps(s, events[0]);
      RunKeeps(Step(s, events[0]).value, events[1..]);
    }
  }

  /**
   At most one write is in flight, a follow-up waits only behind one, and every request is followed by
   a write that starts at or after it, or its follow-up is still due, or it was given up.
   */
  lemma OneWriteInFlight(events: seq<Event>)
    requires Run(START, events).Some?
    ensures var s := Run(START, events).value; var r := s.slot.seen;
      && r.flying <= 1 && (s.slot.pending ==> s.slot.inFlight) && r.writes <= r.requests
      && (s.slot.pending || s.given || r.covered == r.requests)
  {
    RunKeeps(START, events);
  }

  /** A drain is answered only when its key is idle, and nobody waits on an idle key. */
  lemma DrainMeansIdle(events: seq<Event>, e: Event)
    requires Run(START, events).Some? && Step(Run(START, events).value, e).Some?
    ensures var s := Run(START, events).value; var t := Step(s, e).value;
      && (t.slot.seen.resolved != s.slot.seen.resolved ==> Idle(t.slot))
      && (Idle(t.slot) ==> t.slot.waiters == [] && s.slot.seen.resolved + s.slot.waiters <= t.slot.seen.resolved)
  {
    RunKeeps(START, events);
  }

  /** Unless the last request was cancelled or its write failed, an idle key's file is the plan as last requested. */
  lemma DrainedFileIsThePlan(events: seq<Event>)
    requires Run(START, events).Some?
    requires var s := Run(START, events).value; Idle(s.slot) && !s.given && !s.dirty && s.plan.Some?
    ensures Run(START, events).value.file == Run(START, events).value.plan
  {
    RunKeeps(START, events);
  }

  function Asked(events: seq<Event>): multiset<Waiter> {
    if events == [] then multiset{}
    else (if events[0].Drained? then multiset{events[0].w} else multiset{}) + Asked(events[1..])
  }

  lemma StepKeepsWaiters(s: State, e: Event)
    requires Step(s, e).Some?
    ensures var r, t := s.slot, Step(s, e).value.slot;
      multiset(t.seen.resolved) + multiset(t.waiters) == multiset(r.seen.resolved) + multiset(r.waiters) + Asked([e])
  {
    assert [e][1..] == [];
  }

  lemma {:induction false} RunKeepsWaiters(s: State, events: seq<Event>)
    requires Run(s, events).Some?
    ensures var r, t := s.slot, Run(s, events).value.slot;
      multiset(t.seen.resolved) + multiset(t.waiters) == multiset(r.seen.resolved) + multiset(r.waiters) + Asked(events)
    decreases |events|
  {
    hide Step;
    if events != [] {
      StepKeepsWaiters(s, events[0]);
      assert [events[0]][1..] == [];
      RunKeepsWaiters(Step(s, events[0]).value, events[1..]);
    }
  }

  /** Every drain that was asked for has been answered once or still waits, and on an idle key all have been answered. */
  lemma DrainsAreAnswered(events: seq<Event>)
    requires Run(START, events).Some?
    ensures var t := Run(START, events).value.slot;
      && multiset(t.seen.resolved) + multiset(t.waiters) == Asked(events)
      && (Idle(t) ==> multiset(t.seen.resolved) == Asked(events))
  {
    RunKeeps(START, events);
    RunKeepsWaiters(START, events);
  }

  /** A cancelled key starts no further write, and the write in flight goes on. */
  lemma CancelEffect(s: Slot)
    ensures !Cancel(s).pending && Cancel(s).inFlight == s.inFlight && Cancel(s).seen.writes == s.seen.writes
  {
  }

  // ---------------------------------------------------------------- the object, for all keys

  class CoalescedWriter {
    var inFlight: set<Key>
    var pending: set<Key>
    var waiters: map<Key, seq<Waiter>>
    ghost var seen: Key -> Record

    ghost function View(k: Key): Slot
      reads this
    {
      Slot(k in inFlight, k in pending, if k in waiters then waiters[k] else [], seen(k))
    }

    constructor ()
      ensures forall k :: View(k) == IDLE
    {
      inFlight, pending, waiters := {}, {}, map[];
      seen := k => IDLE.seen;
    }

    method AnswerWaiters(key: Key)
      modifies this`waiters, this`seen
      ensures View(key) == SettleWaiters(old(View(key)))
      ensures forall k | k != key :: View(k) == old(View(k))
    {
      if key in inFlight || key in pending { return; }
      if key !in waiters { return; }
      ghost var was, list := seen, waiters[key];
      seen := k => if k == key then was(k).(resolved := was(k).resolved + list) else was(k);
      waiters := waiters - {key};
    }

    /** `run` with the write starting, or throwing before it starts. */
    method Begin(key: Key, ghost plan: Option<Plan>, throws: bool)
      modifies this
      ensures View(key) == Start(old(View(key)), plan, throws)
      ensures forall k | k != key :: View(k) == old(View(k))
    {
      if key in inFlight {
        pending := pending + {key};
        return;
      }
      ghost var was := seen;
      if throws {
        pending := pending - {key};
        seen := k => if k == key then was(k).(writes := was(k).writes + 1) else was(k);
        AnswerWaiters(key);
        return;
      }
      seen := k => if k == key then was(k).(flying := was(k).flying + 1, carrying := plan, writes := was(k).writes + 1, covered := was(k).requests)
                   else was(k);
      inFlight := inFlight + {key};
    }

    method Write(key: Key, ghost plan: Option<Plan>, throws: bool)
      modifies this
      ensures View(key) == Request(old(View(key)), plan, throws)
      ensures forall k | k != key :: View(k) == old(View(k))
    {
      ghost var was := seen;
      seen := k => if k == key then was(k).(requests := was(k).requests + 1) else was(k);
      Begin(key, plan, throws);
    }

    /** The continuation of a write that has settled. */
    method Settled(key: Key, ghost plan: Option<Plan>, throws: bool)
      requires key in inFlight
      modifies this
      ensures View(key) == Settle(old(View(key)), plan, throws)
      ensures forall k | k != key :: View(k) == old(View(k))
    {
      inFlight := inFlight - {key};
      if key in pending {
        pending := pending - {key};
        Begin(key, plan, throws);
      }
      AnswerWaiters(key);
    }

    method AwaitDrain(key: Key, w: Waiter)
      modifies this`waiters, this`seen
      ensures View(key) == Drain(old(View(key)), w)
      ensures forall k | k != key :: View(k) == old(View(k))
    {
      if key !in inFlight && key !in pending {
        ghost var was := seen;
        seen := k => if k == key then was(k).(resolved := was(k).resolved + [w]) else was(k);
        return;
      }
      waiters := waiters[key := (if key in waiters then waiters[key] else []) + [w]];
    }

    method CancelFollowUp(key: Key)
      modifies this`pending, this`waiters, this`seen
      ensures View(key) == Cancel(old(View(key)))
      ensures forall k | k != key :: View(k) == old(View(k))
    {
      pending := pending - {key};
      AnswerWaiters(key);
    }
  }
}
