/**
 One sub-agent group (subagent-group.ts, session.ts): its circuit breaker, the map phase with its two
 abort scopes, the reduce stage and the status it reports.
 */
module GroupRun {
  import opened Wrappers

  datatype Status = Done | Partial | Failed | TimedOut | Skipped

  predicate IsFailure(s: Status) { s.Failed? || s.TimedOut? }

  // ---------------------------------------------------------------- the circuit breaker

  datatype Breaker = Breaker(window: nat, completed: nat, failed: nat, succeeded: nat, trippedAtWindow: bool)

  function Record(b: Breaker, s: Status): Breaker {
    if s.Skipped? then b
    else
      var c := b.(completed := b.completed + 1, succeeded := b.succeeded + (if s.Done? then 1 else 0),
                  failed := b.failed + (if IsFailure(s) then 1 else 0));
      c.(trippedAtWindow := c.trippedAtWindow || (c.completed == c.window && c.failed == c.window))
  }

  predicate Tripped(b: Breaker) { b.trippedAtWindow && b.succeeded == 0 }

  /** The breaker after a sequence of completions. */
  function After(window: nat, order: seq<Status>): Breaker {
    if order == [] then Breaker(window, 0, 0, 0, false)
    else Record(After(window, order[..|order| - 1]), order[|order| - 1])
  }

  function Completions(order: seq<Status>): seq<Status> {
    if order == [] then []
    else Completions(order[..|order| - 1]) + if order[|order| - 1].Skipped? then [] else [order[|order| - 1]]
  }

  predicate AllFailed(order: seq<Status>) { forall i | 0 <= i < |order| :: IsFailure(order[i]) }

  predicate NoneDone(order: seq<Status>) { forall i | 0 <= i < |order| :: !order[i].Done? }

  lemma AfterNext(window: nat, order: seq<Status>, s: Status)
    ensures After(window, order + [s]) == Record(After(window, order), s)
    ensures Completions(order + [s]) == if s.Skipped? then Completions(order) else Completions(order) + [s]
  {
  }

  lemma OneMore(c: seq<Status>, s: Status, window: nat)
    ensures AllFailed(c + [s]) <==> AllFailed(c) && IsFailure(s)
    ensures NoneDone(c + [s]) <==> NoneDone(c) && !s.Done?
    ensures window <= |c| ==> (c + [s])[..window] == c[..window]
    ensures window == |c| + 1 ==> (c + [s])[..window] == c + [s]
  {
    assert (c + [s])[|c|] == s && forall i | 0 <= i < |c| :: (c + [s])[i] == c[i];
  }

  /** What the counters mean. */
  lemma {:induction false} BreakerCounts(window: nat, order: seq<Status>)
    ensures var b, c := After(window, order), Completions(order);
      && b.window == window && b.completed == |c| && b.failed <= |c| && (b.failed == |c| <==> AllFailed(c))
      && (b.succeeded == 0 <==> NoneDone(c))
      && (b.trippedAtWindow <==> 0 < window <= |c| && AllFailed(c[..window]))
  {
    if order != [] {
      var before, last := order[..|order| - 1], order[|order| - 1];
      assert order == before + [last];
      BreakerCounts(window, before);
      AfterNext(window, before, last);
      OneMore(Completions(before), last, window);
      hide After, Completions, AllFailed, NoneDone;
    }
  }

  /**
   For every completion order: the breaker is tripped exactly when the first `window` items to complete
   all failed and none has succeeded. Skipped items are no completions, a partial one is neither.
   */
  lemma TrippedIff(window: nat, order: seq<Status>)
    ensures Tripped(After(window, order)) <==>
      var c := Completions(order); 0 < window <= |c| && AllFailed(c[..window]) && NoneDone(c)
  {
    BreakerCounts(window, order);
  }

  class GroupCircuitBreaker {
    const window: nat
    var completed: nat
    var failed: nat
    var succeeded: nat
    var trippedAtWindow: bool
    ghost var order: seq<Status>

    ghost function View(): Breaker
      reads this
    {
      Breaker(window, completed, failed, succeeded, trippedAtWindow)
    }

    ghost predicate Valid()
      reads this
    {
      View() == After(window, order)
    }

    constructor (window: nat)
      ensures Valid() && this.window == window && order == []
    {
      this.window, completed, failed, succeeded, trippedAtWindow, order := window, 0, 0, 0, false, [];
    }

    method RecordStatus(status: Status)
      requires Valid()
      modifies this
      ensures Valid() && order == old(order) + [status]
    {
      hide After, Completions;
      AfterNext(window, order, status);
      order := order + [status];
      if status.Skipped? { return; }
      completed := completed + 1;
      if status.Done? {
        succeeded := succeeded + 1;
      } else if status.Failed? || status.TimedOut? {
        failed := failed + 1;
      }
      if completed == window && failed == window { trippedAtWindow := true; }
    }

    method IsTripped() returns (tripped: bool)
      requires Valid()
      ensures tripped <==>
        var c := Completions(order); 0 < window <= |c| && AllFailed(c[..window]) && NoneDone(c)
    {
      TrippedIff(window, order);
      tripped := trippedAtWindow && succeeded == 0;
    }
  }

  // ---------------------------------------------------------------- the group

  /** An item: not submitted, waiting for a slot, running, or over. `child`: a child session exists. */
  datatype ItemPhase = Queued | AwaitingSlot | Running | Over(status: Status)

  datatype Item = Item(phase: ItemPhase, child: bool)

  datatype ReduceOutcome = NotReached | CancelSkipped | NotWarranted | Succeeded | Broke

  datatype Stage = Mapping | Reducing | Reported(status: Status, reduce: ReduceOutcome)

  /** `completions` lists the items that completed, in order, with the status recorded for each. */
  datatype Group = Group(
    items: seq<Item>, breaker: Breaker, completions: seq<(nat, Status)>,
    mapAborted: bool, userAborted: bool, timedOut: bool, reduceWanted: bool, stage: Stage)

  function Start(total: nat, window: nat, reduceWanted: bool, alreadyAborted: bool): Group {
    Group(seq(total, i => Item(Queued, false)), After(window, []), [], alreadyAborted, alreadyAborted, false, reduceWanted, Mapping)
  }

  datatype Event =
    | Submitted(i: nat) | SlotTaken(i: nat) | Finished(i: nat, status: Status)
    | UserAborted | TimerFired | MapEnded | ReduceEnded(ok: bool)

  predicate MapOver(g: Group) { forall i | 0 <= i < |g.items| :: g.items[i].phase.Over? }

  predicate AllDone(g: Group) { forall i | 0 <= i < |g.items| :: g.items[i].phase == Over(Done) }

  predicate AnyWith(g: Group, s: Status) { exists i :: 0 <= i < |g.items| && g.items[i].phase == Over(s) }

  /** The status ladder. */
  function Ladder(g: Group, reduce: ReduceOutcome): Status {
    if Tripped(g.breaker) then Failed
    else if AllDone(g) then (if reduce.Broke? || reduce.CancelSkipped? then Partial else Done)
    else if !AnyWith(g, Done) && !AnyWith(g, Partial) then Failed
    else if g.userAborted then Partial
    else if g.timedOut then TimedOut
    else Partial
  }

  function Report(g: Group, reduce: ReduceOutcome): Group { g.(stage := Reported(Ladder(g, reduce), reduce)) }

  function SetItem(g: Group, i: nat, x: Item): Group
    requires i < |g.items|
  {
    g.(items := g.items[i := x])
  }

  function Step(g: Group, e: Event): Option<Group> {
    match e
    case Submitted(i) =>
      if !g.stage.Mapping? || i >= |g.items| || !g.items[i].phase.Queued? then None
      else Some(SetItem(g, i, if g.mapAborted || Tripped(g.breaker) then Item(Over(Skipped), false) else Item(AwaitingSlot, false)))
    case SlotTaken(i) =>
      if !g.stage.Mapping? || i >= |g.items| || !g.items[i].phase.AwaitingSlot? then None
      else Some(SetItem(g, i, if g.mapAborted then Item(Over(Skipped), false) else Item(Running, true)))
    case Finished(i, status) =>
      if !g.stage.Mapping? || i >= |g.items| || !g.items[i].phase.Running? || status.Skipped? then None
      else
        var b := Record(g.breaker, status);
        Some(SetItem(g, i, Item(Over(status), true)).(breaker := b, completions := g.completions + [(i, status)],
                                                     mapAborted := g.mapAborted || Tripped(b)))
    case UserAborted => if g.stage.Reported? then None else Some(g.(userAborted := true, mapAborted := true))
    case TimerFired => if !g.stage.Mapping? then None else Some(g.(timedOut := true, mapAborted := true))
    case MapEnded =>
      if !g.stage.Mapping? || !MapOver(g) then None
      else if !g.reduceWanted then Some(Report(g, NotReached))
      else if g.userAborted then Some(Report(g, CancelSkipped))
      else if AnyWith(g, Done) && !Tripped(g.breaker) then Some(g.(stage := Reducing))
      else Some(Report(g, NotWarranted))
    case ReduceEnded(ok) => if !g.stage.Reducing? then None else Some(Report(g, if ok then Succeeded else Broke))
  }

  function Run(g: Group, events: seq<Event>): Option<Group>
    decreases |events|
  {
    if events == [] then Some(g)
    else
      var h := Step(g, events[0]);
      if h.None? then None else Run(h.value, events[1..])
  }

  function Statuses(completions: seq<(nat, Status)>): seq<Status> {
    seq(|completions|, k requires 0 <= k < |completions| => completions[k].1)
  }

  /** An item has a child session exactly if it was started; only never-started items are skipped. */
  predicate ItemInv(x: Item) {
    match x.phase
    case Queued => !x.child
    case AwaitingSlot => !x.child
    case Running => x.child
    case Over(s) => x.child <==> !s.Skipped?
  }

  predicate Completed(g: Group, i: nat) { exists k :: 0 <= k < |g.completions| && g.completions[k].0 == i }

  ghost predicate Inv(g: Group, window: nat) {
    && (forall i | 0 <= i < |g.items| :: ItemInv(g.items[i]))
    && g.breaker == After(window, Statuses(g.completions))
    && (forall k | 0 <= k < |g.completions| ::
          g.completions[k].0 < |g.items| && g.items[g.completions[k].0].phase == Over(g.completions[k].1) && !g.completions[k].1.Skipped?)
    && (forall i | 0 <= i < |g.items| && g.items[i].child && g.items[i].phase.Over? :: Completed(g, i))
    && (Tripped(g.breaker) ==> g.mapAborted)
    && (!g.stage.Mapping? ==> MapOver(g))
    && (g.stage.Reducing? ==> !Tripped(g.breaker) && g.reduceWanted)
    && (g.stage.Reported? ==> g.stage.status == Ladder(g, g.stage.reduce) && (g.reduceWanted <==> !g.stage.reduce.NotReached?))
  }

  lemma StatusesNext(completions: seq<(nat, Status)>, c: (nat, Status), window: nat)
    ensures After(window, Statuses(completions + [c])) == Record(After(window, Statuses(completions)), c.1)
  {
    assert Statuses(completions + [c]) == Statuses(completions) + [c.1];
    AfterNext(window, Statuses(completions), c.1);
  }

  lemma FinishKeeps(g: Group, i: nat, status: Status, window: nat)
    requires Inv(g, window) && Step(g, Finished(i, status)).Some?
    ensures Inv(Step(g, Finished(i, status)).value, window)
  {
    hide After, Statuses;
    StatusesNext(g.completions, (i, status), window);
    var h := Step(g, Finished(i, status)).value;
    forall j | 0 <= j < |h.items| && h.items[j].child && h.items[j].phase.Over? ensures Completed(h, j) {
      if j == i {
        assert h.completions[|g.completions|].0 == i;
      } else {
        var k :| 0 <= k < |g.completions| && g.completions[k].0 == j;
        assert h.completions[k].0 == j;
      }
    }
  }

  lemma ItemKeeps(g: Group, e: Event, window: nat)
    requires Inv(g, window) && (e.Submitted? || e.SlotTaken?)
    ensures Step(g, e).Some? ==> Inv(Step(g, e).value, window)
  {
    hide After, Statuses, Ladder;
    if Step(g, e).Some? {
      var h := Step(g, e).value;
      forall j | 0 <= j < |h.items| && h.items[j].child && h.items[j].phase.Over? ensures Completed(h, j) {
        assert Completed(g, j);
      }
    }
  }

  lemma MapEndKeeps(g: Group, window: nat)
    requires Inv(g, window)
    ensures Step(g, MapEnded).Some? ==> Inv(Step(g, MapEnded).value, window)
  {
    hide After, Statuses, ItemInv;
    if Step(g, MapEnded).Some? { SameItems(g, Step(g, MapEnded).value); }
  }

  lemma SameItems(g: Group, h: Group)
    requires h.items == g.items && h.completions == g.completions
    requires forall i | 0 <= i < |g.items| && g.items[i].child && g.items[i].phase.Over? :: Completed(g, i)
    ensures forall i | 0 <= i < |h.items| && h.items[i].child && h.items[i].phase.Over? :: Completed(h, i)
  {
    forall j | 0 <= j < |h.items| && h.items[j].child && h.items[j].phase.Over? ensures Completed(h, j) {
      assert Completed(g, j);
    }
  }

  lemma StageKeeps(g: Group, e: Event, window: nat)
    requires Inv(g, window) && (e.UserAborted? || e.TimerFired? || e.MapEnded? || e.ReduceEnded?)
    ensures Step(g, e).Some? ==> Inv(Step(g, e).value, window)
  {
    hide After, Statuses, ItemInv;
    if e.MapEnded? {
      MapEndKeeps(g, window);
    } else if Step(g, e).Some? {
      SameItems(g, Step(g, e).value);
    }
  }

  lemma StepKeeps(g: Group, e: Event, window: nat)
    requires Inv(g, window)
    ensures Step(g, e).Some? ==> Inv(Step(g, e).value, window)
  {
    hide Inv;
    if Step(g, e).Some? {
      if e.Finished? {
        FinishKeeps(g, e.i, e.status, window);
      } else if e.Submitted? || e.SlotTaken? {
        ItemKeeps(g, e, window);
      } else {
        StageKeeps(g, e, window);
      }
    }
  }

  lemma {:induction false} RunKeeps(g: Group, events: seq<Event>, window: nat)
    requires Inv(g, window)
    ensures Run(g, events).Some? ==> Inv(Run(g, events).value, window)
    decreases |events|
  {
    if events != [] && Step(g, events[0]).Some? {
      StepKeeps(g, events[0], window);
      RunKeeps(Step(g, events[0]).value, events[1..], window);
    }
  }

  lemma StartKeeps(total: nat, window: nat, reduceWanted: bool, alreadyAborted: bool)
    ensures Inv(Start(total, window, reduceWanted, alreadyAborted), window)
  {
  }

  // ---------------------------------------------------------------- what holds of every group

  /** Once the map is aborted, by a tripped breaker, the timer or the user, it stays so and no child starts. */
  lemma {:induction false} AbortIsFinal(g: Group, events: seq<Event>, i: nat)
    requires g.mapAborted && i < |g.items| && Run(g, events).Some?
    ensures var h := Run(g, events).value;
      h.mapAborted && i < |h.items| && (h.items[i].child ==> g.items[i].child || g.items[i].phase.Running?)
    decreases |events|
  {
    if events != [] {
      AbortIsFinal(Step(g, events[0]).value, events[1..], i);
    }
  }

  ghost predicate Reachable(g: Group, window: nat) {
    exists total: nat, wanted: bool, aborted: bool, events: seq<Event> {:trigger Run(Start(total, window, wanted, aborted), events)} ::
      Run(Start(total, window, wanted, aborted), events) == Some(g)
  }

  lemma ReachableInv(g: Group, window: nat)
    requires Reachable(g, window)
    ensures Inv(g, window)
  {
    var total: nat, wanted: bool, aborted: bool, events: seq<Event> :| Run(Start(total, window, wanted, aborted), events) == Some(g);
    StartKeeps(total, window, wanted, aborted);
    RunKeeps(Start(total, window, wanted, aborted), events, window);
  }

  /** After the breaker first trips no further child is started, even if a late success releases it again. */
  lemma NoChildAfterTrip(g: Group, window: nat, events: seq<Event>, i: nat)
    requires Reachable(g, window) && Tripped(g.breaker) && i < |g.items| && Run(g, events).Some?
    ensures var h := Run(g, events).value; i < |h.items| && (h.items[i].child ==> g.items[i].child)
  {
    ReachableInv(g, window);
    AbortIsFinal(g, events, i);
    assert ItemInv(g.items[i]);
  }

  /** Which completion orders trip a running group. */
  lemma GroupTripsIff(g: Group, window: nat)
    requires Reachable(g, window)
    ensures Tripped(g.breaker) <==>
      0 < window <= |g.completions| && (forall k | 0 <= k < window :: IsFailure(g.completions[k].1)) && !AnyWith(g, Done)
  {
    hide After;
    ReachableInv(g, window);
    var order := Statuses(g.completions);
    TrippedIff(window, order);
    NothingSkipped(order);
    DoneIsRecorded(g, window);
    if window <= |order| { assert forall k | 0 <= k < window :: order[..window][k] == g.completions[k].1; }
  }

  lemma {:induction false} NothingSkipped(order: seq<Status>)
    requires forall k | 0 <= k < |order| :: !order[k].Skipped?
    ensures Completions(order) == order
  {
    if order != [] { NothingSkipped(order[..|order| - 1]); }
  }

  lemma DoneIsRecorded(g: Group, window: nat)
    requires Inv(g, window)
    ensures NoneDone(Statuses(g.completions)) <==> !AnyWith(g, Done)
  {
    hide After, Ladder;
    var order := Statuses(g.completions);
    if i :| 0 <= i < |g.items| && g.items[i].phase == Over(Done) {
      assert ItemInv(g.items[i]) && Completed(g, i);
      var k :| 0 <= k < |g.completions| && g.completions[k].0 == i;
      assert order[k].Done?;
    }
    if k :| 0 <= k < |order| && order[k].Done? {
      assert g.items[g.completions[k].0].phase == Over(Done);
    }
  }

  /** The group reports done exactly if every item is done and no wanted reduce failed or was skipped by a cancel. */
  lemma ReportsDoneIff(g: Group, window: nat)
    requires Reachable(g, window) && g.stage.Reported?
    ensures g.stage.status.Done? <==> AllDone(g) && !g.stage.reduce.Broke? && !g.stage.reduce.CancelSkipped?
    ensures g.reduceWanted <==> !g.stage.reduce.NotReached?
  {
    hide After;
    ReachableInv(g, window);
    if Tripped(g.breaker) { var i := TrippedHasFailure(g, window); }
  }

  lemma TrippedHasFailure(g: Group, window: nat) returns (i: nat)
    requires Reachable(g, window) && Tripped(g.breaker)
    ensures i < |g.items| && g.items[i].phase.Over? && IsFailure(g.items[i].phase.status)
  {
    hide After;
    ReachableInv(g, window);
    GroupTripsIff(g, window);
    i := g.completions[0].0;
  }

  /** The other reports: failed means tripped or nothing usable, timed out means that something is usable and only the timer got in the way. */
  lemma ReportsFailedIff(g: Group, window: nat)
    requires Reachable(g, window) && g.stage.Reported? && g.items != []
    ensures g.stage.status.Failed? <==> Tripped(g.breaker) || (!AnyWith(g, Done) && !AnyWith(g, Partial))
    ensures g.stage.status.TimedOut? <==>
              g.timedOut && !g.userAborted && !Tripped(g.breaker) && !AllDone(g) && (AnyWith(g, Done) || AnyWith(g, Partial))
    ensures !g.stage.status.Skipped?
  {
    hide After;
    ReachableInv(g, window);
    if AllDone(g) { assert g.items[0].phase == Over(Done); }
  }

  /** In a reported group every item is over, and exactly the items without a child session are skipped. */
  lemma EveryItemEnds(g: Group, window: nat, i: nat)
    requires Reachable(g, window) && g.stage.Reported? && i < |g.items|
    ensures g.items[i].phase.Over? && (g.items[i].phase.status.Skipped? <==> !g.items[i].child)
  {
    ReachableInv(g, window);
    assert ItemInv(g.items[i]);
  }

  // ---------------------------------------------------------------- what each event does

  lemma StartIs(total: nat, window: nat, reduceWanted: bool, alreadyAborted: bool)
    ensures var g := Start(total, window, reduceWanted, alreadyAborted);
      && |g.items| == total && (forall i | 0 <= i < total :: g.items[i].phase.Queued? && !g.items[i].child)
      && g.completions == [] && g.stage.Mapping? && g.reduceWanted == reduceWanted
      && g.userAborted == g.mapAborted == alreadyAborted && !g.timedOut
  {
  }

  ghost predicate OnlyItem(g: Group, h: Group, i: nat, x: Item) {
    && i < |g.items| && |h.items| == |g.items| && h.items[i] == x
    && (forall k | 0 <= k < |g.items| && k != i :: h.items[k] == g.items[k])
    && h.userAborted == g.userAborted && h.timedOut == g.timedOut && h.reduceWanted == g.reduceWanted && h.stage == g.stage
  }

  /** An item is submitted or skipped, gets its child session or is skipped, and completes with what its child reports. */
  lemma ItemEffect(g: Group, i: nat, status: Status, window: nat)
    requires Inv(g, window) && i < |g.items|
    ensures var h := Step(g, Submitted(i));
      && (h.Some? <==> g.stage.Mapping? && g.items[i].phase.Queued?)
      && (h.Some? ==>
            && OnlyItem(g, h.value, i, if g.mapAborted then Item(Over(Skipped), false) else Item(AwaitingSlot, false))
            && h.value.mapAborted == g.mapAborted && h.value.completions == g.completions)
    ensures var h := Step(g, SlotTaken(i));
      && (h.Some? <==> g.stage.Mapping? && g.items[i].phase.AwaitingSlot?)
      && (h.Some? ==>
            && OnlyItem(g, h.value, i, if g.mapAborted then Item(Over(Skipped), false) else Item(Running, true))
            && h.value.mapAborted == g.mapAborted && h.value.completions == g.completions)
    ensures var h := Step(g, Finished(i, status));
      && (h.Some? <==> g.stage.Mapping? && g.items[i].phase.Running? && !status.Skipped?)
      && (h.Some? ==>
            && OnlyItem(g, h.value, i, Item(Over(status), true)) && h.value.completions == g.completions + [(i, status)]
            && (g.mapAborted ==> h.value.mapAborted) && (Tripped(h.value.breaker) ==> h.value.mapAborted))
  {
    hide After;
  }

  /** Stop aborts the map and is remembered until the report, the timer only while the map runs. */
  lemma AbortEffect(g: Group)
    ensures Step(g, UserAborted) == if g.stage.Reported? then None else Some(g.(userAborted := true, mapAborted := true))
    ensures Step(g, TimerFired) == if g.stage.Mapping? then Some(g.(timedOut := true, mapAborted := true)) else None
  {
  }

  /** A finished map is reduced if that is wanted, nobody stopped it, something is done and the breaker held. */
  lemma MapEndEffect(g: Group, ok: bool)
    requires g.stage.Mapping? && forall i | 0 <= i < |g.items| :: g.items[i].phase.Over?
    ensures Step(g, MapEnded).Some?
    ensures var h := Step(g, MapEnded).value; var done := exists i :: 0 <= i < |g.items| && g.items[i].phase == Over(Done);
      && h.items == g.items && h.userAborted == g.userAborted
      && (h.stage.Reducing? <==> g.reduceWanted && !g.userAborted && done && !Tripped(g.breaker))
      && (h.stage.Reducing? || h.stage.Reported?)
      && (h.stage.Reported? && !g.reduceWanted ==> h.stage.reduce == NotReached)
      && (h.stage.Reported? && g.reduceWanted ==> h.stage.reduce == if g.userAborted then CancelSkipped else NotWarranted)
    ensures g.reduceWanted ==>
      var h := Step(g.(stage := Reducing), ReduceEnded(ok)); h.Some? && h.value.stage.Reported? && h.value.stage.reduce == if ok then Succeeded else Broke
  {
  }

  /** After Stop or the timer no child is started. */
  lemma NoChildAfterAbort(g: Group, window: nat, e: Event, events: seq<Event>, i: nat)
    requires Reachable(g, window) && (e.UserAborted? || e.TimerFired?) && Step(g, e).Some? && i < |g.items|
    requires Run(Step(g, e).value, events).Some?
    ensures var h := Run(Step(g, e).value, events).value; i < |h.items| && (h.items[i].child ==> g.items[i].child)
  {
    ReachableInv(g, window);
    AbortIsFinal(Step(g, e).value, events, i);
    assert ItemInv(g.items[i]);
  }

  ghost predicate CauseInv(g: Group) {
    && (g.mapAborted ==> g.userAborted || g.timedOut || g.breaker.trippedAtWindow)
    && (forall i | 0 <= i < |g.items| && g.items[i].phase == Over(Skipped) :: g.mapAborted)
  }

  lemma StepCauses(g: Group, e: Event, window: nat)
    requires Inv(g, window) && CauseInv(g) && Step(g, e).Some?
    ensures CauseInv(Step(g, e).value)
  {
    hide After, Ladder;
  }

  lemma {:induction false} RunCauses(g: Group, events: seq<Event>, window: nat)
    requires Inv(g, window) && CauseInv(g) && Run(g, events).Some?
    ensures CauseInv(Run(g, events).value)
    decreases |events|
  {
    hide Inv, CauseInv, Step;
    if events != [] {
      StepCauses(g, events[0], window);
      StepKeeps(g, events[0], window);
      RunCauses(Step(g, events[0]).value, events[1..], window);
    }
  }

  lemma ReachableCauses(g: Group, window: nat)
    requires Reachable(g, window)
    ensures CauseInv(g)
  {
    var total: nat, wanted: bool, aborted: bool, events: seq<Event> :| Run(Start(total, window, wanted, aborted), events) == Some(g);
    StartKeeps(total, window, wanted, aborted);
    StartIs(total, window, wanted, aborted);
    hide Inv, Run, Step;
    RunCauses(Start(total, window, wanted, aborted), events, window);
  }

  /** An item is skipped only if somebody pressed Stop, the timer fired, or the first `window` completions all failed. */
  lemma SkippedOnlyAfterAbort(g: Group, window: nat, i: nat)
    requires Reachable(g, window) && i < |g.items| && g.items[i].phase == Over(Skipped)
    ensures g.userAborted || g.timedOut || (0 < window <= |g.completions| && forall k | 0 <= k < window :: IsFailure(g.completions[k].1))
  {
    hide After;
    ReachableInv(g, window);
    ReachableCauses(g, window);
    var order := Statuses(g.completions);
    BreakerCounts(window, order);
    NothingSkipped(order);
    if g.breaker.trippedAtWindow { assert forall k | 0 <= k < window :: order[..window][k] == g.completions[k].1; }
  }
}
