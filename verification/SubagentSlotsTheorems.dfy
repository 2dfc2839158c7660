/** No deadlock, every child finishes, first come first served, and a pod slot groups cannot take. */
module SubagentSlotsTheorems {
  import opened Wrappers
  import opened SubagentSlots

  // ---------------------------------------------------------------- no deadlock

  lemma HolderCounts(s: State, t: TaskId, l: LimiterId)
    requires Inv(s) && t < |s.tasks| && HoldsSlot(s.tasks[t], l) && l in s.limiters
    ensures s.limiters[l].active > 0
  {
    assert t in Holders(s.tasks, l);
  }

  /** A task that is not waiting for a slot and not waiting to be started can move by itself. */
  lemma FreeTaskMoves(s: State, t: TaskId) returns (e: Event)
    requires Inv(s) && t < |s.tasks| && !Done(s.tasks[t]) && !s.tasks[t].phase.Waiting? && MayStart(s, s.tasks[t])
    ensures !e.Skips? && Step(s, e).Some?
  {
    var x := s.tasks[t];
    match x.phase {
      case Ready =>
        e := if x.held == |x.plan| then Starts(t) else Takes(t);
        if x.held < |x.plan| { assert x.plan[x.held] in x.plan; }
      case Running =>
        e := Ends(t);
      case Releasing =>
        var l := x.plan[x.held - 1];
        assert x.plan[..x.held][x.held - 1] == l && l in x.plan;
        HolderCounts(s, t, l);
        e := GivesBack(t);
    }
  }

  /** Whoever waits, waits for a slot held by a task that is free or waits further up the order. */
  lemma {:induction false} WaitingIsServed(s: State, t: TaskId) returns (e: Event)
    requires Inv(s) && t < |s.tasks| && s.tasks[t].phase.Waiting?
    ensures !e.Skips? && Step(s, e).Some?
    decreases 3 - Rank(s.tasks[t].plan[s.tasks[t].held])
  {
    var l := s.tasks[t].plan[s.tasks[t].held];
    assert l in s.tasks[t].plan && QueueOk(s.limiters[l].queue, s.tasks, l) && IsWaiting(s.tasks, t, l);
    assert LimiterInv(s.limiters[l]);
    assert Holders(s.tasks, l) != {} by { assert |Holders(s.tasks, l)| > 0; }
    var u :| u in Holders(s.tasks, l);
    if s.tasks[u].phase.Waiting? {
      var i :| 0 <= i < s.tasks[u].held && s.tasks[u].plan[i] == l;
      assert Rank(s.tasks[u].plan[i]) < Rank(s.tasks[u].plan[s.tasks[u].held]);
      e := WaitingIsServed(s, u);
    } else {
      e := FreeTaskMoves(s, u);
    }
  }

  /**
   As long as one task is unfinished, some task can take its next step, without anything being
   cancelled: the order group, session, pod never deadlocks.
   */
  lemma {:induction false} NeverDeadlocks(s: State, t: TaskId) returns (e: Event)
    requires Inv(s) && t < |s.tasks| && !Done(s.tasks[t])
    ensures !e.Skips? && Step(s, e).Some?
    decreases t
  {
    if s.tasks[t].phase.Waiting? {
      e := WaitingIsServed(s, t);
    } else if MayStart(s, s.tasks[t]) {
      e := FreeTaskMoves(s, t);
    } else {
      var a :| a in s.tasks[t].after && !(a < |s.tasks| && Done(s.tasks[a]));
      e := NeverDeadlocks(s, a);
    }
  }

  // ---------------------------------------------------------------- every child finishes

  /** Steps a task can still take. */
  ghost function Left(x: Task): nat {
    var n := |x.plan|;
    match x.phase
    case Ready => if x.held <= n then 2 * (n - x.held) + n + 2 else 0
    case Waiting => if x.held <= n then 2 * (n - x.held) + n + 1 else 0
    case Running => n + 1
    case Releasing => x.held
  }

  ghost function Total(tasks: seq<Task>): nat {
    if tasks == [] then 0 else Left(tasks[0]) + Total(tasks[1..])
  }

  lemma {:induction false} TotalUpdate(tasks: seq<Task>, t: TaskId, y: Task)
    requires t < |tasks|
    ensures Total(tasks[t := y]) == Total(tasks) - Left(tasks[t]) + Left(y)
  {
    if t == 0 {
      assert tasks[0 := y][1..] == tasks[1..];
    } else {
      assert tasks[t := y][1..] == tasks[1..][t - 1 := y];
      TotalUpdate(tasks[1..], t - 1, y);
    }
  }

  lemma UpdateUsesUp(tasks: seq<Task>, t: TaskId, y: Task)
    requires t < |tasks| && Left(y) < Left(tasks[t])
    ensures Total(tasks[t := y]) < Total(tasks)
  {
    TotalUpdate(tasks, t, y);
  }

  lemma GiveBackUsesUp(s: State, t: TaskId)
    requires Inv(s) && t < |s.tasks| && s.tasks[t].phase.Releasing? && GiveBack(s, t, s.tasks[t]).Some?
    ensures Total(GiveBack(s, t, s.tasks[t]).value.tasks) < Total(s.tasks)
  {
    hide Total;
    var x := s.tasks[t];
    var id := x.plan[x.held - 1];
    var mid := s.tasks[t := x.(held := x.held - 1)];
    UpdateUsesUp(s.tasks, t, mid[t]);
    if s.limiters[id].queue != [] {
      HeadWaits(s, id);
      var h := s.limiters[id].queue[0];
      UpdateUsesUp(mid, h, mid[h].(held := mid[h].held + 1, phase := Ready));
    }
  }

  lemma StepUsesUp(s: State, e: Event)
    requires Inv(s) && Step(s, e).Some?
    ensures Total(Step(s, e).value.tasks) < Total(s.tasks)
  {
    hide Total;
    if e.GivesBack? {
      GiveBackUsesUp(s, e.t);
    } else {
      UpdateUsesUp(s.tasks, e.t, Step(s, e).value.tasks[e.t]);
    }
  }

  /** Every run is finite: it is never longer than what its tasks had left. */
  lemma {:induction false} RunsEnd(s: State, events: seq<Event>)
    requires Inv(s) && Run(s, events).Some?
    ensures |events| + Total(Run(s, events).value.tasks) <= Total(s.tasks)
    decreases |events|
  {
    if events != [] {
      StepUsesUp(s, events[0]);
      StepKeeps(s, events[0]);
      RunsEnd(Step(s, events[0]).value, events[1..]);
    }
  }

  ghost predicate AllDone(s: State) { forall t | 0 <= t < |s.tasks| :: Done(s.tasks[t]) }

  ghost predicate Quiescent(s: State) { forall e: Event | !e.Skips? :: Step(s, e).None? }

  lemma UnfinishedMoves(s: State)
    requires Inv(s)
    ensures AllDone(s) || exists e: Event :: !e.Skips? && Step(s, e).Some?
  {
    if t :| 0 <= t < |s.tasks| && !Done(s.tasks[t]) {
      var e := NeverDeadlocks(s, t);
    }
  }

  lemma NoHoldersWhenDone(s: State, l: LimiterId)
    requires Inv(s) && AllDone(s) && l in s.limiters
    ensures s.limiters[l].active == 0 && s.limiters[l].queue == []
  {
  }

  /** A run that can go no further has finished every child and given back every slot. */
  lemma EverybodyFinishes(s: State, events: seq<Event>)
    requires Init(s) && Run(s, events).Some? && Quiescent(Run(s, events).value)
    ensures var u := Run(s, events).value;
      AllDone(u) && (forall l | l in u.limiters :: u.limiters[l].active == 0 && u.limiters[l].queue == [])
  {
    InitInv(s);
    RunKeeps(s, events);
    var u := Run(s, events).value;
    UnfinishedMoves(u);
    forall l | l in u.limiters ensures u.limiters[l].active == 0 && u.limiters[l].queue == [] {
      NoHoldersWhenDone(u, l);
    }
  }

  // ---------------------------------------------------------------- first come, first served

  ghost predicate Ahead(q: seq<TaskId>, a: TaskId, b: TaskId) {
    exists i, j :: 0 <= i < j < |q| && q[i] == a && q[j] == b
  }

  /** `a` has had its slot of `l`, or no longer wants it, and will not queue for it again. */
  ghost predicate Passed(x: Task, l: LimiterId) {
    x.phase.Releasing? || x.phase.Running? || HoldsSlot(x, l)
  }

  ghost predicate Before(s: State, a: TaskId, b: TaskId, l: LimiterId) {
    && l in s.limiters && a < |s.tasks|
    && (Ahead(s.limiters[l].queue, a, b) || Passed(s.tasks[a], l))
  }

  lemma PassedStays(s: State, e: Event, a: TaskId, l: LimiterId)
    requires Inv(s) && a < |s.tasks| && Passed(s.tasks[a], l) && Step(s, e).Some?
    ensures Passed(Step(s, e).value.tasks[a], l)
  {
    if e.GivesBack? && s.limiters[s.tasks[e.t].plan[s.tasks[e.t].held - 1]].queue != [] {
      HeadWaits(s, s.tasks[e.t].plan[s.tasks[e.t].held - 1]);
    }
  }

  lemma AheadStays(q: seq<TaskId>, a: TaskId, b: TaskId, x: TaskId)
    requires Ahead(q, a, b)
    ensures Ahead(q + [x], a, b) && (q[0] != a ==> Ahead(q[1..], a, b))
  {
    var i, j :| 0 <= i < j < |q| && q[i] == a && q[j] == b;
    assert (q + [x])[i] == a && (q + [x])[j] == b;
    if q[0] != a { assert q[1..][i - 1] == a && q[1..][j - 1] == b; }
  }

  lemma BeforeStays(s: State, e: Event, a: TaskId, b: TaskId, l: LimiterId)
    requires Inv(s) && Before(s, a, b, l) && Step(s, e).Some?
    ensures Before(Step(s, e).value, a, b, l)
  {
    if Passed(s.tasks[a], l) {
      PassedStays(s, e, a, l);
    } else {
      var q := s.limiters[l].queue;
      AheadStays(q, a, b, e.t);
      if e.GivesBack? && s.tasks[e.t].plan[s.tasks[e.t].held - 1] == l && q[0] == a {
        HeadWaits(s, l);
        var x := s.tasks[a];
        assert x.plan[..x.held + 1][x.held] == l;
      }
    }
  }

  lemma {:induction false} BeforeHolds(s: State, events: seq<Event>, a: TaskId, b: TaskId, l: LimiterId)
    requires Inv(s) && Before(s, a, b, l) && Run(s, events).Some?
    ensures Before(Run(s, events).value, a, b, l)
    decreases |events|
  {
    if events != [] {
      StepKeeps(s, events[0]);
      BeforeStays(s, events[0], a, b, l);
      BeforeHolds(Step(s, events[0]).value, events[1..], a, b, l);
    }
  }

  /** Nobody is served before those ahead of it: once `b` is out of the queue, so is `a`. */
  lemma FirstComeFirstServed(s: State, events: seq<Event>, a: TaskId, b: TaskId, l: LimiterId)
    requires Inv(s) && l in s.limiters && Ahead(s.limiters[l].queue, a, b) && Run(s, events).Some?
    ensures var u := Run(s, events).value;
      l in u.limiters && (b !in u.limiters[l].queue ==> a !in u.limiters[l].queue)
  {
    var i :| 0 <= i < |s.limiters[l].queue| && s.limiters[l].queue[i] == a;
    assert QueueOk(s.limiters[l].queue, s.tasks, l) && a in s.limiters[l].queue;
    BeforeHolds(s, events, a, b, l);
    RunKeeps(s, events);
    var u := Run(s, events).value;
    assert QueueOk(u.limiters[l].queue, u.tasks, l);
    if b !in u.limiters[l].queue {
      PassedIsOut(u, a, l);
    }
  }

  lemma PassedIsOut(s: State, a: TaskId, l: LimiterId)
    requires Inv(s) && a < |s.tasks| && Passed(s.tasks[a], l)
    ensures !IsWaiting(s.tasks, a, l)
  {
  }

  // ---------------------------------------------------------------- the reducer comes last

  ghost predicate AllOver(s: State, after: set<TaskId>) { forall a | a in after :: a < |s.tasks| && Done(s.tasks[a]) }

  /** Whoever has begun to take slots has waited for the tasks it comes after. */
  ghost predicate OrderInv(s: State) {
    forall t | 0 <= t < |s.tasks| && (s.tasks[t].held > 0 || s.tasks[t].phase.Waiting? || s.tasks[t].phase.Running?) :: AllOver(s, s.tasks[t].after)
  }

  lemma DoneStays(s: State, e: Event, a: TaskId)
    requires Inv(s) && Step(s, e).Some? && a < |s.tasks| && Done(s.tasks[a])
    ensures var u := Step(s, e).value; a < |u.tasks| && Done(u.tasks[a])
  {
    if e.GivesBack? {
      var id := s.tasks[e.t].plan[s.tasks[e.t].held - 1];
      if s.limiters[id].queue != [] {
        assert QueueOk(s.limiters[id].queue, s.tasks, id);
        assert IsWaiting(s.tasks, s.limiters[id].queue[0], id);
      }
    }
  }

  lemma AfterStays(s: State, e: Event, t: TaskId)
    requires Inv(s) && Step(s, e).Some? && t < |s.tasks|
    ensures var u := Step(s, e).value; |u.tasks| == |s.tasks| && u.tasks[t].after == s.tasks[t].after && u.tasks[t].plan == s.tasks[t].plan
    ensures var u := Step(s, e).value;
      (u.tasks[t].held > 0 || u.tasks[t].phase.Waiting? || u.tasks[t].phase.Running?) && s.tasks[t].plan != [] ==>
        s.tasks[t].held > 0 || s.tasks[t].phase.Waiting? || s.tasks[t].phase.Running? || (e == Takes(t) && MayStart(s, s.tasks[t]))
  {
    if e.GivesBack? {
      var id := s.tasks[e.t].plan[s.tasks[e.t].held - 1];
      if s.limiters[id].queue != [] {
        assert QueueOk(s.limiters[id].queue, s.tasks, id);
        assert IsWaiting(s.tasks, s.limiters[id].queue[0], id);
      }
    }
  }

  lemma SameTasks(s: State, e: Event)
    requires Step(s, e).Some?
    ensures |Step(s, e).value.tasks| == |s.tasks|
  {
  }

  lemma StepOrders(s: State, e: Event)
    requires Inv(s) && OrderInv(s) && Step(s, e).Some? && (forall t | 0 <= t < |s.tasks| :: s.tasks[t].plan != [])
    ensures OrderInv(Step(s, e).value) && forall t | 0 <= t < |Step(s, e).value.tasks| :: Step(s, e).value.tasks[t].plan != []
  {
    hide Inv, Step, Done;
    var u := Step(s, e).value;
    SameTasks(s, e);
    forall t | 0 <= t < |u.tasks|
      ensures u.tasks[t].plan != []
      ensures u.tasks[t].held > 0 || u.tasks[t].phase.Waiting? || u.tasks[t].phase.Running? ==> AllOver(u, u.tasks[t].after)
    {
      AfterStays(s, e, t);
      if u.tasks[t].held > 0 || u.tasks[t].phase.Waiting? || u.tasks[t].phase.Running? {
        forall a | a in u.tasks[t].after ensures a < |u.tasks| && Done(u.tasks[a]) { DoneStays(s, e, a); }
      }
    }
  }

  lemma {:induction false} RunOrders(s: State, events: seq<Event>)
    requires Inv(s) && OrderInv(s) && Run(s, events).Some? && (forall t | 0 <= t < |s.tasks| :: s.tasks[t].plan != [])
    ensures OrderInv(Run(s, events).value)
    decreases |events|
  {
    hide Inv, OrderInv, Step;
    if events != [] {
      StepOrders(s, events[0]);
      StepKeeps(s, events[0]);
      RunOrders(Step(s, events[0]).value, events[1..]);
    }
  }

  /** A reducer takes no slot, and does not run, before every item of its group is over. */
  lemma ReducerWaits(s: State, events: seq<Event>, t: TaskId, a: TaskId)
    requires Init(s) && (forall t | 0 <= t < |s.tasks| :: s.tasks[t].plan != []) && Run(s, events).Some?
    requires var u := Run(s, events).value; t < |u.tasks| && a in u.tasks[t].after && (u.tasks[t].held > 0 || u.tasks[t].phase.Running?)
    ensures var u := Run(s, events).value; a < |u.tasks| && Done(u.tasks[a])
  {
    InitInv(s);
    RunOrders(s, events);
  }

  /** A task that is not running and waits for nobody may leave without running, and then only gives back. */
  lemma SkipEffect(s: State, t: TaskId)
    requires t < |s.tasks| && s.tasks[t].phase.Ready?
    ensures Step(s, Skips(t)) == Some(s.(tasks := s.tasks[t := s.tasks[t].(phase := Releasing)]))
  {
  }

  // ---------------------------------------------------------------- room for interactive children

  /** The children of groups, map items and reducers alike. */
  ghost function GroupChildren(tasks: seq<Task>): set<TaskId> {
    set t | 0 <= t < |tasks| && PodGroup in tasks[t].plan
  }

  /** Group children never hold more pod slots than the group limiter allows, however many groups run. */
  lemma GroupsStayWithinTheirShare(s: State)
    requires Inv(s) && Pod in s.limiters && PodGroup in s.limiters
    ensures |Holders(s.tasks, Pod) * GroupChildren(s.tasks)| <= s.limiters[PodGroup].limit
  {
    var inside := Holders(s.tasks, Pod) * GroupChildren(s.tasks);
    forall t | t in inside ensures t in Holders(s.tasks, PodGroup) {
      var x := s.tasks[t];
      var i :| 0 <= i < x.held && x.plan[i] == Pod;
      var j :| 0 <= j < |x.plan| && x.plan[j] == PodGroup;
      assert Rank(x.plan[j]) < Rank(x.plan[i]);
      assert x.plan[..x.held][j] == PodGroup;
    }
    SubsetSize(inside, Holders(s.tasks, PodGroup));
    assert LimiterInv(s.limiters[PodGroup]);
  }

  /** With a group limit below the pod's, a full pod always runs a child of no group. */
  lemma FullPodRunsASingleChild(s: State)
    requires Inv(s) && Pod in s.limiters && PodGroup in s.limiters
    requires s.limiters[PodGroup].limit < s.limiters[Pod].limit == s.limiters[Pod].active
    ensures exists t :: t in Holders(s.tasks, Pod) && PodGroup !in s.tasks[t].plan
  {
    GroupsStayWithinTheirShare(s);
    var all, inside := Holders(s.tasks, Pod), Holders(s.tasks, Pod) * GroupChildren(s.tasks);
    assert all == inside + (all - inside);
    assert |all - inside| > 0;
    var t :| t in all - inside;
  }

  // ---------------------------------------------------------------- what each kind of child holds

  /** Task number `t` was submitted on the spawn path `kinds[t]`. */
  ghost predicate Follows(s: State, kinds: seq<Kind>) {
    |kinds| == |s.tasks| && forall t | 0 <= t < |kinds| :: s.tasks[t].plan == PlanOf(kinds[t])
  }

  lemma PlansStay(s: State, e: Event)
    requires Step(s, e).Some?
    ensures var u := Step(s, e).value; |u.tasks| == |s.tasks| && forall t | 0 <= t < |s.tasks| :: u.tasks[t].plan == s.tasks[t].plan
  {
  }

  lemma {:induction false} FollowsStays(s: State, kinds: seq<Kind>, events: seq<Event>)
    requires Follows(s, kinds) && Run(s, events).Some?
    ensures Follows(Run(s, events).value, kinds)
    decreases |events|
  {
    hide Step;
    if events != [] {
      PlansStay(s, events[0]);
      FollowsStays(Step(s, events[0]).value, kinds, events[1..]);
    }
  }

  /** A child of the group path: a map item or the reducer. */
  predicate OfAGroup(k: Kind) { k.MapItem? || k.Reduce? }

  /** The limiter of the parent session, or the one all orphans share. */
  ghost predicate HoldsSessionSlot(x: Task, k: Kind) {
    match k.parent
    case Some(p) => HoldsSlot(x, Session(p))
    case None => HoldsSlot(x, Detached)
  }

  /**
   Over every run, whoever holds a pod slot, as every running child does, holds a slot of its session
   too; a child of a group also holds a group slot, and a map item one of its own group's pool.
   */
  lemma ChildrenHoldTheirSlots(s: State, kinds: seq<Kind>, events: seq<Event>, t: TaskId)
    requires Init(s) && Follows(s, kinds) && Run(s, events).Some? && t < |kinds|
    ensures |Run(s, events).value.tasks| == |kinds|
    ensures var x, k := Run(s, events).value.tasks[t], kinds[t];
      && (x.phase.Running? ==> HoldsSlot(x, Pod))
      && (HoldsSlot(x, Pod) ==>
            && HoldsSessionSlot(x, k)
            && (OfAGroup(k) ==> HoldsSlot(x, PodGroup))
            && (k.MapItem? ==> HoldsSlot(x, Pool(k.group))))
      && (k.Single? ==> !HoldsSlot(x, PodGroup))
  {
    InitInv(s);
    RunKeeps(s, events);
    FollowsStays(s, kinds, events);
    var x, k := Run(s, events).value.tasks[t], kinds[t];
    assert TaskInv(Run(s, events).value, x);
    PodComesLast(x, k);
  }

  lemma PodComesLast(x: Task, k: Kind)
    requires x.plan == PlanOf(k) && x.held <= |x.plan|
    ensures x.held == |x.plan| ==> HoldsSlot(x, Pod)
    ensures HoldsSlot(x, Pod) ==>
              && HoldsSessionSlot(x, k) && (OfAGroup(k) ==> HoldsSlot(x, PodGroup))
              && (k.MapItem? ==> HoldsSlot(x, Pool(k.group)))
    ensures k.Single? ==> !HoldsSlot(x, PodGroup)
  {
    var n := |x.plan|;
    assert x.plan[n - 1] == Pod && x.plan[n - 2] == SessionLimiter(k.parent);
    if x.held == n { assert x.plan[..x.held] == x.plan; }
    if HoldsSlot(x, Pod) {
      assert x.held == n && x.plan[..n] == x.plan;
      if OfAGroup(k) { assert x.plan[n - 3] == PodGroup; }
      if k.MapItem? { assert x.plan[0] == Pool(k.group); }
    }
  }

  /** Over every run, the map items and reducers of all groups together hold at most the group limit of pod slots. */
  lemma GroupKindsStayWithinTheirShare(s: State, kinds: seq<Kind>, events: seq<Event>)
    requires Init(s) && Follows(s, kinds) && Run(s, events).Some? && Pod in s.limiters && PodGroup in s.limiters
    ensures var u := Run(s, events).value;
      && |u.tasks| == |kinds|
      && |set t | 0 <= t < |kinds| && OfAGroup(kinds[t]) && HoldsSlot(u.tasks[t], Pod)| <= s.limiters[PodGroup].limit
  {
    var u := Run(s, events).value;
    InitInv(s);
    RunKeeps(s, events);
    FollowsStays(s, kinds, events);
    LimitsStay(s, events, PodGroup);
    var inside := set t | 0 <= t < |kinds| && OfAGroup(kinds[t]) && HoldsSlot(u.tasks[t], Pod);
    forall t | t in inside ensures t in Holders(u.tasks, PodGroup) { ChildrenHoldTheirSlots(s, kinds, events, t); }
    SubsetSize(inside, Holders(u.tasks, PodGroup));
    assert LimiterInv(u.limiters[PodGroup]);
  }

  /** `getGroupPodShare`: all but one of the pod's slots, and at least one. */
  function GroupPodShare(pod: nat): nat { if pod >= 2 then pod - 1 else 1 }

  /** A state with the configured limits before anybody has taken a slot. */
  ghost predicate Configured(s: State, pod: nat) {
    && Init(s) && Pod in s.limiters && PodGroup in s.limiters
    && s.limiters[Pod].limit == pod && s.limiters[PodGroup].limit == GroupPodShare(pod)
  }

  lemma {:induction false} LimitsStay(s: State, events: seq<Event>, l: LimiterId)
    requires Run(s, events).Some? && l in s.limiters
    ensures var t := Run(s, events).value; l in t.limiters && t.limiters[l].limit == s.limiters[l].limit
    decreases |events|
  {
    if events != [] { LimitsStay(Step(s, events[0]).value, events[1..], l); }
  }

  /** All the pod's slots are taken, and all of them by children of groups. */
  ghost predicate FullOfGroupChildren(s: State, kinds: seq<Kind>) {
    && Pod in s.limiters && s.limiters[Pod].active == s.limiters[Pod].limit
    && forall t | 0 <= t < |s.tasks| && t < |kinds| && HoldsSlot(s.tasks[t], Pod) :: OfAGroup(kinds[t])
  }

  /** One reducer in a pod with a single slot, after it has taken `held` of its limiters. */
  function OneReducer(held: nat): State {
    var slot := (n: nat) => Limiter(1, if n < held then 1 else 0, []);
    State(map[PodGroup := slot(0), Session(0) := slot(1), Pod := slot(2)], [Task([PodGroup, Session(0), Pod], held, Ready, {})])
  }

  lemma ReducerTakes(held: nat)
    requires held < 3
    ensures Step(OneReducer(held), Takes(0)) == Some(OneReducer(held + 1))
  {
    var s, t := OneReducer(held), OneReducer(held + 1);
    assert Step(s, Takes(0)).value.limiters == t.limiters;
    assert Step(s, Takes(0)).value.tasks == t.tasks;
  }

  lemma {:induction false} ReducerTakesAll(held: nat) returns (events: seq<Event>)
    requires held <= 3
    ensures Run(OneReducer(held), events) == Some(OneReducer(3))
    decreases 3 - held
  {
    hide Step, OneReducer;
    events := [];
    if held < 3 {
      var rest := ReducerTakesAll(held + 1);
      ReducerTakes(held);
      events := [Takes(0)] + rest;
      assert events[1..] == rest;
    }
  }

  /** The reducer takes the only slot. */
  lemma ReducerFillsTheOnlySlot() returns (s: State, kinds: seq<Kind>, events: seq<Event>)
    ensures Configured(s, 1) && Follows(s, kinds) && Run(s, events).Some? && FullOfGroupChildren(Run(s, events).value, kinds)
  {
    hide Run;
    s, kinds := OneReducer(0), [Reduce(Some(0))];
    events := ReducerTakesAll(0);
  }

  /** The configured share keeps a full pod from running group children only, over every run, exactly if the pod has at least two slots. */
  lemma GroupShareReservesIff(pod: nat)
    requires pod >= 1
    ensures pod >= 2 <==>
      forall s: State, kinds: seq<Kind>, events: seq<Event> | Configured(s, pod) && Follows(s, kinds) && Run(s, events).Some? ::
        !FullOfGroupChildren(Run(s, events).value, kinds)
  {
    if pod >= 2 {
      forall s: State, kinds: seq<Kind>, events: seq<Event> | Configured(s, pod) && Follows(s, kinds) && Run(s, events).Some?
        ensures !FullOfGroupChildren(Run(s, events).value, kinds)
      {
        GroupShareReserves(s, kinds, events, pod);
      }
    } else {
      var s, kinds, events := ReducerFillsTheOnlySlot();
    }
  }

  lemma GroupShareReserves(s: State, kinds: seq<Kind>, events: seq<Event>, pod: nat)
    requires pod >= 2 && Configured(s, pod) && Follows(s, kinds) && Run(s, events).Some?
    ensures !FullOfGroupChildren(Run(s, events).value, kinds)
  {
    InitInv(s);
    RunKeeps(s, events);
    LimitsStay(s, events, Pod);
    LimitsStay(s, events, PodGroup);
    var t := Run(s, events).value;
    if t.limiters[Pod].active == pod {
      FullPodRunsASingleChild(t);
      var c :| c in Holders(t.tasks, Pod) && PodGroup !in t.tasks[c].plan;
      FollowsStays(s, kinds, events);
      ChildrenHoldTheirSlots(s, kinds, events, c);
    }
  }
}
