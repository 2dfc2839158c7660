/**
 Sub-agents competing for slots (concurrency-limiter.ts and its uses in session.ts): FIFO counting
 semaphores, and any number of tasks that each take a chain of them, group before session before
 pod, run, and give them back in reverse.
 */
module SubagentSlots {
  import opened Wrappers

  type TaskId = nat

  datatype LimiterId = Pool(group: nat) | PodGroup | Session(id: nat) | Detached | Pod

  /** The acquisition order the manager prescribes. */
  function Rank(l: LimiterId): nat {
    match l
    case Pool(_) => 0
    case PodGroup => 1
    case Session(_) => 2
    case Detached => 2
    case Pod => 3
  }

  /** The spawn paths; `parent` is absent when the parent session is no longer resident. */
  datatype Kind = Single(parent: Option<nat>) | MapItem(group: nat, parent: Option<nat>) | Reduce(parent: Option<nat>)

  function SessionLimiter(parent: Option<nat>): LimiterId {
    if parent.Some? then Session(parent.value) else Detached
  }

  function PlanOf(k: Kind): seq<LimiterId> {
    match k
    case Single(p) => [SessionLimiter(p), Pod]
    case MapItem(g, p) => [Pool(g), PodGroup, SessionLimiter(p), Pod]
    case Reduce(p) => [PodGroup, SessionLimiter(p), Pod]
  }

  datatype Limiter = Limiter(limit: nat, active: nat, queue: seq<TaskId>)

  function Acquire(l: Limiter, t: TaskId): Limiter {
    if l.active < l.limit then l.(active := l.active + 1) else l.(queue := l.queue + [t])
  }

  /** The slot goes straight to the head of the queue, if there is one. */
  function Release(l: Limiter): Limiter
    requires l.active > 0
  {
    if l.queue == [] then l.(active := l.active - 1) else l.(queue := l.queue[1..])
  }

  datatype Phase = Ready | Waiting | Running | Releasing

  /** A task has taken the first `held` limiters of `plan`; it may start once all of `after` are done. */
  datatype Task = Task(plan: seq<LimiterId>, held: nat, phase: Phase, after: set<TaskId>)

  datatype State = State(limiters: map<LimiterId, Limiter>, tasks: seq<Task>)

  datatype Event = Takes(t: TaskId) | Starts(t: TaskId) | Skips(t: TaskId) | Ends(t: TaskId) | GivesBack(t: TaskId)

  predicate Done(t: Task) { t.phase.Releasing? && t.held == 0 }

  predicate MayStart(s: State, t: Task) {
    t.held > 0 || forall a | a in t.after :: a < |s.tasks| && Done(s.tasks[a])
  }

  function Grant(tasks: seq<Task>, l: Limiter): seq<Task> {
    if l.queue == [] || l.queue[0] >= |tasks| then tasks
    else tasks[l.queue[0] := tasks[l.queue[0]].(held := tasks[l.queue[0]].held + 1, phase := Ready)]
  }

  function Take(s: State, t: TaskId, x: Task): Option<State> {
    if x.held >= |x.plan| || x.plan[x.held] !in s.limiters then None
    else
      var id := x.plan[x.held];
      var l := s.limiters[id];
      var y := if l.active < l.limit then x.(held := x.held + 1) else x.(phase := Waiting);
      if t < |s.tasks| then Some(State(s.limiters[id := Acquire(l, t)], s.tasks[t := y])) else None
  }

  function GiveBack(s: State, t: TaskId, x: Task): Option<State> {
    if x.held == 0 || x.held > |x.plan| || x.plan[x.held - 1] !in s.limiters || s.limiters[x.plan[x.held - 1]].active == 0 || t >= |s.tasks| then None
    else
      var id := x.plan[x.held - 1];
      Some(State(s.limiters[id := Release(s.limiters[id])], Grant(s.tasks[t := x.(held := x.held - 1)], s.limiters[id])))
  }

  /**
   One synchronous stretch. A task body may end at any time; a cancelled group item may leave at any
   point before it runs.
   */
  function Step(s: State, e: Event): Option<State> {
    if e.t >= |s.tasks| then None
    else
      var x := s.tasks[e.t];
      match e
      case Takes(t) => if x.phase.Ready? && MayStart(s, x) then Take(s, t, x) else None
      case Starts(t) => if x.phase.Ready? && x.held == |x.plan| then Some(s.(tasks := s.tasks[t := x.(phase := Running)])) else None
      case Skips(t) => if x.phase.Ready? then Some(s.(tasks := s.tasks[t := x.(phase := Releasing)])) else None
      case Ends(t) => if x.phase.Running? then Some(s.(tasks := s.tasks[t := x.(phase := Releasing)])) else None
      case GivesBack(t) => if x.phase.Releasing? then GiveBack(s, t, x) else None
  }

  function Run(s: State, events: seq<Event>): Option<State>
    decreases |events|
  {
    if events == [] then Some(s)
    else
      var t := Step(s, events[0]);
      if t.None? then None else Run(t.value, events[1..])
  }

  // ---------------------------------------------------------------- the invariant

  ghost predicate Increasing(plan: seq<LimiterId>) {
    forall i, j | 0 <= i < j < |plan| :: Rank(plan[i]) < Rank(plan[j])
  }

  lemma PlansIncrease(k: Kind)
    ensures Increasing(PlanOf(k))
  {
  }

  ghost predicate HoldsSlot(x: Task, l: LimiterId) { x.held <= |x.plan| && l in x.plan[..x.held] }

  ghost predicate WaitsFor(x: Task, l: LimiterId) { x.phase.Waiting? && x.held < |x.plan| && x.plan[x.held] == l }

  ghost function Holders(tasks: seq<Task>, l: LimiterId): set<TaskId> {
    set t | 0 <= t < |tasks| && HoldsSlot(tasks[t], l)
  }

  ghost predicate NoDup(q: seq<TaskId>) { forall i, j | 0 <= i < j < |q| :: q[i] != q[j] }

  /** Within its limit, queueing only when full, counting exactly its holders, queueing exactly its waiters. */
  ghost predicate LimiterInv(l: Limiter) { l.limit >= 1 && l.active <= l.limit && (l.queue != [] ==> l.active == l.limit) }

  ghost predicate CountInv(s: State) { forall id | id in s.limiters :: s.limiters[id].active == |Holders(s.tasks, id)| }

  ghost predicate IsWaiting(tasks: seq<Task>, t: TaskId, l: LimiterId) { t < |tasks| && WaitsFor(tasks[t], l) }

  /** The queue of `l` lists exactly the tasks that wait for it, each once. */
  ghost predicate QueueOk(queue: seq<TaskId>, tasks: seq<Task>, l: LimiterId) {
    NoDup(queue) && forall t: TaskId :: t in queue <==> IsWaiting(tasks, t, l)
  }

  ghost predicate QueueInv(s: State) {
    forall id | id in s.limiters :: QueueOk(s.limiters[id].queue, s.tasks, id)
  }

  ghost predicate TaskInv(s: State, x: Task) {
    && Increasing(x.plan) && x.held <= |x.plan|
    && (x.phase.Waiting? ==> x.held < |x.plan|) && (x.phase.Running? ==> x.held == |x.plan|)
    && forall l | l in x.plan :: l in s.limiters
  }

  /** Tasks wait only for tasks submitted before them. */
  ghost predicate AfterInv(s: State) { forall t, a | 0 <= t < |s.tasks| && a in s.tasks[t].after :: a < t }

  ghost predicate Inv(s: State) {
    && (forall id | id in s.limiters :: LimiterInv(s.limiters[id]))
    && CountInv(s) && QueueInv(s) && AfterInv(s)
    && (forall t | 0 <= t < |s.tasks| :: TaskInv(s, s.tasks[t]))
  }

  /** Nothing taken yet: any limits of at least one, any set of tasks with increasing plans. */
  ghost predicate Init(s: State) {
    && (forall id | id in s.limiters :: s.limiters[id].limit >= 1 && s.limiters[id].active == 0 && s.limiters[id].queue == [])
    && (forall t | 0 <= t < |s.tasks| :: TaskInv(s, s.tasks[t]) && s.tasks[t].held == 0 && s.tasks[t].phase.Ready?)
    && AfterInv(s)
  }

  lemma InitInv(s: State)
    requires Init(s)
    ensures Inv(s)
  {
  }

  // ---------------------------------------------------------------- every step keeps it

  /** One more slot taken by task `t`: only that limiter's holders change. */
  lemma HoldersGrow(tasks: seq<Task>, t: TaskId, phase: Phase, l: LimiterId)
    requires t < |tasks| && Increasing(tasks[t].plan) && tasks[t].held < |tasks[t].plan|
    ensures var x := tasks[t]; var after := tasks[t := x.(held := x.held + 1, phase := phase)];
      && t !in Holders(tasks, x.plan[x.held])
      && Holders(after, l) == if l == x.plan[x.held] then Holders(tasks, l) + {t} else Holders(tasks, l)
  {
  }

  lemma HoldersShrink(tasks: seq<Task>, t: TaskId, l: LimiterId)
    requires t < |tasks| && Increasing(tasks[t].plan) && 0 < tasks[t].held <= |tasks[t].plan|
    ensures var x := tasks[t]; var after := tasks[t := x.(held := x.held - 1)];
      && t in Holders(tasks, x.plan[x.held - 1])
      && Holders(after, l) == if l == x.plan[x.held - 1] then Holders(tasks, l) - {t} else Holders(tasks, l)
  {
  }

  lemma PhaseKeeps(s: State, t: TaskId, phase: Phase)
    requires Inv(s) && t < |s.tasks| && !s.tasks[t].phase.Waiting? && !phase.Waiting?
    requires phase.Running? ==> s.tasks[t].held == |s.tasks[t].plan|
    ensures Inv(s.(tasks := s.tasks[t := s.tasks[t].(phase := phase)]))
  {
    var u := s.(tasks := s.tasks[t := s.tasks[t].(phase := phase)]);
    forall id | id in s.limiters ensures Holders(u.tasks, id) == Holders(s.tasks, id) {
    }
    SameQueues(s, u);
  }

  /** Whoever waited still waits for the same limiter, and nobody else does. */
  lemma SameQueues(s: State, u: State)
    requires QueueInv(s) && u.limiters == s.limiters && |u.tasks| == |s.tasks|
    requires forall t: TaskId, l :: IsWaiting(u.tasks, t, l) <==> IsWaiting(s.tasks, t, l)
    ensures QueueInv(u)
  {
  }

  lemma DequeueOk(queue: seq<TaskId>, tasks: seq<Task>, after: seq<Task>, l: LimiterId)
    requires QueueOk(queue, tasks, l) && queue != []
    requires forall k: TaskId :: IsWaiting(after, k, l) <==> IsWaiting(tasks, k, l) && k != queue[0]
    ensures QueueOk(queue[1..], after, l)
  {
  }

  lemma TakeCounts(s: State, t: TaskId)
    requires Inv(s) && t < |s.tasks| && s.tasks[t].phase.Ready? && Take(s, t, s.tasks[t]).Some?
    ensures CountInv(Take(s, t, s.tasks[t]).value)
  {
    var x, u := s.tasks[t], Take(s, t, s.tasks[t]).value;
    var id := x.plan[x.held];
    forall l | l in u.limiters ensures u.limiters[l].active == |Holders(u.tasks, l)| {
      if s.limiters[id].active < s.limiters[id].limit {
        HoldersGrow(s.tasks, t, Ready, l);
      } else {
        assert Holders(u.tasks, l) == Holders(s.tasks, l);
      }
    }
  }

  lemma TakeQueues(s: State, t: TaskId)
    requires Inv(s) && t < |s.tasks| && s.tasks[t].phase.Ready? && Take(s, t, s.tasks[t]).Some?
    ensures QueueInv(Take(s, t, s.tasks[t]).value)
  {
    var x, u := s.tasks[t], Take(s, t, s.tasks[t]).value;
    forall l | l in u.limiters ensures QueueOk(u.limiters[l].queue, u.tasks, l) {
      assert QueueOk(s.limiters[l].queue, s.tasks, l);
      assert !IsWaiting(s.tasks, t, l);
      assert forall k: TaskId | k != t :: IsWaiting(u.tasks, k, l) <==> IsWaiting(s.tasks, k, l);
    }
  }

  lemma TakeKeeps(s: State, t: TaskId)
    requires Inv(s) && t < |s.tasks| && s.tasks[t].phase.Ready? && Take(s, t, s.tasks[t]).Some?
    ensures Inv(Take(s, t, s.tasks[t]).value)
  {
    TakeCounts(s, t);
    TakeQueues(s, t);
  }

  /** A slot handed from `t` to `h`: the number of holders of that limiter stays the same. */
  lemma HandOverCounts(tasks: seq<Task>, t: TaskId, h: TaskId, l: LimiterId)
    requires t < |tasks| && Increasing(tasks[t].plan) && 0 < tasks[t].held <= |tasks[t].plan|
    requires h < |tasks| && h != t && Increasing(tasks[h].plan) && WaitsFor(tasks[h], tasks[t].plan[tasks[t].held - 1])
    ensures var mid := tasks[t := tasks[t].(held := tasks[t].held - 1)];
      |Holders(mid[h := tasks[h].(held := tasks[h].held + 1, phase := Ready)], l)| == |Holders(tasks, l)|
  {
    var mid := tasks[t := tasks[t].(held := tasks[t].held - 1)];
    HoldersShrink(tasks, t, l);
    HoldersGrow(mid, h, Ready, l);
  }

  lemma GiveBackCounts(s: State, t: TaskId)
    requires Inv(s) && t < |s.tasks| && s.tasks[t].phase.Releasing? && GiveBack(s, t, s.tasks[t]).Some?
    ensures CountInv(GiveBack(s, t, s.tasks[t]).value)
  {
    var x, u := s.tasks[t], GiveBack(s, t, s.tasks[t]).value;
    var id := x.plan[x.held - 1];
    var q := s.limiters[id].queue;
    if q != [] { HeadWaits(s, id); }
    forall l | l in u.limiters ensures u.limiters[l].active == |Holders(u.tasks, l)| {
      if q == [] {
        HoldersShrink(s.tasks, t, l);
      } else {
        HandOverCounts(s.tasks, t, q[0], l);
      }
    }
  }

  lemma HeadWaits(s: State, id: LimiterId)
    requires QueueInv(s) && id in s.limiters && s.limiters[id].queue != []
    ensures IsWaiting(s.tasks, s.limiters[id].queue[0], id)
  {
  }

  lemma GiveBackQueues(s: State, t: TaskId)
    requires Inv(s) && t < |s.tasks| && s.tasks[t].phase.Releasing? && GiveBack(s, t, s.tasks[t]).Some?
    ensures QueueInv(GiveBack(s, t, s.tasks[t]).value)
  {
    var x, u := s.tasks[t], GiveBack(s, t, s.tasks[t]).value;
    var id := x.plan[x.held - 1];
    var q := s.limiters[id].queue;
    if q != [] { HeadWaits(s, id); }
    forall l | l in u.limiters ensures QueueOk(u.limiters[l].queue, u.tasks, l) {
      assert QueueOk(s.limiters[l].queue, s.tasks, l);
      forall k: TaskId ensures IsWaiting(u.tasks, k, l) <==> IsWaiting(s.tasks, k, l) && !(q != [] && l == id && k == q[0]) {
      }
      if q != [] && l == id { DequeueOk(q, s.tasks, u.tasks, l); }
    }
  }

  lemma GiveBackKeeps(s: State, t: TaskId)
    requires Inv(s) && t < |s.tasks| && s.tasks[t].phase.Releasing? && GiveBack(s, t, s.tasks[t]).Some?
    ensures Inv(GiveBack(s, t, s.tasks[t]).value)
  {
    GiveBackCounts(s, t);
    GiveBackQueues(s, t);
    var x := s.tasks[t];
    var q := s.limiters[x.plan[x.held - 1]].queue;
    if q != [] { HeadWaits(s, x.plan[x.held - 1]); }
  }

  lemma StepKeeps(s: State, e: Event)
    requires Inv(s)
    ensures Step(s, e).Some? ==> Inv(Step(s, e).value)
  {
    if Step(s, e).Some? {
      match e {
        case Takes(t) => TakeKeeps(s, t);
        case Starts(t) => PhaseKeeps(s, t, Running);
        case Skips(t) => PhaseKeeps(s, t, Releasing);
        case Ends(t) => PhaseKeeps(s, t, Releasing);
        case GivesBack(t) => GiveBackKeeps(s, t);
      }
    }
  }

  lemma {:induction false} RunKeeps(s: State, events: seq<Event>)
    requires Inv(s)
    ensures Run(s, events).Some? ==> Inv(Run(s, events).value)
    decreases |events|
  {
    if events != [] && Step(s, events[0]).Some? {
      StepKeeps(s, events[0]);
      RunKeeps(Step(s, events[0]).value, events[1..]);
    }
  }
}
