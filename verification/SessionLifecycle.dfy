/**
 One resident session (session.ts, http-server.ts, background-work-turn.ts): the prompt mutex, the
 release timer, the background-work count and the delivery of completion notifications, as a
 machine whose steps are the synchronous stretches between two `await`s.
 */
module SessionLifecycle {
  import opened Wrappers

  type TurnId = nat
  type JobId = nat

  datatype Owner = Http(id: TurnId) | Synthetic
  datatype Delay = Now | Grace

  /** The mutex (`_promptDone`, `_promptInflight`), the Stop flag and the release timer. */
  datatype Life = Life(
    promptDone: bool, inflight: Option<Owner>, aborted: bool, invalidated: bool,
    releaseWhenDone: bool, timer: Option<Delay>)

  /** Background jobs: `count` is `_backgroundWorkCount`, `active` the jobs it stands for. */
  datatype Work = Work(
    count: nat, active: set<JobId>, known: set<JobId>, claimed: set<JobId>, suppressed: set<JobId>,
    owner: map<JobId, TurnId>)

  /** Notifications: `_pendingNotifications`, `_coalesceTimer`, `_syntheticPromptQueue`, and where each one ended up. */
  datatype Mail = Mail(
    pending: seq<JobId>, coalesce: bool, queue: seq<seq<JobId>>,
    owned: multiset<JobId>, delivered: multiset<JobId>, dropped: multiset<JobId>)

  /**
   An HTTP turn: in `brain.prompt`, waiting for background results, resolved while the agent is
   still busy, or finished. `timers` are armed 50 ms checks of the deferred finish.
   */
  datatype Phase = Inside | Waiting | Deferred(timers: nat) | Over(timers: nat)

  datatype Turns = Turns(
    current: Option<TurnId>, cancelled: set<TurnId>, phases: map<TurnId, Phase>,
    synthetic: bool, busy: bool, starts: nat)

  datatype State = State(resident: bool, life: Life, work: Work, mail: Mail, turns: Turns)

  const FRESH := State(true,
    Life(true, None, false, false, false, None),
    Work(0, {}, {}, {}, {}, map[]),
    Mail([], false, [], multiset{}, multiset{}, multiset{}),
    Turns(None, {}, map[], false, false, 0))

  // ---------------------------------------------------------------- the operations

  function Plus(m: multiset<JobId>, batch: seq<JobId>): multiset<JobId> { m + multiset(batch) }

  predicate Idle(l: Life) { l.promptDone && l.inflight.None? }

  /** `scheduleRelease` declines while work is counted or a notification is on its way. */
  predicate Held(w: Work, m: Mail) { w.count > 0 || m.pending != [] || m.coalesce }

  function ScheduleRelease(l: Life, held: bool, delay: Delay): Life {
    if held then l else l.(timer := Some(if l.invalidated then Now else delay))
  }

  /** What every end of a prompt does with the mutex: mark done, run the callbacks, let go. */
  function FinishPrompt(l: Life, held: bool): Life {
    var done := l.(promptDone := true, releaseWhenDone := false);
    (if l.releaseWhenDone then ScheduleRelease(done, held, Now) else done).(inflight := None)
  }

  function Cancel(t: Turns): Turns {
    if t.current.Some? then t.(cancelled := t.cancelled + {t.current.value}) else t
  }

  /** `actuallyFinish` of HTTP turn `id`, whose deferred checks `timers` stay armed. */
  function ActuallyFinish(s: State, id: TurnId, timers: nat): State {
    var held := Held(s.work, s.mail);
    s.(life := ScheduleRelease(FinishPrompt(s.life, held), held, Grace),
       turns := s.turns.(cancelled := s.turns.cancelled + {id}, phases := s.turns.phases[id := Over(timers)]))
  }

  /** `discardPendingNotificationsFor`. */
  function Discard(s: State): State {
    var m := s.mail.(pending := [], coalesce := false, dropped := Plus(s.mail.dropped, s.mail.pending));
    s.(mail := m, turns := Cancel(s.turns),
       life := if s.work.count == 0 && Idle(s.life) then ScheduleRelease(s.life, Held(s.work, m), Grace) else s.life)
  }

  function LeaveMap(s: State): State {
    s.(resident := false, life := s.life.(timer := None),
       mail := s.mail.(pending := [], coalesce := false, dropped := Plus(s.mail.dropped, s.mail.pending)))
  }

  // ---------------------------------------------------------------- HTTP turns

  /** The request finds the session invalidated and unused: `getOrCreate` replaces it first. */
  predicate MustRebuild(s: State) { s.life.invalidated && Idle(s.life) && !Held(s.work, s.mail) }

  /** `/api/prompt` from session reuse to the start of the run, or to the 409. */
  function Prompt(s: State, id: TurnId, setupFails: bool, stopPending: bool): Option<State> {
    if id in s.turns.phases then None
    else if MustRebuild(s) then Some(LeaveMap(s))
    else if Idle(s.life) then Some(Claim(Reuse(s), id, setupFails, stopPending))
    else Some(Reuse(s))
  }

  /** `getOrCreate` on a resident session: reuse cancels a pending release. */
  function Reuse(s: State): State {
    if s.life.invalidated && !Idle(s.life) then s else s.(life := s.life.(timer := None))
  }

  /** The mutex is taken in one synchronous stretch; a Stop that named this turn early is consumed. */
  function TakeMutex(s: State, id: TurnId, stopPending: bool): State {
    s.(life := s.life.(promptDone := false, aborted := stopPending, inflight := Some(Http(id))),
       turns := if stopPending then Cancel(s.turns) else s.turns)
  }

  function Claim(s: State, id: TurnId, setupFails: bool, stopPending: bool): State {
    var claimed := TakeMutex(s, id, stopPending);
    if setupFails then claimed.(life := FinishPrompt(claimed.life, Held(s.work, s.mail)))
    else BeginRun(claimed, id)
  }

  /** The turn's own mailbox is installed; a Stop that came first ends the turn before it runs. */
  function BeginRun(s: State, id: TurnId): State {
    var started := s.(turns := s.turns.(current := Some(id)));
    if s.life.aborted then ActuallyFinish(started.(life := s.life.(aborted := false)), id, 0)
    else started.(turns := started.turns.(phases := s.turns.phases[id := Inside], starts := s.turns.starts + 1))
  }

  predicate At(t: Turns, id: TurnId, p: Phase) { id in t.phases && t.phases[id] == p }

  function SetPhase(s: State, id: TurnId, p: Phase): State {
    s.(turns := s.turns.(phases := s.turns.phases[id := p]))
  }

  /** A run of the model is over and the loop waits for background results. */
  function ModelReturns(s: State, id: TurnId): Option<State> {
    if At(s.turns, id, Inside) && !s.life.aborted then Some(SetPhase(s, id, Waiting)) else None
  }

  /** Results or a steer wake the loop, which prompts again unless Stop came first. */
  function ModelResumes(s: State, id: TurnId): Option<State> {
    if At(s.turns, id, Waiting) && !s.life.aborted then
      var t := SetPhase(s, id, Inside);
      Some(t.(turns := t.turns.(starts := t.turns.starts + 1)))
    else None
  }

  /** `onPromptFinish`: deferred while the agent is active, compacting or retrying. */
  function TurnEnds(s: State, id: TurnId): Option<State> {
    if !At(s.turns, id, Inside) && !At(s.turns, id, Waiting) then None
    else if s.turns.busy then Some(SetPhase(s, id, Deferred(0)))
    else Some(ActuallyFinish(s, id, 0))
  }

  /** `agent_end` and its kin while the finish is deferred: one more 50 ms check. */
  function QuietEvent(s: State, id: TurnId): Option<State> {
    if id in s.turns.phases && s.turns.phases[id].Deferred? then
      Some(SetPhase(s, id, Deferred(s.turns.phases[id].timers + 1)))
    else None
  }

  /** A check fires. Nothing here asks whether the turn was finished by an earlier check. */
  function QuietTimer(s: State, id: TurnId): Option<State> {
    if id !in s.turns.phases || s.turns.phases[id].Inside? || s.turns.phases[id].Waiting? || s.turns.phases[id].timers == 0 then None
    else
      var p := s.turns.phases[id];
      if s.turns.busy then Some(SetPhase(s, id, p.(timers := p.timers - 1)))
      else Some(ActuallyFinish(s, id, p.timers - 1))
  }

  // ---------------------------------------------------------------- background jobs

  /** A launch; after Stop the job is only recorded, suppressed and stopped. */
  function Launch(s: State, j: JobId): Option<State> {
    if j in s.work.known then None
    else if s.life.aborted then
      Some(s.(work := s.work.(known := s.work.known + {j}, claimed := s.work.claimed + {j}, suppressed := s.work.suppressed + {j}),
              mail := s.mail.(dropped := Plus(s.mail.dropped, [j]))))
    else
      var owned := s.turns.current.Some? && s.turns.current.value !in s.turns.cancelled;
      Some(s.(life := s.life.(timer := None),
              work := s.work.(count := s.work.count + 1, active := s.work.active + {j}, known := s.work.known + {j},
                              owner := if owned then s.work.owner[j := s.turns.current.value] else s.work.owner)))
  }

  /** `releaseBackgroundWork`, with its clamp at zero. */
  function ReleaseWork(s: State): State {
    var w := s.work.(count := if s.work.count == 0 then 0 else s.work.count - 1);
    s.(work := w,
       life := if w.count == 0 && s.life.promptDone then ScheduleRelease(s.life, Held(w, s.mail), Grace) else s.life)
  }

  /** The spawn throws: the launch is undone and the tool falls back to the foreground. */
  function LaunchFails(s: State, j: JobId): Option<State> {
    if j in s.work.known || s.life.aborted then None
    else Some(ReleaseWork(s.(life := s.life.(timer := None), work := s.work.(count := s.work.count + 1, known := s.work.known + {j}))))
  }

  function Settle(s: State, j: JobId): Option<State> {
    if j !in s.work.active then None
    else Some(ReleaseWork(s.(work := s.work.(active := s.work.active - {j}))))
  }

  /** `notifyParent`: claimed once; to the owning turn, dropped if suppressed, else buffered. */
  function Notify(s: State, j: JobId): Option<State> {
    if j !in s.work.active then None
    else if j in s.work.claimed then Some(s)
    else
      var claimed := s.(work := s.work.(claimed := s.work.claimed + {j}));
      Some(claimed.(mail :=
        if j in s.work.owner then s.mail.(owned := Plus(s.mail.owned, [j]))
        else if j in s.work.suppressed then s.mail.(dropped := Plus(s.mail.dropped, [j]))
        else s.mail.(pending := s.mail.pending + [j], coalesce := true)))
  }

  /** One job is stopped without a wake-up (handoff, failed turn). */
  function Suppress(s: State, j: JobId): Option<State> {
    if j !in s.work.active then None else Some(s.(work := s.work.(suppressed := s.work.suppressed + {j})))
  }

  // ---------------------------------------------------------------- synthetic turns, Stop, release

  /** `flushPendingNotifications`, on the coalescing timer. */
  function Flush(s: State): Option<State> {
    if !s.mail.coalesce then None
    else if s.life.aborted then Some(Discard(s))
    else if !s.life.promptDone then Some(s)
    else Some(s.(mail := s.mail.(coalesce := false, pending := [],
                                 queue := if s.mail.pending == [] then s.mail.queue else s.mail.queue + [s.mail.pending])))
  }

  /** The head of the synthetic queue: dropped after Stop, a follow-up while busy, else its own turn. */
  function SyntheticStart(s: State, accepted: bool): Option<State> {
    if s.turns.synthetic || s.mail.queue == [] then None
    else
      var batch := s.mail.queue[0];
      var m := s.mail.(queue := s.mail.queue[1..]);
      if s.life.aborted then Some(Discard(s.(mail := m.(dropped := Plus(m.dropped, batch)))))
      else if !Idle(s.life) then
        Some(s.(mail := if accepted then m.(delivered := Plus(m.delivered, batch)) else m.(dropped := Plus(m.dropped, batch))))
      else Some(AcquireSynthetic(s.(mail := m.(delivered := Plus(m.delivered, batch)))))
  }

  function AcquireSynthetic(s: State): State {
    s.(life := s.life.(promptDone := false, aborted := false, inflight := Some(Synthetic), timer := None),
       turns := s.turns.(synthetic := true, starts := s.turns.starts + 1))
  }

  function SyntheticEnd(s: State): Option<State> {
    if !s.turns.synthetic then None
    else
      var held := Held(s.work, s.mail);
      var l := FinishPrompt(s.life, held);
      Some(s.(turns := s.turns.(synthetic := false),
              life := if s.work.count == 0 then ScheduleRelease(l, held, Grace) else l))
  }

  /** `/abort`. Only the jobs still `running` are stopped; one that ended but has not settled is not. */
  function Stop(s: State, running: set<JobId>): State {
    var t := Discard(s.(life := s.life.(aborted := true)));
    t.(work := t.work.(suppressed := t.work.suppressed + t.work.active * running))
  }

  function Invalidate(s: State): State {
    var l := s.life.(invalidated := true);
    s.(life := if Idle(l) then ScheduleRelease(l, Held(s.work, s.mail), Now) else l.(releaseWhenDone := true))
  }

  function ReleaseTimer(s: State): Option<State> {
    if s.life.timer.None? then None else Some(LeaveMap(s))
  }

  // ---------------------------------------------------------------- the machine

  datatype Event =
    | PromptArrives(id: TurnId, setupFails: bool, stopPending: bool)
    | ModelReturned(id: TurnId) | ModelResumed(id: TurnId) | TurnEnded(id: TurnId)
    | QuietEventSeen(id: TurnId) | QuietTimerFired(id: TurnId) | AgentBusy(busy: bool)
    | Launched(job: JobId) | LaunchFailed(job: JobId) | Notified(job: JobId) | Settled(job: JobId) | Suppressed(job: JobId)
    | CoalesceTimerFired | SyntheticStarted(accepted: bool) | SyntheticEnded
    | Stopped(running: set<JobId>) | Invalidated | ReleaseTimerFired

  /** The head of the queue has its turn: its start is a microtask of the tick that queued it or ended the turn before it. */
  predicate BatchDue(s: State) { s.mail.queue != [] && !s.turns.synthetic }

  /** Requests and timers come in tasks of their own, and a task begins only when no microtask is left. */
  predicate IsOwnTask(e: Event) {
    e.PromptArrives? || e.QuietTimerFired? || e.CoalesceTimerFired? || e.Stopped? || e.Invalidated? || e.ReleaseTimerFired?
  }

  function Step(s: State, e: Event): Option<State> {
    if !s.resident || (BatchDue(s) && IsOwnTask(e)) then None
    else match e
      case PromptArrives(id, setupFails, stopPending) => Prompt(s, id, setupFails, stopPending)
      case ModelReturned(id) => ModelReturns(s, id)
      case ModelResumed(id) => ModelResumes(s, id)
      case TurnEnded(id) => TurnEnds(s, id)
      case QuietEventSeen(id) => QuietEvent(s, id)
      case QuietTimerFired(id) => QuietTimer(s, id)
      case AgentBusy(b) => Some(s.(turns := s.turns.(busy := b)))
      case Launched(j) => Launch(s, j)
      case LaunchFailed(j) => LaunchFails(s, j)
      case Notified(j) => Notify(s, j)
      case Settled(j) => Settle(s, j)
      case Suppressed(j) => Suppress(s, j)
      case CoalesceTimerFired => Flush(s)
      case SyntheticStarted(accepted) => SyntheticStart(s, accepted)
      case SyntheticEnded => SyntheticEnd(s)
      case Stopped(running) => Some(Stop(s, running))
      case Invalidated => Some(Invalidate(s))
      case ReleaseTimerFired => ReleaseTimer(s)
  }

  /** Runs a sequence of events; a disabled event ends the run. */
  function Run(s: State, events: seq<Event>): Option<State>
    decreases |events|
  {
    if events == [] then Some(s)
    else
      var t := Step(s, events[0]);
      if t.None? then None else Run(t.value, events[1..])
  }
}
