/**
 What each event does to a session, for whoever looks at its fields: which turn holds the mutex, when
 the session will be released, who owns a job, and where the notifications go.
 */
module SessionEffects {
  import opened Wrappers
  import opened SessionLifecycle
  import opened SessionProofs

  /** A release is scheduled exactly when no job and no notification holds the session. */
  ghost predicate ReleasesIffUnheld(s: State) {
    s.life.timer.Some? <==> s.work.count == 0 && s.mail.pending == [] && !s.mail.coalesce
  }

  ghost predicate SameWork(s: State, t: State) { t.resident == s.resident && t.work == s.work }

  /** The phase of turn `id` is the only one that changes. */
  ghost predicate OnlyPhase(s: State, t: State, id: TurnId, p: Phase) {
    && id in t.turns.phases && t.turns.phases[id] == p
    && forall k | k != id :: (k in s.turns.phases <==> k in t.turns.phases) && (k in s.turns.phases ==> t.turns.phases[k] == s.turns.phases[k])
  }

  // ---------------------------------------------------------------- turns

  /** An invalidated session that nobody uses is replaced; a busy one answers busy; else the turn claims it. */
  lemma PromptEffect(s: State, id: TurnId, setupFails: bool, stopPending: bool)
    requires Inv(s) && s.resident && id !in s.turns.phases && !BatchDue(s)
    ensures var t := Step(s, PromptArrives(id, setupFails, stopPending)).value;
      var idle := s.life.promptDone && s.life.inflight.None?;
      && (!t.resident <==> idle && s.life.invalidated && s.work.count == 0 && s.mail.pending == [] && !s.mail.coalesce)
      && (!idle ==> t == s)
      && (idle && t.resident ==>
            && t.work == s.work && t.mail == s.mail && t.turns.synthetic == s.turns.synthetic
            && (stopPending && s.turns.current.Some? ==> s.turns.current.value in t.turns.cancelled)
            && t.life.invalidated == s.life.invalidated
            && if setupFails then
                 t.life.inflight.None? && t.life.promptDone && t.life.timer.None? && t.life.aborted == stopPending
                 && t.turns.phases == s.turns.phases && t.turns.starts == s.turns.starts && t.turns.current == s.turns.current
               else if stopPending then
                 t.life.inflight.None? && t.life.promptDone && !t.life.aborted && ReleasesIffUnheld(t) && OnlyPhase(s, t, id, Over(0))
                 && t.turns.starts == s.turns.starts && t.turns.current == Some(id) && id in t.turns.cancelled
               else
                 t.life.inflight == Some(Http(id)) && !t.life.aborted && t.life.timer.None? && OnlyPhase(s, t, id, Inside)
                 && t.turns.starts == s.turns.starts + 1 && t.turns.current == Some(id) && t.turns.cancelled == s.turns.cancelled)
  {
    hide Conserved;
  }

  /** The loop of a turn waits and prompts again, as long as nobody has pressed Stop. */
  lemma LoopEffect(s: State, id: TurnId, p: Phase)
    requires s.resident && id in s.turns.phases && s.turns.phases[id] == p
    ensures var t := Step(s, ModelReturned(id));
      && (t.Some? <==> p == Inside && !s.life.aborted)
      && (t.Some? ==> OnlyPhase(s, t.value, id, Waiting) && t.value.life == s.life && t.value.turns.starts == s.turns.starts)
    ensures var t := Step(s, ModelResumed(id));
      && (t.Some? <==> p == Waiting && !s.life.aborted)
      && (t.Some? ==> OnlyPhase(s, t.value, id, Inside) && t.value.life == s.life && t.value.turns.starts == s.turns.starts + 1)
  {
  }

  /** A turn ends at once, or after the agent has come to rest; then the mutex is free and the mailbox closed. */
  lemma EndedTurn(s: State, id: TurnId, timers: nat)
    requires Inv(s)
    ensures var t := ActuallyFinish(s, id, timers);
      && t.life.promptDone && t.life.inflight.None? && ReleasesIffUnheld(t) && SameWork(s, t) && t.mail == s.mail
      && OnlyPhase(s, t, id, Over(timers)) && id in t.turns.cancelled
  {
    hide Conserved;
  }

  lemma TurnEndEffect(s: State, id: TurnId)
    requires Inv(s) && s.resident && id in s.turns.phases
    ensures var p, t := s.turns.phases[id], Step(s, TurnEnded(id));
      && (t.Some? <==> p == Inside || p == Waiting)
      && (t.Some? ==>
            if s.turns.busy then OnlyPhase(s, t.value, id, Deferred(0)) && t.value.life == s.life
            else t.value.life.inflight.None? && OnlyPhase(s, t.value, id, Over(0)) && ReleasesIffUnheld(t.value) && id in t.value.turns.cancelled)
  {
    hide Conserved;
  }

  /** Each quiet event of a deferred turn arms one more check; a check that fires ends the turn unless the agent is busy. */
  lemma QuietEffect(s: State, id: TurnId)
    requires Inv(s) && s.resident && id in s.turns.phases
    ensures var p, t := s.turns.phases[id], Step(s, QuietEventSeen(id));
      && (t.Some? <==> p.Deferred?) && (t.Some? ==> OnlyPhase(s, t.value, id, Deferred(p.timers + 1)) && t.value.life == s.life)
    ensures var p, t := s.turns.phases[id], Step(s, QuietTimerFired(id));
      && (t.Some? <==> !BatchDue(s) && (p.Deferred? || p.Over?) && p.timers > 0)
      && (t.Some? ==>
            if s.turns.busy then OnlyPhase(s, t.value, id, p.(timers := p.timers - 1)) && t.value.life == s.life
            else t.value.life.inflight.None? && OnlyPhase(s, t.value, id, Over(p.timers - 1)) && ReleasesIffUnheld(t.value))
  {
    hide Conserved;
  }

  lemma BusyEffect(s: State, busy: bool)
    requires s.resident
    ensures Step(s, AgentBusy(busy)) == Some(s.(turns := s.turns.(busy := busy)))
  {
  }

  /** A session that leaves the map takes no further event, and its timer is gone. */
  lemma ReleaseEffect(s: State, e: Event)
    requires Inv(s) && s.resident && s.life.timer.Some? && !BatchDue(s)
    ensures var t := Step(s, ReleaseTimerFired);
      && t.Some? && !t.value.resident && t.value.life.timer.None? && t.value.mail == s.mail && t.value.work == s.work
      && Step(t.value, e).None?
  {
    hide Conserved;
    assert s.mail.pending == [];
  }

  // ---------------------------------------------------------------- jobs

  /** A launch counts the job for the turn whose mailbox is open; after Stop it is only recorded, and silenced. */
  lemma LaunchEffect(s: State, j: JobId)
    requires Inv(s) && s.resident && j !in s.work.known
    ensures var t := Step(s, Launched(j)).value; var open := s.turns.current.Some? && s.turns.current.value !in s.turns.cancelled;
      && t.turns == s.turns && j in t.work.known
      && if s.life.aborted then
           t.life == s.life && t.work.count == s.work.count && t.work.active == s.work.active && t.work.owner == s.work.owner
           && j in t.work.claimed && j in t.work.suppressed && t.mail == s.mail.(dropped := s.mail.dropped + multiset{j})
         else
           t.life.timer.None? && t.work.count == s.work.count + 1 && t.work.active == s.work.active + {j} && j !in t.work.claimed
           && t.mail == s.mail && t.work.owner == if open then s.work.owner[j := s.turns.current.value] else s.work.owner
  {
    hide Conserved;
  }

  lemma LaunchFailsEffect(s: State, j: JobId)
    requires Inv(s) && s.resident && j !in s.work.known && !s.life.aborted
    ensures var t := Step(s, LaunchFailed(j)).value;
      && t.work == s.work.(known := s.work.known + {j}) && t.mail == s.mail && t.turns == s.turns
      && (s.life.promptDone ==> ReleasesIffUnheld(t))
  {
    hide Conserved;
  }

  lemma SettleEffect(s: State, j: JobId)
    requires Inv(s) && s.resident && j in s.work.active
    ensures var t := Step(s, Settled(j)).value;
      && t.work == s.work.(active := s.work.active - {j}, count := s.work.count - 1) && t.mail == s.mail && t.turns == s.turns
      && (s.life.promptDone ==> ReleasesIffUnheld(t)) && (!s.life.promptDone ==> t.life == s.life)
  {
    hide Conserved;
  }

  /** Where the completion of an active job goes the first time it is reported; a buffered one has its timer. */
  lemma NotifyEffect(s: State, j: JobId)
    requires Inv(s) && s.resident && j in s.work.active
    ensures var t := Step(s, Notified(j)).value; var m := s.mail;
      && t.work == s.work.(claimed := s.work.claimed + {j}) && t.life == s.life && t.turns == s.turns
      && t.mail ==
         if j in s.work.claimed then m
         else if j in s.work.owner then m.(owned := m.owned + multiset{j})
         else if j in s.work.suppressed then m.(dropped := m.dropped + multiset{j})
         else m.(pending := m.pending + [j], coalesce := true)
  {
  }

  lemma SuppressEffect(s: State, j: JobId)
    requires s.resident && j in s.work.active
    ensures Step(s, Suppressed(j)) == Some(s.(work := s.work.(suppressed := s.work.suppressed + {j})))
  {
  }

  // ---------------------------------------------------------------- notifications, Stop, release

  /** The buffer is dropped after Stop, kept with its timer while a turn runs, and else queued as one batch behind the others. */
  lemma FlushEffect(s: State)
    requires Inv(s) && s.resident && s.mail.coalesce && !BatchDue(s)
    ensures var t := Step(s, CoalesceTimerFired).value; var m := s.mail;
      && SameWork(s, t) && t.mail ==
         if s.life.aborted then m.(pending := [], coalesce := false, dropped := m.dropped + multiset(m.pending))
         else if s.life.inflight.Some? then m
         else m.(pending := [], coalesce := false, queue := m.queue + [m.pending])
  {
    hide Conserved;
  }

  /** A batch that has its turn is the model's next prompt, or dropped if Stop came first. */
  lemma SyntheticEffect(s: State, accepted: bool)
    requires Inv(s) && s.resident && BatchDue(s)
    ensures var t := Step(s, SyntheticStarted(accepted)).value; var batch := s.mail.queue[0];
      && SameWork(s, t) && t.mail.queue == s.mail.queue[1..]
      && (s.life.aborted ==>
            && !t.turns.synthetic && t.life.inflight.None? && t.turns.starts == s.turns.starts && t.mail.delivered == s.mail.delivered
            && t.mail.pending == [] && !t.mail.coalesce && multiset(batch) <= t.mail.dropped)
      && (!s.life.aborted ==>
            && t.turns.synthetic && t.life.inflight == Some(Synthetic) && !t.life.promptDone && t.life.timer.None?
            && t.turns.starts == s.turns.starts + 1 && t.mail.delivered == s.mail.delivered + multiset(batch))
  {
    hide Conserved;
  }

  lemma SyntheticEndEffect(s: State)
    requires Inv(s) && s.resident && s.turns.synthetic
    ensures var t := Step(s, SyntheticEnded).value;
      && !t.turns.synthetic && t.life.promptDone && t.life.inflight.None? && ReleasesIffUnheld(t) && SameWork(s, t) && t.mail == s.mail
  {
    hide Conserved;
  }

  /** Stop: the flag stays, the current mailbox is cancelled, the buffer dropped, the running jobs silenced. */
  lemma StopEffect(s: State, running: set<JobId>)
    requires Inv(s) && s.resident && !BatchDue(s)
    ensures var t := Step(s, Stopped(running)).value; var m := s.mail;
      && t.life.aborted && t.life.inflight == s.life.inflight
      && t.mail == m.(pending := [], coalesce := false, dropped := m.dropped + multiset(m.pending))
      && t.work == s.work.(suppressed := s.work.suppressed + s.work.active * running)
      && t.turns == (if s.turns.current.Some? then s.turns.(cancelled := s.turns.cancelled + {s.turns.current.value}) else s.turns)
      && (s.life.promptDone && s.life.inflight.None? ==> t.life.promptDone && t.life.inflight.None? && ReleasesIffUnheld(t))
  {
    hide Conserved;
  }

  /** The next prompt rebuilds the session: an idle one is released at once if nothing holds it, a busy one when it is done. */
  lemma InvalidateEffect(s: State)
    requires Inv(s) && s.resident && !BatchDue(s)
    ensures var t := Step(s, Invalidated).value;
      && t.life.invalidated && SameWork(s, t) && t.mail == s.mail && t.turns == s.turns
      && if s.life.promptDone && s.life.inflight.None? then ReleasesIffUnheld(t) && t.life.timer != Some(Grace) && t.life.inflight.None?
         else t.life.releaseWhenDone && t.life.timer.None?
  {
    hide Conserved;
  }

  /** What a prompt-done callback left behind by `invalidate` does when the prompt is over. */
  lemma CallbackEffect(l: Life, held: bool)
    requires l.releaseWhenDone && !held
    ensures FinishPrompt(l, held).timer == Some(Now) && !FinishPrompt(l, held).releaseWhenDone
  {
  }

  // ---------------------------------------------------------------- when it will be released

  /** An armed release waits for the grace period exactly if the session is not to be rebuilt. */
  ghost predicate DelayInv(l: Life) {
    && (l.releaseWhenDone ==> l.invalidated)
    && (l.timer.Some? ==> (l.timer.value.Now? <==> l.invalidated))
  }

  lemma StepDelays(s: State, e: Event)
    requires Inv(s) && DelayInv(s.life) && Step(s, e).Some?
    ensures DelayInv(Step(s, e).value.life)
  {
    hide Conserved, WorkInv;
  }

  lemma {:induction false} RunDelays(s: State, events: seq<Event>)
    requires Inv(s) && DelayInv(s.life) && Run(s, events).Some?
    ensures DelayInv(Run(s, events).value.life)
    decreases |events|
  {
    hide Inv, DelayInv, Step;
    if events != [] {
      StepDelays(s, events[0]);
      StepKeeps(s, events[0]);
      RunDelays(Step(s, events[0]).value, events[1..]);
    }
  }

  /** Over every run, a scheduled release is immediate exactly if the session was invalidated. */
  lemma ReleaseIsImmediateIff(events: seq<Event>)
    requires Run(FRESH, events).Some? && Run(FRESH, events).value.life.timer.Some?
    ensures Run(FRESH, events).value.life.timer.value.Now? <==> Run(FRESH, events).value.life.invalidated
  {
    FreshInv();
    RunDelays(FRESH, events);
  }
}
