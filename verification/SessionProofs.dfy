/**
 What every step of a resident session keeps: consistent mutex flags, a release timer that is armed
 only for a session nobody needs, exact work counting, and a place for every completion.
 */
module SessionProofs {
  import opened Wrappers
  import opened SessionLifecycle

  /** `_promptDone` is false exactly while the mutex is held; the timer waits only for an unused session. */
  ghost predicate LifeInv(l: Life, held: bool) {
    && (l.promptDone <==> l.inflight.None?)
    && (l.releaseWhenDone ==> !l.promptDone)
    && (l.timer.Some? ==> Idle(l) && !held)
    && (l.timer.Some? && l.invalidated ==> l.timer == Some(Now))
  }

  /** The count is the number of counted jobs, so its clamp at zero is never used. */
  ghost predicate WorkInv(w: Work) {
    w.count == |w.active| && w.active <= w.known && w.claimed <= w.known
  }

  ghost function Queued(queue: seq<seq<JobId>>): multiset<JobId> {
    if queue == [] then multiset{} else multiset(queue[0]) + Queued(queue[1..])
  }

  /** Every claimed completion is in exactly one place. */
  ghost predicate Conserved(m: Mail, claimed: set<JobId>) {
    multiset(claimed) == m.owned + multiset(m.pending) + Queued(m.queue) + m.delivered + m.dropped
  }

  ghost predicate MailInv(m: Mail, claimed: set<JobId>) {
    (m.pending != [] <==> m.coalesce) && (forall i | 0 <= i < |m.queue| :: m.queue[i] != []) && Conserved(m, claimed)
  }

  ghost predicate Inv(s: State) {
    && LifeInv(s.life, Held(s.work, s.mail)) && WorkInv(s.work) && MailInv(s.mail, s.work.claimed)
    && (BatchDue(s) ==> Idle(s.life))
  }

  lemma {:induction false} QueuedAppend(queue: seq<seq<JobId>>, batch: seq<JobId>)
    ensures Queued(queue + [batch]) == Queued(queue) + multiset(batch)
  {
    if queue == [] {
      assert queue + [batch] == [batch];
    } else {
      assert (queue + [batch])[1..] == queue[1..] + [batch];
      QueuedAppend(queue[1..], batch);
    }
  }

  lemma FreshInv()
    ensures Inv(FRESH)
  {
  }

  // ---------------------------------------------------------------- one lemma per kind of step

  lemma FinishKeeps(l: Life, held: bool)
    requires LifeInv(l, held)
    ensures LifeInv(FinishPrompt(l, held), held) && LifeInv(ScheduleRelease(FinishPrompt(l, held), held, Grace), held)
  {
  }

  lemma DiscardKeeps(s: State)
    requires Inv(s)
    ensures Inv(Discard(s)) && Discard(s).work == s.work
  {
  }

  lemma LeaveMapKeeps(s: State)
    requires Inv(s)
    ensures Inv(LeaveMap(s))
  {
  }

  lemma ClaimKeeps(s: State, id: TurnId, setupFails: bool, stopPending: bool)
    requires Inv(s) && s.life.timer.None? && !BatchDue(s)
    ensures Inv(Claim(s, id, setupFails, stopPending))
  {
  }

  lemma PromptKeeps(s: State, id: TurnId, setupFails: bool, stopPending: bool)
    requires Inv(s) && !BatchDue(s)
    ensures var t := Prompt(s, id, setupFails, stopPending); t.Some? ==> Inv(t.value)
  {
    LeaveMapKeeps(s);
    ClaimKeeps(s.(life := s.life.(timer := None)), id, setupFails, stopPending);
  }

  lemma TurnKeeps(s: State, id: TurnId)
    requires Inv(s)
    ensures ModelReturns(s, id).Some? ==> Inv(ModelReturns(s, id).value)
    ensures ModelResumes(s, id).Some? ==> Inv(ModelResumes(s, id).value)
    ensures QuietEvent(s, id).Some? ==> Inv(QuietEvent(s, id).value)
  {
  }

  lemma TurnEndKeeps(s: State, id: TurnId)
    requires Inv(s)
    ensures TurnEnds(s, id).Some? ==> Inv(TurnEnds(s, id).value)
    ensures QuietTimer(s, id).Some? ==> Inv(QuietTimer(s, id).value)
  {
    hide Conserved, WorkInv;
  }

  lemma LaunchKeeps(s: State, j: JobId)
    requires Inv(s)
    ensures Launch(s, j).Some? ==> Inv(Launch(s, j).value)
  {
    hide Conserved, Plus;
    if j !in s.work.known && s.life.aborted {
      ClaimOne(s.mail, Launch(s, j).value.mail, s.work.claimed, j);
    }
  }

  lemma LaunchFailsKeeps(s: State, j: JobId)
    requires Inv(s)
    ensures LaunchFails(s, j).Some? ==> Inv(LaunchFails(s, j).value)
  {
  }

  lemma SettleKeeps(s: State, j: JobId)
    requires Inv(s)
    ensures Settle(s, j).Some? ==> Inv(Settle(s, j).value)
  {
  }

  /** A newly claimed completion is put in one place. */
  lemma ClaimOne(m: Mail, n: Mail, claimed: set<JobId>, j: JobId)
    requires Conserved(m, claimed) && j !in claimed
    requires || n == m.(owned := Plus(m.owned, [j]))
             || n == m.(dropped := Plus(m.dropped, [j]))
             || n == m.(pending := m.pending + [j], coalesce := true)
    ensures Conserved(n, claimed + {j})
  {
    assert multiset(claimed + {j}) == multiset(claimed) + multiset{j};
    assert multiset([j]) == multiset{j};
    assert multiset(m.pending + [j]) == multiset(m.pending) + multiset{j};
  }

  lemma NotifyKeeps(s: State, j: JobId)
    requires Inv(s)
    ensures Notify(s, j).Some? ==> Inv(Notify(s, j).value)
  {
    hide Conserved, Plus;
    if j in s.work.active && j !in s.work.claimed {
      ClaimOne(s.mail, Notify(s, j).value.mail, s.work.claimed, j);
      assert s.work.count > 0;
    }
  }

  lemma FlushKeeps(s: State)
    requires Inv(s)
    ensures Flush(s).Some? ==> Inv(Flush(s).value)
  {
    DiscardKeeps(s);
    QueuedAppend(s.mail.queue, s.mail.pending);
  }

  /** The head of the queue moves to one of the two ends. */
  lemma HeadMoves(m: Mail, claimed: set<JobId>)
    requires MailInv(m, claimed) && m.queue != []
    ensures MailInv(m.(queue := m.queue[1..], dropped := Plus(m.dropped, m.queue[0])), claimed)
    ensures MailInv(m.(queue := m.queue[1..], delivered := Plus(m.delivered, m.queue[0])), claimed)
  {
  }

  lemma SyntheticStartKeeps(s: State, accepted: bool)
    requires Inv(s)
    ensures SyntheticStart(s, accepted).Some? ==> Inv(SyntheticStart(s, accepted).value)
  {
    hide MailInv, Plus, Discard;
    if s.mail.queue != [] && !s.turns.synthetic {
      HeadMoves(s.mail, s.work.claimed);
      var m := s.mail.(queue := s.mail.queue[1..], dropped := Plus(s.mail.dropped, s.mail.queue[0]));
      DiscardKeeps(s.(mail := m));
    }
  }

  lemma SyntheticEndKeeps(s: State)
    requires Inv(s)
    ensures SyntheticEnd(s).Some? ==> Inv(SyntheticEnd(s).value)
  {
  }

  lemma StopKeeps(s: State, running: set<JobId>)
    requires Inv(s)
    ensures Inv(Stop(s, running))
  {
  }

  lemma InvalidateKeeps(s: State)
    requires Inv(s)
    ensures Inv(Invalidate(s))
  {
  }

  lemma StepKeeps(s: State, e: Event)
    requires Inv(s)
    ensures Step(s, e).Some? ==> Inv(Step(s, e).value)
  {
    hide Inv, Prompt, ModelReturns, ModelResumes, TurnEnds, QuietEvent, QuietTimer, Launch, LaunchFails, Settle, Notify,
      Flush, SyntheticStart, SyntheticEnd, Stop, Invalidate, LeaveMap;
    match e {
      case PromptArrives(id, setupFails, stopPending) => if !BatchDue(s) { PromptKeeps(s, id, setupFails, stopPending); }
      case ModelReturned(id) => TurnKeeps(s, id);
      case ModelResumed(id) => TurnKeeps(s, id);
      case TurnEnded(id) => TurnEndKeeps(s, id);
      case QuietEventSeen(id) => TurnKeeps(s, id);
      case QuietTimerFired(id) => TurnEndKeeps(s, id);
      case AgentBusy(b) => BusyKeeps(s, b);
      case Launched(j) => LaunchKeeps(s, j);
      case LaunchFailed(j) => LaunchFailsKeeps(s, j);
      case Notified(j) => NotifyKeeps(s, j);
      case Settled(j) => SettleKeeps(s, j);
      case Suppressed(j) => SuppressKeeps(s, j);
      case CoalesceTimerFired => FlushKeeps(s);
      case SyntheticStarted(accepted) => SyntheticStartKeeps(s, accepted);
      case SyntheticEnded => SyntheticEndKeeps(s);
      case Stopped(running) => StopKeeps(s, running);
      case Invalidated => InvalidateKeeps(s);
      case ReleaseTimerFired => LeaveMapKeeps(s);
    }
  }

  lemma BusyKeeps(s: State, b: bool)
    requires Inv(s)
    ensures Inv(s.(turns := s.turns.(busy := b)))
  {
  }

  lemma SuppressKeeps(s: State, j: JobId)
    requires Inv(s)
    ensures Suppress(s, j).Some? ==> Inv(Suppress(s, j).value)
  {
  }

  /** From any consistent state, hence from a fresh session, every run stays consistent. */
  lemma {:induction false} RunKeeps(s: State, events: seq<Event>)
    requires Inv(s)
    ensures Run(s, events).Some? ==> Inv(Run(s, events).value)
    decreases |events|
  {
    if events != [] && Step(s, events[0]).Some? {
      StepKeeps(s, events[0]);
      RunKeeps(Step(s, events[0]).value, events[1..]);
    }
  }
}
