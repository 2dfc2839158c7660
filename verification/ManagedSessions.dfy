/**
 The session as the program keeps it: one object whose fields the manager and the HTTP handlers
 update in place. Each method that is an event of the machine does that event's step and keeps the
 machine's invariant, so what is proved about runs of the machine holds of the object; the other
 methods are parts that events share.
 */
module ManagedSessions {
  import opened Wrappers
  import opened SessionLifecycle
  import opened SessionProofs
  import opened SessionEffects

  /** In how many places the completion of `j` is. */
  ghost function Places(m: Mail, j: JobId): nat {
    m.owned[j] + multiset(m.pending)[j] + Queued(m.queue)[j] + m.delivered[j] + m.dropped[j]
  }

  lemma ClaimedIsInOnePlace(s: State, j: JobId)
    requires Inv(s) && j in s.work.claimed
    ensures Places(s.mail, j) == 1
  {
    assert multiset(s.work.claimed)[j] == 1;
  }

  datatype Verdict = Rebuilding | Busy | SetupFailed | AbortedBeforeStart | Running

  class ManagedSession {
    var resident: bool
    var promptDone: bool
    var promptInflight: Option<Owner>
    var aborted: bool
    var invalidated: bool
    var releaseWhenDone: bool
    var releaseTimer: Option<Delay>
    var backgroundWorkCount: nat
    var pendingNotifications: seq<JobId>
    var coalesceTimer: bool
    var syntheticPromptQueue: seq<seq<JobId>>
    /** The manager's job registry and `backgroundWorkOwners`. */
    var jobs: Work
    /** `_backgroundWorkTurn` and the running turns. */
    var turns: Turns
    ghost var owned: multiset<JobId>
    ghost var delivered: multiset<JobId>
    ghost var dropped: multiset<JobId>

    ghost function LifeView(): Life
      reads this`promptDone, this`promptInflight, this`aborted, this`invalidated, this`releaseWhenDone, this`releaseTimer
    {
      Life(promptDone, promptInflight, aborted, invalidated, releaseWhenDone, releaseTimer)
    }

    ghost function MailView(): Mail
      reads this`pendingNotifications, this`coalesceTimer, this`syntheticPromptQueue, this`owned, this`delivered, this`dropped
    {
      Mail(pendingNotifications, coalesceTimer, syntheticPromptQueue, owned, delivered, dropped)
    }

    ghost function View(): State
      reads this
    {
      State(resident, LifeView(), jobs.(count := backgroundWorkCount), MailView(), turns)
    }

    constructor ()
      ensures View() == FRESH && Inv(View())
    {
      resident, promptDone, promptInflight, aborted, invalidated := true, true, None, false, false;
      releaseWhenDone, releaseTimer, backgroundWorkCount := false, None, 0;
      pendingNotifications, coalesceTimer, syntheticPromptQueue := [], false, [];
      jobs, turns := FRESH.work, FRESH.turns;
      owned, delivered, dropped := multiset{}, multiset{}, multiset{};
    }

    method ScheduleRelease(delay: Delay)
      modifies this`releaseTimer
      ensures View() == old(View()).(life := SessionLifecycle.ScheduleRelease(old(View().life), old(Held(View().work, View().mail)), delay))
      ensures old(LifeInv(LifeView(), Held(View().work, View().mail)) && promptDone) ==>
        LifeInv(LifeView(), Held(View().work, View().mail)) && ReleasesIffUnheld(View())
    {
      if backgroundWorkCount > 0 { return; }
      if |pendingNotifications| > 0 || coalesceTimer { return; }
      releaseTimer := Some(if invalidated then Now else delay);
    }

    /** The shared end of every prompt: done flag, callbacks, mutex. */
    method ReleaseMutex()
      modifies this`promptDone, this`releaseWhenDone, this`releaseTimer, this`promptInflight
      ensures View() == old(View()).(life := FinishPrompt(old(View().life), old(Held(View().work, View().mail))))
    {
      promptDone := true;
      if releaseWhenDone {
        ScheduleRelease(Now);
        releaseWhenDone := false;
      }
      promptInflight := None;
    }

    method ActuallyFinish(id: TurnId, timers: nat)
      modifies this`promptDone, this`promptInflight, this`aborted, this`invalidated, this`releaseWhenDone, this`releaseTimer, this`turns
      ensures View() == SessionLifecycle.ActuallyFinish(old(View()), id, timers)
    {
      hide MailView;
      turns := turns.(cancelled := turns.cancelled + {id}, phases := turns.phases[id := Over(timers)]);
      ReleaseMutex();
      ScheduleRelease(Grace);
    }

    method DiscardPendingNotifications()
      modifies this
      ensures View() == Discard(old(View()))
    {
      hide Plus;
      turns := Cancel(turns);
      dropped := Plus(dropped, pendingNotifications);
      pendingNotifications, coalesceTimer := [], false;
      if backgroundWorkCount == 0 && promptDone && promptInflight.None? { ScheduleRelease(Grace); }
    }

    method Release()
      modifies this`dropped, this`pendingNotifications, this`coalesceTimer, this`releaseTimer, this`resident
      ensures View() == LeaveMap(old(View()))
    {
      hide Plus;
      dropped := Plus(dropped, pendingNotifications);
      pendingNotifications, coalesceTimer, releaseTimer, resident := [], false, None, false;
    }

    /** `/api/prompt`, from `getOrCreate` to the answer. */
    method HandlePrompt(id: TurnId, setupFails: bool, stopPending: bool) returns (verdict: Verdict)
      requires resident && !BatchDue(View()) && Inv(View()) && id !in turns.phases
      modifies this
      ensures Some(View()) == Step(old(View()), PromptArrives(id, setupFails, stopPending)) && Inv(View())
      ensures (verdict.Busy? <==> old(!Idle(LifeView()))) && (verdict.Rebuilding? <==> !resident)
      ensures verdict.SetupFailed? ==> Idle(LifeView()) && releaseTimer.None?
      ensures verdict.AbortedBeforeStart? ==> Idle(LifeView()) && ReleasesIffUnheld(View())
      ensures verdict.Running? ==> promptInflight == Some(Http(id)) && turns.current == Some(id) && releaseTimer.None?
    {
      hide Claim, LeaveMap, Reuse, Inv, ReleasesIffUnheld;
      StepKeeps(View(), PromptArrives(id, setupFails, stopPending));
      PromptEffect(View(), id, setupFails, stopPending);
      if invalidated && promptDone && promptInflight.None? && backgroundWorkCount == 0 && |pendingNotifications| == 0 && !coalesceTimer {
        Release();
        return Rebuilding;
      }
      var busy := !promptDone || promptInflight.Some?;
      ReuseSession();
      if busy { return Busy; }
      verdict := ClaimPrompt(id, setupFails, stopPending);
    }

    method ReuseSession()
      modifies this`releaseTimer
      ensures View() == Reuse(old(View()))
    {
      if !(invalidated && (!promptDone || promptInflight.Some?)) { releaseTimer := None; }
    }

    method ClaimPrompt(id: TurnId, setupFails: bool, stopPending: bool) returns (verdict: Verdict)
      modifies this`promptDone, this`promptInflight, this`aborted, this`invalidated, this`releaseWhenDone, this`releaseTimer, this`turns
      ensures View() == Claim(old(View()), id, setupFails, stopPending)
      ensures verdict == if setupFails then SetupFailed else if stopPending then AbortedBeforeStart else Running
    {
      hide MailView, BeginRun, TakeMutex;
      AcquireForHttp(id, stopPending);
      if setupFails {
        ReleaseMutex();
        verdict := SetupFailed;
      } else {
        verdict := StartRun(id);
      }
    }

    method AcquireForHttp(id: TurnId, stopPending: bool)
      modifies this`promptDone, this`promptInflight, this`aborted, this`turns
      ensures View() == TakeMutex(old(View()), id, stopPending) && aborted == stopPending
    {
      hide MailView;
      promptDone, aborted := false, false;
      if stopPending {
        aborted := true;
        turns := Cancel(turns);
      }
      promptInflight := Some(Http(id));
    }

    method StartRun(id: TurnId) returns (verdict: Verdict)
      modifies this`promptDone, this`promptInflight, this`aborted, this`invalidated, this`releaseWhenDone, this`releaseTimer, this`turns
      ensures View() == BeginRun(old(View()), id)
      ensures verdict == if old(aborted) then AbortedBeforeStart else Running
    {
      hide MailView;
      turns := turns.(current := Some(id));
      if aborted {
        aborted := false;
        ActuallyFinish(id, 0);
        return AbortedBeforeStart;
      }
      turns := turns.(phases := turns.phases[id := Inside], starts := turns.starts + 1);
      verdict := Running;
    }

    method OnPromptFinish(id: TurnId)
      requires resident && Inv(View()) && (At(turns, id, Inside) || At(turns, id, Waiting))
      modifies this`promptDone, this`promptInflight, this`aborted, this`invalidated, this`releaseWhenDone, this`releaseTimer, this`turns
      ensures Some(View()) == Step(old(View()), TurnEnded(id)) && Inv(View())
      ensures if old(turns.busy) then LifeView() == old(LifeView()) else Idle(LifeView()) && ReleasesIffUnheld(View())
    {
      hide MailView, Inv, ReleasesIffUnheld, SessionLifecycle.ActuallyFinish;
      StepKeeps(View(), TurnEnded(id));
      EndedTurn(View(), id, 0);
      if turns.busy {
        turns := turns.(phases := turns.phases[id := Deferred(0)]);
        return;
      }
      ActuallyFinish(id, 0);
    }

    /** One 50 ms check of a deferred finish. */
    method DeferredCheck(id: TurnId)
      requires resident && !BatchDue(View()) && Inv(View()) && QuietTimer(View(), id).Some?
      modifies this`promptDone, this`promptInflight, this`aborted, this`invalidated, this`releaseWhenDone, this`releaseTimer, this`turns
      ensures Some(View()) == Step(old(View()), QuietTimerFired(id)) && Inv(View())
      ensures if old(turns.busy) then LifeView() == old(LifeView()) else Idle(LifeView()) && ReleasesIffUnheld(View())
    {
      hide MailView, Inv, ReleasesIffUnheld, SessionLifecycle.ActuallyFinish;
      StepKeeps(View(), QuietTimerFired(id));
      EndedTurn(View(), id, turns.phases[id].timers - 1);
      var p := turns.phases[id];
      if turns.busy {
        turns := turns.(phases := turns.phases[id := p.(timers := p.timers - 1)]);
      } else {
        ActuallyFinish(id, p.timers - 1);
      }
    }

    /** The launch of a background job, its spawn succeeding. */
    method LaunchJob(j: JobId)
      requires resident && Inv(View()) && j !in jobs.known
      modifies this
      ensures Some(View()) == Step(old(View()), Launched(j)) && Inv(View())
      ensures if old(aborted) then j in jobs.claimed && Places(MailView(), j) == 1 && jobs.active == old(jobs.active)
              else j in jobs.active && releaseTimer.None?
    {
      hide Plus, Inv, Places;
      StepKeeps(View(), Launched(j));
      if aborted { ClaimedIsInOnePlace(Step(View(), Launched(j)).value, j); }
      if aborted {
        jobs := jobs.(known := jobs.known + {j}, claimed := jobs.claimed + {j}, suppressed := jobs.suppressed + {j});
        dropped := Plus(dropped, [j]);
        return;
      }
      backgroundWorkCount, releaseTimer := backgroundWorkCount + 1, None;
      jobs := jobs.(active := jobs.active + {j}, known := jobs.known + {j});
      if turns.current.Some? && turns.current.value !in turns.cancelled {
        jobs := jobs.(owner := jobs.owner[j := turns.current.value]);
      }
    }

    method ReleaseBackgroundWork()
      modifies this`promptDone, this`promptInflight, this`aborted, this`invalidated, this`releaseWhenDone, this`releaseTimer, this`backgroundWorkCount
      ensures View() == ReleaseWork(old(View()))
      ensures backgroundWorkCount == if old(backgroundWorkCount) == 0 then 0 else old(backgroundWorkCount) - 1
    {
      hide MailView;
      if backgroundWorkCount > 0 { backgroundWorkCount := backgroundWorkCount - 1; }
      if backgroundWorkCount == 0 && promptDone { ScheduleRelease(Grace); }
    }

    /** The job's process is gone. */
    method SettleJob(j: JobId)
      requires resident && Inv(View()) && j in jobs.active
      modifies this
      ensures Some(View()) == Step(old(View()), Settled(j)) && Inv(View())
      ensures backgroundWorkCount == old(backgroundWorkCount) - 1
      ensures Idle(LifeView()) && backgroundWorkCount == 0 ==> ReleasesIffUnheld(View())
    {
      hide MailView, Inv, ReleasesIffUnheld, ReleaseWork;
      StepKeeps(View(), Settled(j));
      SettleEffect(View(), j);
      jobs := jobs.(active := jobs.active - {j});
      ReleaseBackgroundWork();
    }

    /** The spawn throws after the job was counted. */
    method LaunchJobFails(j: JobId)
      requires resident && Inv(View()) && j !in jobs.known && !aborted
      modifies this
      ensures Some(View()) == Step(old(View()), LaunchFailed(j)) && Inv(View())
      ensures backgroundWorkCount == old(backgroundWorkCount) && jobs.active == old(jobs.active)
    {
      hide MailView, Inv, ReleaseWork;
      StepKeeps(View(), LaunchFailed(j));
      backgroundWorkCount, releaseTimer := backgroundWorkCount + 1, None;
      jobs := jobs.(known := jobs.known + {j});
      ReleaseBackgroundWork();
    }

    method ReleaseTimerFires()
      requires resident && !BatchDue(View()) && Inv(View()) && releaseTimer.Some?
      modifies this
      ensures Some(View()) == Step(old(View()), ReleaseTimerFired) && Inv(View())
      ensures !resident && dropped == old(dropped) && old(Idle(LifeView()) && backgroundWorkCount == 0)
    {
      hide Conserved, WorkInv;
      StepKeeps(View(), ReleaseTimerFired);
      assert pendingNotifications == [];
      Release();
    }

    method NotifyParent(j: JobId)
      requires resident && Inv(View()) && j in jobs.active
      modifies this
      ensures Some(View()) == Step(old(View()), Notified(j)) && Inv(View())
      ensures j in jobs.claimed && Places(MailView(), j) == 1
      ensures old(j !in jobs.claimed && j !in jobs.owner && j !in jobs.suppressed) ==>
                pendingNotifications == old(pendingNotifications) + [j] && coalesceTimer
    {
      hide Inv, Places;
      StepKeeps(View(), Notified(j));
      NotifyEffect(View(), j);
      ClaimedIsInOnePlace(Step(View(), Notified(j)).value, j);
      ClaimNotification(j);
    }

    method ClaimNotification(j: JobId)
      requires j in jobs.active
      modifies this
      ensures Some(View()) == Notify(old(View()), j)
    {
      hide Plus;
      if j in jobs.claimed { return; }
      jobs := jobs.(claimed := jobs.claimed + {j});
      if j in jobs.owner {
        owned := Plus(owned, [j]);
        return;
      }
      if j in jobs.suppressed {
        dropped := Plus(dropped, [j]);
        return;
      }
      pendingNotifications := pendingNotifications + [j];
      if !coalesceTimer { coalesceTimer := true; }
    }

    method FlushPendingNotifications()
      requires resident && !BatchDue(View()) && Inv(View()) && coalesceTimer
      modifies this
      ensures Some(View()) == Step(old(View()), CoalesceTimerFired) && Inv(View())
      ensures if old(!aborted && !Idle(LifeView())) then MailView() == old(MailView())
              else pendingNotifications == [] && syntheticPromptQueue == old(syntheticPromptQueue) + if aborted then [] else [old(pendingNotifications)]
    {
      hide Plus, Inv;
      StepKeeps(View(), CoalesceTimerFired);
      FlushEffect(View());
      coalesceTimer := false;
      if aborted {
        DiscardPendingNotifications();
        return;
      }
      if !promptDone {
        coalesceTimer := true;
        return;
      }
      var batch := pendingNotifications;
      pendingNotifications := [];
      if |batch| == 0 { return; }
      syntheticPromptQueue := syntheticPromptQueue + [batch];
    }

    /** The head of the synthetic queue gets its turn; the brain's answer to a follow-up is never asked for. */
    method RunSyntheticPrompt(accepted: bool)
      requires resident && Inv(View()) && !turns.synthetic && syntheticPromptQueue != []
      modifies this
      ensures Some(View()) == Step(old(View()), SyntheticStarted(accepted)) && Inv(View())
      ensures turns.synthetic <==> old(!aborted)
      ensures turns.synthetic ==> promptInflight == Some(Synthetic) && releaseTimer.None?
      ensures delivered == if old(aborted) then old(delivered) else old(delivered) + multiset(old(syntheticPromptQueue[0]))
    {
      hide Inv, SyntheticStart;
      StepKeeps(View(), SyntheticStarted(accepted));
      SyntheticEffect(View(), accepted);
      HandOver(accepted);
    }

    method HandOver(accepted: bool)
      requires !turns.synthetic && syntheticPromptQueue != []
      modifies this
      ensures Some(View()) == SyntheticStart(old(View()), accepted)
    {
      hide Plus, Discard, AcquireSynthetic;
      var batch := syntheticPromptQueue[0];
      syntheticPromptQueue := syntheticPromptQueue[1..];
      if aborted {
        dropped := Plus(dropped, batch);
        DiscardPendingNotifications();
        return;
      }
      if !promptDone || promptInflight.Some? {
        if accepted { delivered := Plus(delivered, batch); } else { dropped := Plus(dropped, batch); }
        return;
      }
      delivered := Plus(delivered, batch);
      AcquireForSynthetic();
    }

    method AcquireForSynthetic()
      modifies this`promptDone, this`promptInflight, this`aborted, this`invalidated, this`releaseWhenDone, this`releaseTimer, this`turns
      ensures View() == AcquireSynthetic(old(View()))
    {
      hide MailView;
      promptDone, aborted := false, false;
      if releaseTimer.Some? { releaseTimer := None; }
      promptInflight := Some(Synthetic);
      turns := turns.(synthetic := true, starts := turns.starts + 1);
    }

    method FinishSyntheticPrompt()
      requires resident && Inv(View()) && turns.synthetic
      modifies this`promptDone, this`promptInflight, this`aborted, this`invalidated, this`releaseWhenDone, this`releaseTimer, this`turns
      ensures Some(View()) == Step(old(View()), SyntheticEnded) && Inv(View())
      ensures Idle(LifeView()) && ReleasesIffUnheld(View())
    {
      hide MailView, Inv, ReleasesIffUnheld;
      StepKeeps(View(), SyntheticEnded);
      SyntheticEndEffect(View());
      turns := turns.(synthetic := false);
      ReleaseMutex();
      if backgroundWorkCount == 0 { ScheduleRelease(Grace); }
    }

    /** `/abort` of the running turn. */
    method Abort(running: set<JobId>)
      requires resident && !BatchDue(View()) && Inv(View())
      modifies this
      ensures Some(View()) == Step(old(View()), Stopped(running)) && Inv(View())
      ensures aborted && pendingNotifications == [] && !coalesceTimer && jobs.active * running <= jobs.suppressed
      ensures old(Idle(LifeView())) ==> Idle(LifeView()) && ReleasesIffUnheld(View())
      ensures turns.current.Some? ==> turns.current.value in turns.cancelled
    {
      hide Plus, Inv, Discard, ReleasesIffUnheld;
      StepKeeps(View(), Stopped(running));
      StopEffect(View(), running);
      aborted := true;
      DiscardPendingNotifications();
      jobs := jobs.(suppressed := jobs.suppressed + jobs.active * running);
    }

    method MarkInvalidated()
      requires resident && !BatchDue(View()) && Inv(View())
      modifies this`promptDone, this`promptInflight, this`aborted, this`invalidated, this`releaseWhenDone, this`releaseTimer
      ensures Some(View()) == Step(old(View()), Invalidated) && Inv(View())
      ensures if Idle(LifeView()) then ReleasesIffUnheld(View()) && releaseTimer != Some(Grace) else releaseWhenDone && releaseTimer.None?
    {
      hide MailView, Inv, ReleasesIffUnheld;
      StepKeeps(View(), Invalidated);
      InvalidateEffect(View());
      invalidated := true;
      if promptDone && promptInflight.None? {
        ScheduleRelease(Now);
      } else {
        releaseWhenDone := true;
      }
    }
  }
}
