/** What the session guarantees over whole runs, and exactly where the deferred finish breaks it. */
module SessionTheorems {
  import opened Wrappers
  import opened SessionLifecycle
  import opened SessionProofs

  // ---------------------------------------------------------------- who is inside brain.prompt

  predicate Holding(p: Phase) { p.Inside? || p.Waiting? || p.Deferred? }

  predicate Holds(t: Turns, id: TurnId) { id in t.phases && Holding(t.phases[id]) }

  /** The mutex is held by exactly the turn that is running. */
  ghost predicate Ownership(l: Life, t: Turns) {
    && (forall id :: Holds(t, id) <==> l.inflight == Some(Http(id)))
    && (t.synthetic <==> l.inflight == Some(Synthetic))
  }

  /** Another check of a deferred finish fires after its turn is over, while somebody holds the mutex. */
  predicate StaleFinish(s: State, e: Event) {
    && s.resident && !BatchDue(s) && e.QuietTimerFired? && e.id in s.turns.phases
    && s.turns.phases[e.id].Over? && s.turns.phases[e.id].timers > 0
    && !s.turns.busy && s.life.inflight.Some?
  }

  predicate NoStaleFinish(s: State, events: seq<Event>)
    decreases |events|
  {
    events == [] ||
    (!StaleFinish(s, events[0]) && (Step(s, events[0]).Some? ==> NoStaleFinish(Step(s, events[0]).value, events[1..])))
  }

  ghost predicate AlwaysOwned(s: State, events: seq<Event>)
    decreases |events|
  {
    Ownership(s.life, s.turns) &&
    (events == [] || (Step(s, events[0]).Some? ==> AlwaysOwned(Step(s, events[0]).value, events[1..])))
  }

  /** Nobody but the owner is in the brain. */
  lemma OwnershipExcludes(l: Life, t: Turns, i: TurnId, j: TurnId)
    requires Ownership(l, t) && Holds(t, i)
    ensures !t.synthetic && (Holds(t, j) ==> i == j)
  {
  }

  lemma PromptOwned(s: State, id: TurnId, setupFails: bool, stopPending: bool)
    requires Ownership(s.life, s.turns)
    ensures var t := Prompt(s, id, setupFails, stopPending); t.Some? ==> Ownership(t.value.life, t.value.turns)
  {
    var t := Prompt(s, id, setupFails, stopPending);
    if t.Some? {
      forall k ensures Holds(t.value.turns, k) <==> t.value.life.inflight == Some(Http(k)) {
        assert Holds(s.turns, k) <==> s.life.inflight == Some(Http(k));
      }
    }
  }

  lemma EndOwned(s: State, id: TurnId, timers: nat)
    requires Ownership(s.life, s.turns) && (Holds(s.turns, id) || s.life.inflight.None?)
    ensures var t := ActuallyFinish(s, id, timers); Ownership(t.life, t.turns)
  {
  }

  lemma PhaseOwned(s: State, id: TurnId, p: Phase)
    requires Ownership(s.life, s.turns) && id in s.turns.phases && Holding(p) == Holding(s.turns.phases[id])
    ensures Ownership(s.life, SetPhase(s, id, p).turns)
  {
  }

  lemma TurnOwned(s: State, e: Event)
    requires Ownership(s.life, s.turns) && !StaleFinish(s, e) && (e.ModelReturned? || e.ModelResumed? || e.TurnEnded? || e.QuietEventSeen? || e.QuietTimerFired?)
    ensures Step(s, e).Some? ==> Ownership(Step(s, e).value.life, Step(s, e).value.turns)
  {
    if Step(s, e).Some? {
      var p := s.turns.phases[e.id];
      match e {
        case ModelReturned(id) => PhaseOwned(s, id, Waiting);
        case ModelResumed(id) => PhaseOwned(s, id, Inside);
        case TurnEnded(id) => if s.turns.busy { PhaseOwned(s, id, Deferred(0)); } else { EndOwned(s, id, 0); }
        case QuietEventSeen(id) => PhaseOwned(s, id, Deferred(p.timers + 1));
        case QuietTimerFired(id) =>
          if s.turns.busy { PhaseOwned(s, id, p.(timers := p.timers - 1)); } else { EndOwned(s, id, p.timers - 1); }
      }
    }
  }

  /** Steps that are not about HTTP turns leave the phases alone and follow the mutex. */
  lemma OtherOwned(s: State, e: Event)
    requires Ownership(s.life, s.turns)
    requires !(e.PromptArrives? || e.ModelReturned? || e.ModelResumed? || e.TurnEnded? || e.QuietEventSeen? || e.QuietTimerFired?)
    ensures Step(s, e).Some? ==> Ownership(Step(s, e).value.life, Step(s, e).value.turns)
  {
  }

  lemma StaleFinishDisowns(s: State, e: Event)
    requires StaleFinish(s, e) && Ownership(s.life, s.turns)
    ensures Step(s, e).Some? && !Ownership(Step(s, e).value.life, Step(s, e).value.turns)
  {
    var t := Step(s, e).value;
    match s.life.inflight.value {
      case Http(k) => assert Holds(s.turns, k) && Holds(t.turns, k);
      case Synthetic => assert t.turns.synthetic;
    }
  }

  lemma {:induction false} OwnedIffNoStaleFinish(s: State, events: seq<Event>)
    requires Ownership(s.life, s.turns)
    ensures AlwaysOwned(s, events) <==> NoStaleFinish(s, events)
    decreases |events|
  {
    hide Step, Ownership, StaleFinish;
    if events != [] {
      var e := events[0];
      if StaleFinish(s, e) {
        StaleFinishDisowns(s, e);
      } else {
        StepOwned(s, e);
        if Step(s, e).Some? { OwnedIffNoStaleFinish(Step(s, e).value, events[1..]); }
      }
    }
  }

  lemma StepOwned(s: State, e: Event)
    requires Ownership(s.life, s.turns) && !StaleFinish(s, e)
    ensures Step(s, e).Some? ==> Ownership(Step(s, e).value.life, Step(s, e).value.turns)
  {
    hide Ownership, StaleFinish, Prompt;
    if e.PromptArrives? {
      PromptOwned(s, e.id, e.setupFails, e.stopPending);
    } else if e.ModelReturned? || e.ModelResumed? || e.TurnEnded? || e.QuietEventSeen? || e.QuietTimerFired? {
      TurnOwned(s, e);
    } else {
      OtherOwned(s, e);
    }
  }

  /**
   On a fresh session, at every moment of a run exactly the turn in the brain holds the mutex, if and
   only if no leftover check of a deferred finish fires while somebody else holds it.
   */
  lemma MutexIsExclusiveIff(events: seq<Event>)
    ensures AlwaysOwned(FRESH, events) <==> NoStaleFinish(FRESH, events)
  {
    OwnedIffNoStaleFinish(FRESH, events);
  }

  /** After such a stale finish the next prompt is let in beside the turn that is still running. */
  lemma StaleFinishLetsASecondTurnIn(s: State, e: Event, id: TurnId)
    requires Inv(s) && Ownership(s.life, s.turns) && StaleFinish(s, e) && id !in s.turns.phases && !s.life.invalidated
    ensures var t := Run(s, [e, PromptArrives(id, false, false)]);
      t.Some? && Holds(t.value.turns, id) && (t.value.turns.synthetic || exists k :: k != id && Holds(t.value.turns, k))
  {
    var events := [e, PromptArrives(id, false, false)];
    var t := Step(s, e).value;
    assert events[1..] == [events[1]];
    var u := Step(t, events[1]).value;
    assert Run(t, events[1..]) == Some(u) by { assert events[1..][1..] == []; }
    match s.life.inflight.value {
      case Http(k) => assert Holds(s.turns, k) && Holds(u.turns, k);
      case Synthetic => assert u.turns.synthetic;
    }
  }

  // ---------------------------------------------------------------- Stop is terminal

  /** The request is admitted: the only thing that takes back a Stop. */
  predicate Admits(s: State, e: Event) { s.resident && !BatchDue(s) && e.PromptArrives? && e.id !in s.turns.phases && Idle(s.life) }

  predicate NoAdmission(s: State, events: seq<Event>)
    decreases |events|
  {
    events == [] ||
    (!Admits(s, events[0]) && (Step(s, events[0]).Some? ==> NoAdmission(Step(s, events[0]).value, events[1..])))
  }

  lemma StopHoldsOneStep(s: State, e: Event)
    requires s.life.aborted && !Admits(s, e) && Step(s, e).Some?
    ensures var t := Step(s, e).value;
      t.life.aborted && t.turns.starts == s.turns.starts && t.mail.delivered == s.mail.delivered && t.work.active <= s.work.active
  {
  }

  /** After Stop, and until another prompt is admitted, the model is never prompted, nothing is delivered to it and no job starts. */
  lemma {:induction false} StopIsTerminal(s: State, events: seq<Event>)
    requires s.life.aborted && NoAdmission(s, events) && Run(s, events).Some?
    ensures var t := Run(s, events).value;
      t.life.aborted && t.turns.starts == s.turns.starts && t.mail.delivered == s.mail.delivered && t.work.active <= s.work.active
    decreases |events|
  {
    if events != [] {
      StopHoldsOneStep(s, events[0]);
      StopIsTerminal(Step(s, events[0]).value, events[1..]);
    }
  }

  // ---------------------------------------------------------------- what happens to a completion

  /** Each claimed completion is in exactly one place, each unclaimed one nowhere. */
  lemma ExactlyOnePlace(events: seq<Event>, j: JobId)
    requires Run(FRESH, events).Some?
    ensures var s := Run(FRESH, events).value;
      s.mail.owned[j] + multiset(s.mail.pending)[j] + Queued(s.mail.queue)[j] + s.mail.delivered[j] + s.mail.dropped[j]
        == if j in s.work.claimed then 1 else 0
  {
    FreshInv();
    RunKeeps(FRESH, events);
    var s := Run(FRESH, events).value;
    assert multiset(s.work.claimed)[j] == if j in s.work.claimed then 1 else 0;
  }

  /** Completions that will never reach anybody; a batch still queued when the session leaves the map is one. */
  ghost function Lost(s: State): multiset<JobId> {
    s.mail.dropped + if s.resident then multiset{} else Queued(s.mail.queue)
  }

  /** The branches that lose a completion: Stop and its aftermath, suppression, and a release or rebuild over a queued batch. */
  predicate Loses(s: State, e: Event) {
    match e
    case Stopped(_) => s.mail.pending != []
    case CoalesceTimerFired => s.life.aborted
    case SyntheticStarted(_) => s.life.aborted
    case Launched(_) => s.life.aborted
    case Notified(j) => j !in s.work.claimed && j !in s.work.owner && j in s.work.suppressed
    case PromptArrives(_, _, _) => MustRebuild(s) && s.mail.queue != []
    case ReleaseTimerFired => s.mail.queue != []
    case _ => false
  }

  lemma QueuedIsEmptyIff(queue: seq<seq<JobId>>)
    requires forall i | 0 <= i < |queue| :: queue[i] != []
    ensures Queued(queue) == multiset{} <==> queue == []
  {
    if queue != [] { assert queue[0][0] in multiset(queue[0]); }
  }

  predicate MovesMail(e: Event) {
    e.Stopped? || e.CoalesceTimerFired? || e.SyntheticStarted? || e.Launched? || e.Notified? || e.PromptArrives? || e.ReleaseTimerFired?
  }

  lemma OthersLoseNothing(s: State, e: Event)
    requires Step(s, e).Some? && !MovesMail(e)
    ensures Step(s, e).value.resident && Step(s, e).value.mail.dropped == s.mail.dropped
  {
  }

  lemma PromptLosesIff(s: State, id: TurnId, setupFails: bool, stopPending: bool)
    requires Inv(s) && s.resident && Prompt(s, id, setupFails, stopPending).Some?
    ensures var t := Prompt(s, id, setupFails, stopPending).value;
      Lost(t) == Lost(s) + if MustRebuild(s) then Queued(s.mail.queue) else multiset{}
  {
    hide LifeInv, WorkInv, Conserved;
  }

  lemma SyntheticLosesIff(s: State, accepted: bool)
    requires Inv(s) && s.resident && SyntheticStart(s, accepted).Some?
    ensures var t := SyntheticStart(s, accepted).value;
      Lost(s) <= Lost(t) && (Lost(s) != Lost(t) <==> s.life.aborted)
  {
    hide LifeInv, WorkInv, Conserved, ScheduleRelease, Held, Cancel;
    assert s.mail.queue[0][0] in multiset(s.mail.queue[0]);
  }

  /** Stop, its aftermath and a release. */
  lemma DiscardLosesIff(s: State, e: Event)
    requires Inv(s) && Step(s, e).Some? && (e.Stopped? || e.CoalesceTimerFired? || e.ReleaseTimerFired?)
    ensures Lost(s) <= Lost(Step(s, e).value) && (Lost(s) != Lost(Step(s, e).value) <==> Loses(s, e))
  {
    hide WorkInv, Conserved, ScheduleRelease, Cancel;
    QueuedIsEmptyIff(s.mail.queue);
    if s.mail.pending != [] { assert s.mail.pending[0] in multiset(s.mail.pending); }
  }

  lemma JobLosesIff(s: State, e: Event)
    requires Inv(s) && Step(s, e).Some? && (e.Launched? || e.Notified?)
    ensures Lost(s) <= Lost(Step(s, e).value) && (Lost(s) != Lost(Step(s, e).value) <==> Loses(s, e))
  {
    hide LifeInv, WorkInv, Conserved, Queued;
  }

  /** A step loses a completion exactly in those branches. */
  lemma LosesIff(s: State, e: Event)
    requires Inv(s) && Step(s, e).Some?
    ensures Lost(s) <= Lost(Step(s, e).value) && (Lost(s) != Lost(Step(s, e).value) <==> Loses(s, e))
  {
    hide Lost, Prompt, SyntheticStart, MustRebuild, LifeInv, WorkInv, Conserved;
    if e.PromptArrives? {
      PromptLosesIff(s, e.id, e.setupFails, e.stopPending);
      QueuedIsEmptyIff(s.mail.queue);
    } else if e.SyntheticStarted? {
      SyntheticLosesIff(s, e.accepted);
    } else if e.Launched? || e.Notified? {
      JobLosesIff(s, e);
    } else if MovesMail(e) {
      DiscardLosesIff(s, e);
    } else {
      OthersLoseNothing(s, e);
      SameMailLosesNothing(s, Step(s, e).value);
    }
  }

  lemma SameMailLosesNothing(s: State, t: State)
    requires s.resident && t.resident && s.mail.dropped == t.mail.dropped
    ensures Lost(s) == Lost(t)
  {
  }

  ghost predicate NeverLoses(s: State, events: seq<Event>)
    decreases |events|
  {
    events == [] ||
    (Step(s, events[0]).Some? ==> !Loses(s, events[0]) && NeverLoses(Step(s, events[0]).value, events[1..]))
  }

  lemma {:induction false} LosesNothingIff(s: State, events: seq<Event>)
    requires Inv(s) && Run(s, events).Some?
    ensures Lost(s) <= Lost(Run(s, events).value)
    ensures Lost(s) == Lost(Run(s, events).value) <==> NeverLoses(s, events)
    decreases |events|
  {
    hide Lost, Loses, Step;
    if events != [] {
      var t := Step(s, events[0]).value;
      LosesIff(s, events[0]);
      StepKeeps(s, events[0]);
      LosesNothingIff(t, events[1..]);
    }
  }

  /** No completion of a session is lost if and only if no step of its run takes one of the losing branches. */
  lemma NothingIsLostIff(events: seq<Event>)
    requires Run(FRESH, events).Some?
    ensures Lost(Run(FRESH, events).value) == multiset{} <==> NeverLoses(FRESH, events)
  {
    FreshInv();
    LosesNothingIff(FRESH, events);
  }

  /** Somebody asked for silence. */
  predicate Silences(e: Event) { e.Stopped? || e.Suppressed? || (e.PromptArrives? && e.stopPending) }

  ghost predicate NothingDropped(s: State) { !s.life.aborted && s.work.suppressed == {} && s.mail.dropped == multiset{} }

  lemma DropsNeedSilence(s: State, e: Event)
    requires Inv(s) && NothingDropped(s) && !Silences(e) && Step(s, e).Some?
    ensures NothingDropped(Step(s, e).value)
  {
  }

  /** In particular: without Stop or suppression a session drops nothing, and while it is resident it has lost nothing. */
  lemma {:induction false} NothingIsDropped(s: State, events: seq<Event>)
    requires Inv(s) && NothingDropped(s) && (forall i | 0 <= i < |events| :: !Silences(events[i])) && Run(s, events).Some?
    ensures NothingDropped(Run(s, events).value) && (Run(s, events).value.resident ==> Lost(Run(s, events).value) == multiset{})
    decreases |events|
  {
    if events != [] {
      DropsNeedSilence(s, events[0]);
      StepKeeps(s, events[0]);
      NothingIsDropped(Step(s, events[0]).value, events[1..]);
    }
  }

  /** No batch waits behind a synthetic turn; one can only after a stale finish. */
  ghost predicate NoneBehind(s: State) { |s.mail.queue| <= 1 && (s.turns.synthetic ==> s.mail.queue == []) }

  lemma NoneBehindStays(s: State, e: Event)
    requires Ownership(s.life, s.turns) && Inv(s) && NoneBehind(s) && Step(s, e).Some?
    ensures NoneBehind(Step(s, e).value)
  {
    hide Conserved, WorkInv;
  }

  lemma LossNeedsSilence(s: State, e: Event)
    requires Inv(s) && Ownership(s.life, s.turns) && NoneBehind(s) && NothingDropped(s) && !Silences(e) && Step(s, e).Some?
    ensures !Loses(s, e)
  {
  }

  lemma {:induction false} NeverLosesWithoutSilence(s: State, events: seq<Event>)
    requires Inv(s) && Ownership(s.life, s.turns) && NoneBehind(s) && NothingDropped(s)
    requires NoStaleFinish(s, events) && forall i | 0 <= i < |events| :: !Silences(events[i])
    ensures NeverLoses(s, events)
    decreases |events|
  {
    hide Inv, Ownership, Step, StaleFinish, Loses;
    if events != [] {
      var e := events[0];
      if Step(s, e).Some? {
        LossNeedsSilence(s, e);
        NoneBehindStays(s, e);
        DropsNeedSilence(s, e);
        StepKeeps(s, e);
        StepOwned(s, e);
        NeverLosesWithoutSilence(Step(s, e).value, events[1..]);
      }
    }
  }

  /** Without Stop, suppression or a stale finish no completion is ever lost, whatever the brain answers and even if the session is released. */
  lemma NothingIsLost(events: seq<Event>)
    requires Run(FRESH, events).Some? && NoStaleFinish(FRESH, events) && forall i | 0 <= i < |events| :: !Silences(events[i])
    ensures Lost(Run(FRESH, events).value) == multiset{}
  {
    FreshInv();
    NeverLosesWithoutSilence(FRESH, events);
    NothingIsLostIff(events);
  }

  /**
   Over every run, a batch that has its turn finds the session idle. So the follow-up branch is never
   taken, and the answer the brain would give makes no difference.
   */
  lemma FollowUpIsNeverTaken(events: seq<Event>)
    requires Run(FRESH, events).Some? && BatchDue(Run(FRESH, events).value)
    ensures var s := Run(FRESH, events).value;
      Idle(s.life) && SyntheticStart(s, true) == SyntheticStart(s, false)
  {
    FreshInv();
    RunKeeps(FRESH, events);
  }

  /** A release by the timer loses nothing as long as the turns own the mutex. */
  lemma ReleaseLosesNothing(s: State)
    requires Inv(s) && Ownership(s.life, s.turns) && Step(s, ReleaseTimerFired).Some?
    ensures Lost(Step(s, ReleaseTimerFired).value) == Lost(s)
  {
    LosesIff(s, ReleaseTimerFired);
  }

  ghost predicate OwnedIsOwn(s: State) { forall j | s.mail.owned[j] > 0 :: j in s.work.owner }

  lemma OwnedStaysOwn(s: State, e: Event)
    requires OwnedIsOwn(s) && Step(s, e).Some?
    ensures OwnedIsOwn(Step(s, e).value)
  {
    hide ScheduleRelease, FinishPrompt, Held, Cancel;
  }

  lemma {:induction false} RunOwnsItsOwn(s: State, events: seq<Event>)
    requires OwnedIsOwn(s) && Run(s, events).Some?
    ensures OwnedIsOwn(Run(s, events).value)
    decreases |events|
  {
    hide Step, OwnedIsOwn;
    if events != [] {
      OwnedStaysOwn(s, events[0]);
      RunOwnsItsOwn(Step(s, events[0]).value, events[1..]);
    }
  }

  /** Only the completions of a turn's own jobs are left to that turn's mailbox. */
  lemma OnlyOwnJobsAreOwned(events: seq<Event>, j: JobId)
    requires Run(FRESH, events).Some? && Run(FRESH, events).value.mail.owned[j] > 0
    ensures j in Run(FRESH, events).value.work.owner
  {
    RunOwnsItsOwn(FRESH, events);
  }

  /** Without Stop or suppression, a completion that was reported and is no turn's own is buffered, queued or with the model. */
  lemma UnownedIsOnItsWay(events: seq<Event>, j: JobId)
    requires Run(FRESH, events).Some? && forall i | 0 <= i < |events| :: !Silences(events[i])
    requires var s := Run(FRESH, events).value; j in s.work.claimed && j !in s.work.owner
    ensures var m := Run(FRESH, events).value.mail; multiset(m.pending)[j] + Queued(m.queue)[j] + m.delivered[j] == 1
  {
    ExactlyOnePlace(events, j);
    FreshInv();
    NothingIsDropped(FRESH, events);
    if Run(FRESH, events).value.mail.owned[j] > 0 { OnlyOwnJobsAreOwned(events, j); }
  }

  /** Nowhere on the way to the model, and not told to it. */
  ghost predicate Quiet(m: Mail, j: JobId) { multiset(m.pending)[j] == 0 && Queued(m.queue)[j] == 0 && m.delivered[j] == 0 }

  /** The completion belongs to a turn's own mailbox, or somebody asked for silence before it came. */
  ghost predicate KeptFromTheModel(s: State, j: JobId) {
    j in s.work.known && (j in s.work.owner || j in s.work.suppressed) && Quiet(s.mail, j)
  }

  lemma FlushStaysQuiet(s: State, j: JobId)
    requires KeptFromTheModel(s, j) && Flush(s).Some?
    ensures Quiet(Flush(s).value.mail, j)
  {
    hide ScheduleRelease, Cancel;
    QueuedAppend(s.mail.queue, s.mail.pending);
  }

  lemma SyntheticStaysQuiet(s: State, accepted: bool, j: JobId)
    requires KeptFromTheModel(s, j) && SyntheticStart(s, accepted).Some?
    ensures Quiet(SyntheticStart(s, accepted).value.mail, j)
  {
    hide ScheduleRelease, Cancel, Held, FinishPrompt;
    var batch, rest := s.mail.queue[0], s.mail.queue[1..];
    assert multiset(batch)[j] == 0 && Queued(rest)[j] == 0;
  }

  /** Steps that are about turns, timers and launches hand over no completion. */
  lemma OthersHandOverNothing(s: State, e: Event)
    requires Step(s, e).Some? && !(e.CoalesceTimerFired? || e.SyntheticStarted? || e.Notified?)
    ensures var m := Step(s, e).value.mail;
      m.queue == s.mail.queue && m.delivered == s.mail.delivered && (m.pending == s.mail.pending || m.pending == [])
  {
  }

  lemma RolesStay(s: State, e: Event, j: JobId)
    requires Step(s, e).Some? && j in s.work.known
    ensures var w := Step(s, e).value.work;
      j in w.known && (j in s.work.owner ==> j in w.owner) && (j in s.work.suppressed ==> j in w.suppressed)
  {
  }

  lemma QuietStays(s: State, e: Event, j: JobId)
    requires KeptFromTheModel(s, j) && Step(s, e).Some?
    ensures KeptFromTheModel(Step(s, e).value, j)
  {
    RolesStay(s, e, j);
    if e.CoalesceTimerFired? {
      hide Flush, Queued;
      FlushStaysQuiet(s, j);
    } else if e.SyntheticStarted? {
      hide SyntheticStart, Queued;
      SyntheticStaysQuiet(s, e.accepted, j);
    } else if !e.Notified? {
      hide Step, Queued;
      OthersHandOverNothing(s, e);
    } else {
      hide Queued;
    }
  }

  lemma {:induction false} StaysQuiet(s: State, events: seq<Event>, j: JobId)
    requires KeptFromTheModel(s, j) && Run(s, events).Some?
    ensures KeptFromTheModel(Run(s, events).value, j)
    decreases |events|
  {
    if events != [] {
      QuietStays(s, events[0], j);
      StaysQuiet(Step(s, events[0]).value, events[1..], j);
    }
  }

  /**
   From any moment of a run at which a job has not completed and is owned by a turn or suppressed, its
   completion never reaches the model through a synthetic turn or a follow-up, whatever happens.
   */
  lemma OwnedOrSuppressedNeverWakes(before: seq<Event>, after: seq<Event>, j: JobId)
    requires Run(FRESH, before).Some? && Run(Run(FRESH, before).value, after).Some?
    requires var s := Run(FRESH, before).value; j in s.work.active && j !in s.work.claimed && (j in s.work.owner || j in s.work.suppressed)
    ensures Quiet(Run(Run(FRESH, before).value, after).value.mail, j)
  {
    FreshInv();
    RunKeeps(FRESH, before);
    ExactlyOnePlace(before, j);
    StaysQuiet(Run(FRESH, before).value, after, j);
  }

  // ---------------------------------------------------------------- sessions nobody will release

  /** Nothing is running, counted or on its way. */
  predicate Unneeded(s: State) {
    Idle(s.life) && s.work.count == 0 && s.mail.pending == [] && s.mail.queue == [] && !s.turns.synthetic
  }

  /** Nobody needs the session, and no release is scheduled. */
  predicate Stranded(s: State) { s.resident && Unneeded(s) && s.life.timer.None? }

  /** A prompt to an unneeded session, which cancels its release, and whose setup then fails. */
  predicate Strands(s: State, e: Event) { e.PromptArrives? && e.setupFails && !MustRebuild(s) && Unneeded(s) }

  /** What takes a stranded session out of that state: a turn, a job, Stop, an invalidation, or the end of a turn. */
  predicate Rescues(s: State, e: Event) {
    match e
    case PromptArrives(_, setupFails, _) => !setupFails || MustRebuild(s)
    case TurnEnded(_) => !s.turns.busy
    case QuietTimerFired(_) => !s.turns.busy
    case Launched(_) => !s.life.aborted
    case LaunchFailed(_) => true
    case Stopped(_) => true
    case Invalidated => true
    case _ => false
  }

  lemma PromptStrandsIff(s: State, e: Event)
    requires Inv(s) && Step(s, e).Some? && e.PromptArrives?
    ensures Stranded(Step(s, e).value) <==> Strands(s, e) || (Stranded(s) && !Rescues(s, e))
  {
    hide WorkInv, Conserved;
  }

  lemma OthersStrandIff(s: State, e: Event)
    requires Inv(s) && Step(s, e).Some? && !e.PromptArrives?
    ensures Stranded(Step(s, e).value) <==> Stranded(s) && !Rescues(s, e)
  {
    hide Conserved, Queued, Plus;
  }

  lemma StrandedAfterStepIff(s: State, e: Event)
    requires Inv(s) && Step(s, e).Some?
    ensures Stranded(Step(s, e).value) <==> Strands(s, e) || (Stranded(s) && !Rescues(s, e))
  {
    hide Inv, Step, Stranded, Rescues;
    if e.PromptArrives? { PromptStrandsIff(s, e); } else { OthersStrandIff(s, e); }
  }

  predicate NoRescue(s: State, events: seq<Event>)
    decreases |events|
  {
    events == [] ||
    (!Rescues(s, events[0]) && (Step(s, events[0]).Some? ==> NoRescue(Step(s, events[0]).value, events[1..])))
  }

  /** Some setup fails on the unneeded session, and nothing that follows in the run rescues it. */
  predicate StrandedBySetup(s: State, events: seq<Event>)
    decreases |events|
  {
    events != [] && Step(s, events[0]).Some? &&
    var t := Step(s, events[0]).value;
    ((Strands(s, events[0]) && NoRescue(t, events[1..])) || StrandedBySetup(t, events[1..]))
  }

  lemma {:induction false} StrandedAfterRunIff(s: State, events: seq<Event>)
    requires Inv(s) && Run(s, events).Some?
    ensures Stranded(Run(s, events).value) <==> StrandedBySetup(s, events) || (Stranded(s) && NoRescue(s, events))
    decreases |events|
  {
    hide Inv, Step, Stranded, Strands, Rescues;
    if events != [] {
      StrandedAfterStepIff(s, events[0]);
      StepKeeps(s, events[0]);
      StrandedAfterRunIff(Step(s, events[0]).value, events[1..]);
    }
  }

  /** A turn only ever starts by a rescue. */
  lemma {:induction false} NoTurnWithoutRescue(s: State, events: seq<Event>)
    requires s.turns.phases == map[] && Run(s, events).Some? && NoRescue(s, events)
    ensures Run(s, events).value.turns.phases == map[]
    decreases |events|
  {
    if events != [] { NoTurnWithoutRescue(Step(s, events[0]).value, events[1..]); }
  }

  /** A session that has had a turn is stranded if and only if a setup failed on it while unneeded and nothing rescued it since. */
  lemma StrandedIff(events: seq<Event>)
    requires Run(FRESH, events).Some? && Run(FRESH, events).value.turns.phases != map[]
    ensures Stranded(Run(FRESH, events).value) <==> StrandedBySetup(FRESH, events)
  {
    FreshInv();
    StrandedAfterRunIff(FRESH, events);
    if NoRescue(FRESH, events) { NoTurnWithoutRescue(FRESH, events); }
  }

  // ---------------------------------------------------------------- two turns in one brain

  lemma {:induction false} Extend(s: State, events: seq<Event>, mid: State, e: Event)
    requires Run(s, events) == Some(mid)
    ensures Run(s, events + [e]) == Step(mid, e)
    decreases |events|
  {
    if events == [] {
      assert [e][1..] == [];
    } else {
      assert (events + [e])[1..] == events[1..] + [e];
      Extend(Step(s, events[0]).value, events[1..], mid, e);
    }
  }

  lemma Then(events: seq<Event>, s: State, e: Event) returns (longer: seq<Event>, t: State)
    requires Run(FRESH, events) == Some(s) && Step(s, e).Some?
    ensures t == Step(s, e).value && Run(FRESH, longer) == Some(t)
  {
    Extend(FRESH, events, s, e);
    longer, t := events + [e], Step(s, e).value;
  }

  /** A turn resolves while the agent is compacting. */
  lemma DeferredTurn() returns (events: seq<Event>, s: State)
    ensures Run(FRESH, events) == Some(s)
    ensures s.resident && s.turns.phases == map[0 := Deferred(0)] && !s.life.invalidated && s.mail == FRESH.mail
  {
    events, s := Then([], FRESH, PromptArrives(0, false, false));
    events, s := Then(events, s, AgentBusy(true));
    events, s := Then(events, s, TurnEnded(0));
  }

  /** Two quiet events follow within 50 ms, and the first check finishes the turn. */
  lemma FinishedWithACheckLeft() returns (events: seq<Event>, s: State)
    ensures Run(FRESH, events) == Some(s)
    ensures s.resident && Idle(s.life) && s.turns.phases == map[0 := Over(1)] && !s.turns.busy && !s.life.invalidated && s.mail == FRESH.mail
  {
    events, s := DeferredTurn();
    events, s := Then(events, s, QuietEventSeen(0));
    events, s := Then(events, s, QuietEventSeen(0));
    events, s := Then(events, s, AgentBusy(false));
    events, s := Then(events, s, QuietTimerFired(0));
  }

  /** The second check then frees the mutex of the next turn, and a third turn joins it in the brain. */
  lemma TwoTurnsInOneBrain() returns (events: seq<Event>)
    ensures Run(FRESH, events).Some?
    ensures At(Run(FRESH, events).value.turns, 1, Inside) && At(Run(FRESH, events).value.turns, 2, Inside)
  {
    var s;
    events, s := FinishedWithACheckLeft();
    events, s := Then(events, s, PromptArrives(1, false, false));
    assert StaleFinish(s, QuietTimerFired(0));
    events, s := Then(events, s, QuietTimerFired(0));
    events, s := Then(events, s, PromptArrives(2, false, false));
  }

  // ---------------------------------------------------------------- a stranded session

  /** A turn ends well, and the setup of the next one fails. */
  lemma FailedSetupStrands() returns (events: seq<Event>)
    ensures Run(FRESH, events).Some? && Stranded(Run(FRESH, events).value) && Run(FRESH, events).value.turns.phases == map[0 := Over(0)]
  {
    var s;
    events, s := Then([], FRESH, PromptArrives(0, false, false));
    events, s := Then(events, s, TurnEnded(0));
    events, s := Then(events, s, PromptArrives(1, true, false));
  }
}
