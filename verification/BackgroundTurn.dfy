/**
 The completion mailbox of one HTTP prompt (background-work-turn.ts) and the loop that drains it
 (http-server.ts): a parked `next()` misses nothing, no result is handed out twice, and the prompt
 does not end while a result is owed to the model.
 */
module BackgroundTurn {
  import opened Wrappers

  type JobId = nat

  datatype Note = Note(job: JobId, summary: string)

  /** One registration; `serial` tells apart registrations of the same id. */
  datatype Entry = Entry(id: JobId, serial: nat, note: Option<Note>)

  /** Whether a `next()` is parked on its promise, and whether that promise is resolved. */
  datatype Park = Away | Parked(woken: bool)

  /** `jobs` keeps insertion order, as a JavaScript map does. `handed` logs the registrations handed out. */
  datatype Turn = Turn(
    jobs: seq<Entry>, consumed: set<JobId>, cancelled: bool, waiting: bool, steers: seq<string>, park: Park,
    serials: nat, handed: seq<nat>)

  const NEW := Turn([], {}, false, false, [], Away, 0, [])

  predicate Has(jobs: seq<Entry>, id: JobId) { exists i :: 0 <= i < |jobs| && jobs[i].id == id }

  function Wake(t: Turn): Turn { if t.park.Parked? then t.(park := Parked(true)) else t }

  function Register(t: Turn, id: JobId): Turn {
    if t.cancelled || Has(t.jobs, id) then t
    else t.(jobs := t.jobs + [Entry(id, t.serials, None)], serials := t.serials + 1)
  }

  function Without(jobs: seq<Entry>, id: JobId): seq<Entry> {
    if jobs == [] then [] else if jobs[0].id == id then Without(jobs[1..], id) else [jobs[0]] + Without(jobs[1..], id)
  }

  function Unregister(t: Turn, id: JobId): Turn {
    Wake(t.(jobs := Without(t.jobs, id), consumed := t.consumed - {id}))
  }

  function Fill(jobs: seq<Entry>, n: Note): seq<Entry> {
    seq(|jobs|, i requires 0 <= i < |jobs| => if jobs[i].id == n.job then jobs[i].(note := Some(n)) else jobs[i])
  }

  predicate Answered(jobs: seq<Entry>, id: JobId) { exists i :: 0 <= i < |jobs| && jobs[i].id == id && jobs[i].note.Some? }

  /** `complete`: only the first answer of a live turn is kept. Its result is whether the job belongs to this turn. */
  function Complete(t: Turn, n: Note): Turn {
    if !Has(t.jobs, n.job) || t.cancelled || Answered(t.jobs, n.job) then t else Wake(t.(jobs := Fill(t.jobs, n)))
  }

  function QueueSteer(t: Turn, text: string): Turn {
    if !t.waiting || t.cancelled then t else Wake(t.(steers := t.steers + [text]))
  }

  function TakeSteer(t: Turn): Turn { if t.steers == [] then t else t.(steers := t.steers[1..]) }

  function Cancel(t: Turn): Turn { Wake(t.(cancelled := true, steers := [])) }

  /** Registrations whose result is there and not handed out yet, in order of registration. */
  function Ready(jobs: seq<Entry>, consumed: set<JobId>): seq<Entry> {
    if jobs == [] then []
    else if jobs[0].note.Some? && jobs[0].id !in consumed then [jobs[0]] + Ready(jobs[1..], consumed)
    else Ready(jobs[1..], consumed)
  }

  predicate Pending(t: Turn) { !t.cancelled && exists i :: 0 <= i < |t.jobs| && t.jobs[i].id !in t.consumed }

  /** The condition on which `next()` parks. */
  predicate Blocked(t: Turn) { Pending(t) && t.steers == [] && Ready(t.jobs, t.consumed) == [] }

  function Batch(t: Turn): seq<Entry> {
    if t.cancelled || t.steers != [] then [] else Ready(t.jobs, t.consumed)
  }

  function Ids(batch: seq<Entry>): set<JobId> { set i | 0 <= i < |batch| :: batch[i].id }

  function Serials(batch: seq<Entry>): seq<nat> { seq(|batch|, i requires 0 <= i < |batch| => batch[i].serial) }

  /** One evaluation of the loop in `next()`: park, or return with a batch. */
  function Look(t: Turn): Turn {
    if Blocked(t) then t.(waiting := true, park := Parked(false))
    else t.(waiting := false, park := Away, consumed := t.consumed + Ids(Batch(t)), handed := t.handed + Serials(Batch(t)))
  }

  // ---------------------------------------------------------------- the invariant

  ghost predicate NoDup<T(!new)>(s: seq<T>) { forall i, j | 0 <= i < j < |s| :: s[i] != s[j] }

  ghost predicate Distinct(jobs: seq<Entry>) {
    forall i, j | 0 <= i < j < |jobs| :: jobs[i].id != jobs[j].id && jobs[i].serial != jobs[j].serial
  }

  /** Registrations are told apart; exactly the consumed ones have been handed out, each once. */
  ghost predicate HandedOnce(t: Turn) {
    && Distinct(t.jobs) && NoDup(t.handed)
    && (forall e | e in t.jobs :: e.serial < t.serials && (e.id in t.consumed <==> e.serial in t.handed))
    && (forall k | k in t.handed :: k < t.serials)
    && (forall id | id in t.consumed :: Has(t.jobs, id))
  }

  /** A parked `next()` that nobody woke has nothing to return for. */
  ghost predicate NoLostWakeUp(t: Turn) {
    && (t.park == Parked(false) ==> Blocked(t))
    && (t.park.Parked? ==> t.waiting)
  }

  ghost predicate Inv(t: Turn) { HandedOnce(t) && NoLostWakeUp(t) }

  lemma {:induction false} WithoutIs(jobs: seq<Entry>, id: JobId)
    ensures forall e :: e in Without(jobs, id) <==> e in jobs && e.id != id
    ensures Distinct(jobs) ==> Distinct(Without(jobs, id))
  {
    if jobs != [] {
      WithoutIs(jobs[1..], id);
      assert jobs == [jobs[0]] + jobs[1..];
      if Distinct(jobs) {
        assert Distinct(jobs[1..]);
        forall e | e in jobs[1..] ensures e.id != jobs[0].id && e.serial != jobs[0].serial {
          var i :| 0 <= i < |jobs[1..]| && jobs[1..][i] == e;
          assert jobs[i + 1] == e;
        }
      }
    }
  }

  lemma {:induction false} ReadyIs(jobs: seq<Entry>, consumed: set<JobId>)
    ensures forall e :: e in Ready(jobs, consumed) <==> e in jobs && e.note.Some? && e.id !in consumed
    ensures Distinct(jobs) ==> Distinct(Ready(jobs, consumed))
  {
    if jobs != [] {
      ReadyIs(jobs[1..], consumed);
      assert jobs == [jobs[0]] + jobs[1..];
      if Distinct(jobs) {
        assert Distinct(jobs[1..]);
        forall e | e in jobs[1..] ensures e.id != jobs[0].id && e.serial != jobs[0].serial {
          var i :| 0 <= i < |jobs[1..]| && jobs[1..][i] == e;
          assert jobs[i + 1] == e;
        }
      }
    }
  }

  lemma NothingReady(jobs: seq<Entry>, consumed: set<JobId>)
    ensures Ready(jobs, consumed) == [] <==> forall e | e in jobs :: e.note.None? || e.id in consumed
  {
  }

  lemma RegisterHands(t: Turn, id: JobId)
    requires HandedOnce(t)
    ensures HandedOnce(Register(t, id))
  {
    var u := Register(t, id);
    if u != t {
      assert forall i | 0 <= i < |t.jobs| :: t.jobs[i] in t.jobs;
      forall k | k in u.consumed ensures Has(u.jobs, k) {
        var i :| 0 <= i < |t.jobs| && t.jobs[i].id == k;
        assert u.jobs[i].id == k;
      }
    }
  }

  lemma RegisterWakes(t: Turn, id: JobId)
    requires NoLostWakeUp(t)
    ensures NoLostWakeUp(Register(t, id))
  {
    var u := Register(t, id);
    if u != t && t.park == Parked(false) {
      NothingReady(t.jobs, t.consumed);
      NothingReady(u.jobs, u.consumed);
      var i :| 0 <= i < |t.jobs| && t.jobs[i].id !in t.consumed;
      assert u.jobs[i] == t.jobs[i];
    }
  }

  lemma UnregisterKeeps(t: Turn, id: JobId)
    requires Inv(t)
    ensures Inv(Unregister(t, id))
  {
    WithoutIs(t.jobs, id);
    var u := Unregister(t, id);
    forall k | k in u.consumed ensures Has(u.jobs, k) {
      var i :| 0 <= i < |t.jobs| && t.jobs[i].id == k;
      assert t.jobs[i] in u.jobs;
    }
  }

  lemma CompleteKeeps(t: Turn, n: Note)
    requires Inv(t)
    ensures Inv(Complete(t, n))
  {
    var u := Complete(t, n);
    if u != t {
      forall e | e in u.jobs ensures e.serial < u.serials && (e.id in u.consumed <==> e.serial in u.handed) {
        var i :| 0 <= i < |u.jobs| && u.jobs[i] == e;
        assert t.jobs[i] in t.jobs;
      }
      forall k | k in u.consumed ensures Has(u.jobs, k) {
        var i :| 0 <= i < |t.jobs| && t.jobs[i].id == k;
        assert u.jobs[i].id == k;
      }
    }
  }

  lemma QueueSteerKeeps(t: Turn, text: string)
    requires Inv(t)
    ensures Inv(QueueSteer(t, text)) && Inv(Cancel(t)) && (t.park.Away? ==> Inv(TakeSteer(t)))
  {
  }

  lemma SerialsOf(batch: seq<Entry>, k: nat)
    ensures k in Serials(batch) <==> exists e :: e in batch && e.serial == k
  {
    if e :| e in batch && e.serial == k {
      var i :| 0 <= i < |batch| && batch[i] == e;
      assert Serials(batch)[i] == k;
    }
    if k in Serials(batch) {
      var i :| 0 <= i < |batch| && Serials(batch)[i] == k;
      assert batch[i] in batch;
    }
  }

  lemma IdsOf(batch: seq<Entry>, id: JobId)
    ensures id in Ids(batch) <==> exists e :: e in batch && e.id == id
  {
  }

  /** Handing out a batch: each of its registrations for the first and last time. */
  lemma LookKeeps(t: Turn)
    requires HandedOnce(t)
    ensures Inv(Look(t))
  {
    var u, batch := Look(t), Batch(t);
    if !Blocked(t) {
      ReadyIs(t.jobs, t.consumed);
      forall e | e in batch ensures e in t.jobs && e.serial !in t.handed && e.id !in t.consumed { }
      forall e | e in u.jobs ensures e.id in u.consumed <==> e.serial in u.handed {
        HandedIff(t, e);
      }
      forall k | k in u.handed ensures k < u.serials { SerialsOf(batch, k); }
      forall id | id in u.consumed ensures Has(u.jobs, id) {
        IdsOf(batch, id);
        if id !in t.consumed {
          var e :| e in batch && e.id == id;
          var i :| 0 <= i < |t.jobs| && t.jobs[i] == e;
        }
      }
      HandedDistinct(t.handed, batch);
    }
  }

  lemma HandedIff(t: Turn, e: Entry)
    requires HandedOnce(t) && e in t.jobs
    ensures var batch := Batch(t);
      e.id in t.consumed + Ids(batch) <==> e.serial in t.handed + Serials(batch)
  {
    var batch := Batch(t);
    ReadyIs(t.jobs, t.consumed);
    IdsOf(batch, e.id);
    SerialsOf(batch, e.serial);
    var i :| 0 <= i < |t.jobs| && t.jobs[i] == e;
    forall f | f in batch && (f.id == e.id || f.serial == e.serial) ensures f == e {
      var j :| 0 <= j < |t.jobs| && t.jobs[j] == f;
    }
  }

  lemma HandedDistinct(handed: seq<nat>, batch: seq<Entry>)
    requires NoDup(handed) && Distinct(batch) && forall e | e in batch :: e.serial !in handed
    ensures NoDup(handed + Serials(batch))
  {
  }

  // ---------------------------------------------------------------- the prompt loop

  datatype Outcome = Finished | Unreported

  /** In the model, parked in `next()`, back from it with a batch, or over. */
  datatype Pc = Inside | InNext | Returned(batch: seq<Entry>) | Ended(outcome: Outcome)

  /** `seen` is `parentReportSeen`; `reportedAfter` counts the results handed out before the last report. */
  datatype Loop = Loop(pc: Pc, aborted: bool, success: bool, seen: bool, reportedAfter: nat)

  datatype State = State(turn: Turn, loop: Loop)

  const BEGIN := State(NEW, Loop(Inside, false, true, false, 0))

  datatype Event =
    | Registered(id: JobId) | Unregistered(id: JobId) | Completed(note: Note) | Steered(text: string)
    | Cancelled | Stopped | Reported(good: bool)
    | RunEnded(success: bool) | NextResumed | LoopContinued

  function EnterNext(s: State): State {
    State(Look(s.turn), s.loop.(pc := if Blocked(s.turn) then InNext else Returned(Batch(s.turn))))
  }

  predicate AllConsumed(t: Turn) { forall i | 0 <= i < |t.jobs| :: t.jobs[i].id in t.consumed }

  function Continue(s: State, batch: seq<Entry>): State {
    if s.loop.aborted then s.(loop := s.loop.(pc := Ended(Finished)))
    else if s.turn.steers != [] then State(TakeSteer(s.turn), s.loop.(pc := Inside, seen := false))
    else if batch != [] then s.(loop := s.loop.(pc := Inside, seen := false))
    else if s.turn.jobs != [] && !s.turn.cancelled && !s.loop.seen then s.(loop := s.loop.(pc := Ended(Unreported)))
    else s.(loop := s.loop.(pc := Ended(Finished)))
  }

  /** Jobs are launched by the model's tools, so never between `next()` and the loop. */
  function Step(s: State, e: Event): Option<State> {
    match e
    case Registered(id) => if s.loop.pc.Inside? || s.loop.pc.InNext? then Some(s.(turn := Register(s.turn, id))) else None
    case Unregistered(id) => Some(s.(turn := Unregister(s.turn, id)))
    case Completed(n) => Some(s.(turn := Complete(s.turn, n)))
    case Steered(text) => Some(s.(turn := QueueSteer(s.turn, text)))
    case Cancelled => Some(s.(turn := Cancel(s.turn)))
    case Stopped => Some(State(Cancel(s.turn), s.loop.(aborted := true)))
    case Reported(good) =>
      if !s.loop.pc.Inside? then None
      else
        var seen := good && !Pending(s.turn);
        Some(s.(loop := s.loop.(seen := seen, reportedAfter := if seen then |s.turn.handed| else s.loop.reportedAfter)))
    case RunEnded(success) =>
      if !s.loop.pc.Inside? then None
      else
        var t := s.(loop := s.loop.(success := success));
        Some(if s.loop.aborted || !success then t.(loop := t.loop.(pc := Ended(Finished))) else EnterNext(t))
    case NextResumed => if s.loop.pc.InNext? && s.turn.park == Parked(true) then Some(EnterNext(s)) else None
    case LoopContinued => if s.loop.pc.Returned? then Some(Continue(s, s.loop.pc.batch)) else None
  }

  function Run(s: State, events: seq<Event>): Option<State>
    decreases |events|
  {
    if events == [] then Some(s)
    else
      var t := Step(s, events[0]);
      if t.None? then None else Run(t.value, events[1..])
  }

  /** The result stands for a normal end of the turn. */
  predicate EndedWell(l: Loop) { l.pc == Ended(Finished) && l.success && !l.aborted }

  ghost predicate LoopInv(t: Turn, l: Loop) {
    && (t.waiting <==> l.pc.InNext?) && (t.park.Parked? <==> l.pc.InNext?)
    && (l.pc.Returned? ==> (if l.pc.batch != [] then t.steers == [] else t.cancelled || t.steers != [] || AllConsumed(t)))
    && (l.seen && !l.aborted && !(l.pc.Returned? && l.pc.batch != []) ==> l.reportedAfter == |t.handed|)
    && (EndedWell(l) ==> t.cancelled || (AllConsumed(t) && (t.jobs != [] ==> l.seen)))
  }

  ghost predicate RunInv(s: State) { Inv(s.turn) && LoopInv(s.turn, s.loop) }

  lemma UnregisterConsumes(t: Turn, id: JobId)
    requires AllConsumed(t)
    ensures AllConsumed(Unregister(t, id)) && (t.jobs == [] ==> Unregister(t, id).jobs == [])
  {
    WithoutIs(t.jobs, id);
    var u := Unregister(t, id);
    forall i | 0 <= i < |u.jobs| ensures u.jobs[i].id in u.consumed {
      assert u.jobs[i] in t.jobs;
    }
  }

  lemma MailboxKeeps(s: State, e: Event)
    requires RunInv(s) && (e.Registered? || e.Unregistered? || e.Completed? || e.Steered? || e.Cancelled? || e.Stopped?)
    ensures Step(s, e).Some? ==> Inv(Step(s, e).value.turn)
  {
    hide Inv, LoopInv, HandedOnce, NoLostWakeUp, Register, Unregister, Complete, QueueSteer, Cancel;
    var t := s.turn;
    match e {
      case Registered(id) => RegisterKeeps(t, id);
      case Unregistered(id) => UnregisterKeeps(t, id);
      case Completed(n) => CompleteKeeps(t, n);
      case Steered(text) => QueueSteerKeeps(t, text);
      case Cancelled => QueueSteerKeeps(t, "");
      case Stopped => QueueSteerKeeps(t, "");
    }
  }

  lemma RegisterKeeps(t: Turn, id: JobId)
    requires Inv(t)
    ensures Inv(Register(t, id))
  {
    RegisterHands(t, id);
    RegisterWakes(t, id);
  }

  lemma MailboxKeepsLoop(s: State, e: Event)
    requires RunInv(s) && (e.Registered? || e.Unregistered? || e.Completed? || e.Steered? || e.Cancelled? || e.Stopped?)
    ensures Step(s, e).Some? ==> LoopInv(Step(s, e).value.turn, Step(s, e).value.loop)
  {
    if e.Unregistered? && AllConsumed(s.turn) { UnregisterConsumes(s.turn, e.id); }
    if e.Unregistered? { WithoutIs(s.turn.jobs, e.id); if s.turn.jobs == [] { assert Without(s.turn.jobs, e.id) == []; } }
  }

  lemma LookReturns(t: Turn)
    requires !Blocked(t)
    ensures Batch(t) != [] ==> t.steers == []
    ensures Batch(t) == [] ==> t.cancelled || t.steers != [] || AllConsumed(Look(t))
    ensures Batch(t) == [] ==> Look(t).handed == t.handed
  {
  }

  lemma LoopKeeps(s: State, e: Event)
    requires RunInv(s) && (e.Reported? || e.RunEnded? || e.NextResumed? || e.LoopContinued?)
    ensures Step(s, e).Some? ==> RunInv(Step(s, e).value)
  {
    LookKeeps(s.turn);
    if !Blocked(s.turn) { LookReturns(s.turn); }
  }

  lemma StepKeeps(s: State, e: Event)
    requires RunInv(s)
    ensures Step(s, e).Some? ==> RunInv(Step(s, e).value)
  {
    if e.Reported? || e.RunEnded? || e.NextResumed? || e.LoopContinued? {
      LoopKeeps(s, e);
    } else {
      MailboxKeeps(s, e);
      MailboxKeepsLoop(s, e);
    }
  }

  lemma {:induction false} RunKeeps(s: State, events: seq<Event>)
    requires RunInv(s)
    ensures Run(s, events).Some? ==> RunInv(Run(s, events).value)
    decreases |events|
  {
    if events != [] && Step(s, events[0]).Some? {
      StepKeeps(s, events[0]);
      RunKeeps(Step(s, events[0]).value, events[1..]);
    }
  }

  lemma FilledStays(jobs: seq<Entry>, n: Note, e: Entry)
    requires e in jobs && e.id != n.job
    ensures e in Fill(jobs, n)
  {
    var i :| 0 <= i < |jobs| && jobs[i] == e;
    assert Fill(jobs, n)[i] == e;
  }

  lemma FirstAnswerKept(s: State, e: Event, x: Entry)
    requires RunInv(s) && x in s.turn.jobs && x.note.Some? && Step(s, e).Some? && e != Unregistered(x.id)
    ensures x in Step(s, e).value.turn.jobs
  {
    match e {
      case Completed(n) => if n.job != x.id { FilledStays(s.turn.jobs, n, x); }
      case Unregistered(id) => WithoutIs(s.turn.jobs, id);
      case _ =>
    }
  }

  lemma {:induction false} FirstAnswerStays(s: State, events: seq<Event>, x: Entry)
    requires RunInv(s) && x in s.turn.jobs && x.note.Some? && Run(s, events).Some? && Unregistered(x.id) !in events
    ensures x in Run(s, events).value.turn.jobs
    decreases |events|
  {
    if events != [] {
      FirstAnswerKept(s, events[0], x);
      StepKeeps(s, events[0]);
      FirstAnswerStays(Step(s, events[0]).value, events[1..], x);
    }
  }

  /** The first answer of a live turn's job stands in that job's entry and nowhere else, and wakes `next()`; any other changes nothing. */
  lemma CompleteStores(t: Turn, n: Note, i: nat)
    requires i < |t.jobs|
    ensures var u := Complete(t, n);
      && |u.jobs| == |t.jobs| && u.consumed == t.consumed && u.handed == t.handed && u.steers == t.steers
      && (t.jobs[i].id != n.job ==> u.jobs[i] == t.jobs[i])
      && (t.jobs[i].id == n.job && !t.cancelled && (forall e | e in t.jobs && e.id == n.job :: e.note.None?) ==>
            u.jobs[i] == Entry(n.job, t.jobs[i].serial, Some(n)) && u.park != Parked(false))
      && (t.cancelled || (exists e :: e in t.jobs && e.id == n.job && e.note.Some?) ==> u == t)
  {
  }

  // ---------------------------------------------------------------- what each operation does

  lemma RegisterEffect(t: Turn, id: JobId)
    ensures Register(t, id) ==
      if !t.cancelled && (forall e | e in t.jobs :: e.id != id) then t.(jobs := t.jobs + [Entry(id, t.serials, None)], serials := t.serials + 1)
      else t
  {
  }

  lemma UnregisterEffect(t: Turn, id: JobId)
    ensures var u := Unregister(t, id);
      && (forall e :: e in u.jobs <==> e in t.jobs && e.id != id) && u.consumed == t.consumed - {id}
      && u.park != Parked(false) && u.steers == t.steers && u.handed == t.handed && u.cancelled == t.cancelled
  {
    WithoutIs(t.jobs, id);
  }

  /** Steers are taken over only while the loop waits, and are resumed with in the order they came. */
  lemma SteerEffect(t: Turn, text: string)
    ensures var u := QueueSteer(t, text);
      && (t.waiting && !t.cancelled ==> u.steers == t.steers + [text] && u.park != Parked(false) && u.jobs == t.jobs && u.consumed == t.consumed)
      && (!t.waiting || t.cancelled ==> u == t)
    ensures t.steers != [] ==> TakeSteer(t) == t.(steers := t.steers[1..])
  {
  }

  lemma CancelEffect(t: Turn)
    ensures var u := Cancel(t); u.cancelled && u.steers == [] && u.park != Parked(false) && u.jobs == t.jobs && u.consumed == t.consumed
  {
  }

  predicate Sorted(jobs: seq<Entry>) { forall i, j | 0 <= i < j < |jobs| :: jobs[i].serial < jobs[j].serial }

  lemma {:induction false} ReadySorted(jobs: seq<Entry>, consumed: set<JobId>)
    requires Sorted(jobs)
    ensures Sorted(Ready(jobs, consumed))
  {
    if jobs != [] {
      ReadySorted(jobs[1..], consumed);
      ReadyIs(jobs[1..], consumed);
      forall e | e in jobs[1..] ensures jobs[0].serial < e.serial {
        var i :| 0 <= i < |jobs[1..]| && jobs[1..][i] == e;
        assert jobs[i + 1] == e;
      }
    }
  }

  lemma {:induction false} WithoutSorted(jobs: seq<Entry>, id: JobId)
    requires Sorted(jobs)
    ensures Sorted(Without(jobs, id))
  {
    if jobs != [] {
      WithoutSorted(jobs[1..], id);
      WithoutIs(jobs[1..], id);
      forall e | e in jobs[1..] ensures jobs[0].serial < e.serial {
        var i :| 0 <= i < |jobs[1..]| && jobs[1..][i] == e;
        assert jobs[i + 1] == e;
      }
    }
  }

  lemma StepSorted(s: State, e: Event)
    requires Sorted(s.turn.jobs) && HandedOnce(s.turn) && Step(s, e).Some?
    ensures Sorted(Step(s, e).value.turn.jobs)
  {
    match e {
      case Unregistered(id) => WithoutSorted(s.turn.jobs, id);
      case Registered(id) => assert forall i | 0 <= i < |s.turn.jobs| :: s.turn.jobs[i] in s.turn.jobs;
      case Completed(n) => assert forall i | 0 <= i < |s.turn.jobs| :: Fill(s.turn.jobs, n)[i].serial == s.turn.jobs[i].serial;
      case _ =>
    }
  }

  lemma {:induction false} RunSorted(s: State, events: seq<Event>)
    requires RunInv(s) && Sorted(s.turn.jobs) && Run(s, events).Some?
    ensures Sorted(Run(s, events).value.turn.jobs)
    decreases |events|
  {
    hide Step, Sorted;
    if events != [] {
      StepSorted(s, events[0]);
      StepKeeps(s, events[0]);
      RunSorted(Step(s, events[0]).value, events[1..]);
    }
  }

  /** A report counts only if it is good and no result is outstanding; Stop reaches the mailbox and the loop. */
  lemma LoopEffect(s: State, good: bool)
    ensures var t := Step(s, Reported(good));
      && (t.Some? <==> s.loop.pc.Inside?)
      && (t.Some? ==>
            && t.value.turn == s.turn && t.value.loop.pc == s.loop.pc
            && (t.value.loop.seen <==> good && (s.turn.cancelled || forall e | e in s.turn.jobs :: e.id in s.turn.consumed))
            && (t.value.loop.seen ==> t.value.loop.reportedAfter == |s.turn.handed|))
    ensures var t := Step(s, Stopped).value; t.loop.aborted && t.turn.cancelled && t.turn.steers == [] && t.turn.park != Parked(false)
    ensures var t := Step(s, Cancelled).value; t.turn.cancelled && t.turn.steers == [] && t.loop == s.loop
  {
  }

  /** What the loop does with what `next()` returned, Stop first, steers before results. */
  lemma ContinueEffect(s: State, batch: seq<Entry>)
    requires s.loop.pc == Returned(batch)
    ensures var t := Step(s, LoopContinued).value; var go := !s.loop.aborted && (s.turn.steers != [] || batch != []);
      && (go ==> t.loop.pc == Inside && !t.loop.seen && t.turn == s.turn.(steers := if s.turn.steers == [] then [] else s.turn.steers[1..]))
      && (!go ==> t.turn == s.turn && t.loop.pc == Ended(
            if !s.loop.aborted && s.turn.jobs != [] && !s.turn.cancelled && !s.loop.seen then Unreported else Finished))
  {
  }

  // ---------------------------------------------------------------- what holds of every run

  /** The results of a batch are handed out in the order in which their jobs were registered. */
  lemma BatchInOrder(events: seq<Event>, i: nat, j: nat)
    requires Run(BEGIN, events).Some?
    requires var b := Batch(Run(BEGIN, events).value.turn); i < j < |b|
    ensures var b := Batch(Run(BEGIN, events).value.turn); b[i].serial < b[j].serial
  {
    RunSorted(BEGIN, events);
    var t := Run(BEGIN, events).value.turn;
    ReadySorted(t.jobs, t.consumed);
  }

  /**
   A completion that the turn has claimed as its own is not lost on the way: as long as the job is
   registered and nobody cancels, it has been handed out, or the next evaluation of `next()` does not
   park, and hands it out unless a steer comes first.
   */
  lemma ClaimedIsHandedOut(before: seq<Event>, n: Note, x: Entry, after: seq<Event>)
    requires Run(BEGIN, before).Some? && Run(Step(Run(BEGIN, before).value, Completed(n)).value, after).Some?
    requires x in Run(BEGIN, before).value.turn.jobs && x.id == n.job && !Run(BEGIN, before).value.turn.cancelled
    requires Unregistered(n.job) !in after && !Run(Step(Run(BEGIN, before).value, Completed(n)).value, after).value.turn.cancelled
    ensures var u := Run(Step(Run(BEGIN, before).value, Completed(n)).value, after).value.turn;
      x.serial in u.handed || (u.park != Parked(false) && Look(u).park == Away && (u.steers == [] ==> x.serial in Look(u).handed))
  {
    var s := Run(BEGIN, before).value;
    RunKeeps(BEGIN, before);
    StepKeeps(s, Completed(n));
    var t := Step(s, Completed(n)).value;
    var i :| 0 <= i < |s.turn.jobs| && s.turn.jobs[i] == x;
    CompleteStores(s.turn, n, i);
    var y := t.turn.jobs[i];
    assert y.id == n.job && y.serial == x.serial && y.note.Some? && y in t.turn.jobs;
    FirstAnswerStays(t, after, y);
    RunKeeps(t, after);
    var u := Run(t, after).value.turn;
    ReadyHas(u, y);
  }

  /** An answered entry is consumed, or keeps `next()` from parking. */
  lemma ReadyHas(t: Turn, x: Entry)
    requires Inv(t) && x in t.jobs && x.note.Some? && !t.cancelled
    ensures x.serial in t.handed || (t.park != Parked(false) && Look(t).park == Away && (t.steers == [] ==> x.serial in Look(t).handed))
  {
    ReadyIs(t.jobs, t.consumed);
    if x.id !in t.consumed {
      assert x in Ready(t.jobs, t.consumed);
      var k :| 0 <= k < |Ready(t.jobs, t.consumed)| && Ready(t.jobs, t.consumed)[k] == x;
      if t.steers == [] { assert Serials(Batch(t))[k] == x.serial; }
    }
  }

  /** From any moment of a run, a job's first answer stands as long as the job is not unregistered: no later one replaces it. */
  lemma FirstAnswerStands(before: seq<Event>, after: seq<Event>, x: Entry)
    requires Run(BEGIN, before).Some? && x in Run(BEGIN, before).value.turn.jobs && x.note.Some?
    requires Run(Run(BEGIN, before).value, after).Some? && Unregistered(x.id) !in after
    ensures x in Run(Run(BEGIN, before).value, after).value.turn.jobs
  {
    RunKeeps(BEGIN, before);
    FirstAnswerStays(Run(BEGIN, before).value, after, x);
  }

  /** While `next()` is parked and not woken there is no result, no steer, no cancellation, and something to wait for. */
  lemma ParkedMissesNothing(events: seq<Event>)
    requires Run(BEGIN, events).Some? && Run(BEGIN, events).value.turn.park == Parked(false)
    ensures var t := Run(BEGIN, events).value.turn;
      !t.cancelled && t.steers == [] && (forall e | e in t.jobs :: e.note.None? || e.id in t.consumed) && !AllConsumed(t)
  {
    RunKeeps(BEGIN, events);
    var t := Run(BEGIN, events).value.turn;
    NothingReady(t.jobs, t.consumed);
  }

  /** No registration's result is handed out twice. */
  lemma HandedOutOnce(events: seq<Event>)
    requires Run(BEGIN, events).Some?
    ensures NoDup(Run(BEGIN, events).value.turn.handed)
  {
    RunKeeps(BEGIN, events);
  }

  /** A batch that was handed out is prompted next, unless Stop came: no steer takes its place. */
  lemma BatchIsPrompted(events: seq<Event>)
    requires Run(BEGIN, events).Some?
    requires var l := Run(BEGIN, events).value.loop; l.pc.Returned? && l.pc.batch != [] && !l.aborted
    ensures var s := Run(BEGIN, events).value;
      var t := Step(s, LoopContinued);
      s.turn.steers == [] && t.Some? && t.value.turn == s.turn && t.value.loop.pc == Inside && !t.value.loop.seen
  {
    RunKeeps(BEGIN, events);
  }

  /**
   A turn that ends well was cancelled, or every registered job was handed out and, if there was one,
   the model reported to the user after the last result.
   */
  lemma EndsOnlyWithAReport(events: seq<Event>)
    requires Run(BEGIN, events).Some? && EndedWell(Run(BEGIN, events).value.loop)
    ensures var s := Run(BEGIN, events).value;
      s.turn.cancelled || (AllConsumed(s.turn) && (s.turn.jobs != [] ==> s.loop.seen && s.loop.reportedAfter == |s.turn.handed|))
  {
    RunKeeps(BEGIN, events);
  }
}
