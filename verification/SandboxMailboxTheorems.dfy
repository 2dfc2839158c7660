/** What the mailbox protocol guarantees over every run, and the two runs that break the exit check. */
module SandboxMailboxTheorems {
  import opened Wrappers
  import opened SandboxMailbox
  import opened SandboxMailboxProofs

  /** However clients are killed and lanes reused, a reply that reaches a client is the client's own. */
  lemma RepliesReachTheirOwners(events: seq<Event>, c: Id)
    requires Run(events).Some? && c in Run(events).value.files.clients
    ensures var k := Run(events).value.files.clients[c];
            !k.Mismatched? && (k.Received? || k.Drained? || k.Returned? ==> k.reply == c)
  {
    RunInv(events);
    assert KnowsItsFiles(c, Run(events).value.files.clients[c], Run(events).value.files);
  }

  /** The response file a waiting client is about to read is its own, and nobody is inside its lane with it. */
  lemma WaitingClientOwnsItsLane(events: seq<Event>, c: Id)
    requires Run(events).Some? && c in Run(events).value.files.clients && Run(events).value.files.clients[c].Waiting?
    ensures var f := Run(events).value.files; var l := f.clients[c].lane;
            && (l in f.response ==> f.response[l] == c)
            && (forall d | d in f.clients && LaneOf(f.clients[d]) == Some(l) :: d == c)
  {
    RunInv(events);
    assert KnowsItsFiles(c, Run(events).value.files.clients[c], Run(events).value.files);
  }

  /** No request is emitted twice, none is invented, and none is removed or answered without being emitted. */
  lemma EmittedExactlyOnce(events: seq<Event>)
    requires Run(events).Some?
    ensures var s := Run(events).value;
            && (forall i, j | 0 <= i < j < |s.wires.emitted| :: s.wires.emitted[i] != s.wires.emitted[j])
            && (forall x | x in s.wires.emitted :: x in s.files.published)
            && (forall x | x in s.files.published ::
                  x in s.wires.emitted || Holds(s.files.request, s.files.published[x], x))
  {
    RunInv(events);
  }

  /** `pending` is an injective map into `occupied`. */
  lemma PendingIsInjectiveIntoOccupied(events: seq<Event>)
    requires Run(events).Some?
    ensures var book := Run(events).value.runner.book;
            && (forall x | x in book.pending :: book.pending[x] in book.occupied)
            && (forall x, y | x in book.pending && y in book.pending && x != y :: book.pending[x] != book.pending[y])
            && |book.pending| <= 10
  {
    RunInv(events);
    InjectionBound(Run(events).value.runner.book.pending, LANES);
  }

  /** The calls that hold a slot of the relay's semaphore. */
  ghost function SlotHolders(y: Relay): set<Id> {
    y.calling + (if y.reader.Acquired? then {y.reader.id} else {})
  }

  lemma SlotHoldersArePending(s: State)
    requires Inv(s)
    ensures SlotHolders(s.relay) <= s.runner.book.pending.Keys
    ensures s.relay.book.taken == |SlotHolders(s.relay)|
  {
  }

  /** A held relay slot belongs to a call whose lane is occupied, different calls to different lanes. */
  lemma SlotsAreDistinctOccupiedLanes(events: seq<Event>)
    requires Run(events).Some?
    ensures var s := Run(events).value; var book := s.runner.book;
            && s.relay.book.taken == |SlotHolders(s.relay)| <= 10
            && (forall x | x in SlotHolders(s.relay) :: x in book.pending && book.pending[x] in book.occupied)
            && (forall x, y | x in SlotHolders(s.relay) && y in SlotHolders(s.relay) && x != y ::
                  book.pending[x] != book.pending[y])
  {
    RunInv(events);
    SlotHoldersArePending(Run(events).value);
    PendingIsInjectiveIntoOccupied(events);
    SubsetSize(SlotHolders(Run(events).value.relay), Run(events).value.runner.book.pending.Keys);
  }

  /** The duplicate-request, unknown-response and too-many-callbacks errors are unreachable, whatever fails. */
  lemma ProtocolErrorsAreUnreachable(events: seq<Event>)
    requires Run(events).Some?
    ensures DuplicateRequest !in Run(events).value.faults
         && UnknownResponse !in Run(events).value.faults
         && TooManyCallbacks !in Run(events).value.faults
  {
    RunInv(events);
  }

  // ---------------------------------------------------------------- the exit check

  ghost predicate ExitIsQuiet(a: Assumptions) {
    forall events: seq<Event> | Run(events).Some? && Admits(a, Run(events).value.runner) ::
      ActiveCallbacks !in Run(events).value.faults
  }

  lemma RunSnoc(events: seq<Event>, e: Event)
    ensures Run(events + [e]) == if Run(events).None? then None else Step(Run(events).value, e)
  {
  }

  /** One more event of a concrete run. */
  lemma Extend(events: seq<Event>, s: State, e: Event) returns (longer: seq<Event>, t: State)
    requires Run(events) == Some(s) && Step(s, e).Some?
    ensures Run(longer) == Some(t) && Some(t) == Step(s, e) && longer == events + [e]
  {
    RunSnoc(events, e);
    longer, t := events + [e], Step(s, e).value;
  }

  /** A client publishes request 7 in lane 0. */
  lemma PublishedRun() returns (events: seq<Event>, s: State)
    ensures Run(events) == Some(s)
    ensures s.runner == Init().runner && s.relay == Init().relay && s.wires == Init().wires && s.faults == {}
    ensures Holds(s.files.request, 0, 7)
  {
    events, s := [], Init();
    events, s := Extend(events, s, Sdk(7, Begin));
    events, s := Extend(events, s, Sdk(7, TryLock(0)));
    events, s := Extend(events, s, Sdk(7, CheckRequest));
    events, s := Extend(events, s, Sdk(7, ClearResponse));
    events, s := Extend(events, s, Sdk(7, Publish));
  }

  /** Lane 0's reader thread has read request 7 and is about to record it. */
  lemma HoldingRun() returns (events: seq<Event>, s: State)
    ensures Run(events) == Some(s)
    ensures s.runner == Init().runner.(readers := Init().runner.readers[0 := Holding(7)])
    ensures s.relay == Init().relay && s.wires == Init().wires && s.faults == {}
  {
    events, s := PublishedRun();
    events, s := Extend(events, s, RequestThread(0, Enter));
    events, s := Extend(events, s, RequestThread(0, Check));
    events, s := Extend(events, s, RequestThread(0, Read));
    assert s.runner.readers == Init().runner.readers[0 := Holding(7)];
  }

  /** From a held request on: the reader records and emits it. */
  lemma EmitHeld(events: seq<Event>, s: State) returns (longer: seq<Event>, t: State)
    requires Run(events) == Some(s) && |s.runner.readers| == LANES && s.runner.readers[0] == Holding(7)
    requires s.runner.book == RunnerBook(map[], {}) && s.wires.stdout == [] && !s.relay.killed
    ensures Run(longer) == Some(t) && t.wires.stdout == [Tool(7)] && t.relay == s.relay && t.files == s.files
    ensures t.runner == s.runner.(readers := s.runner.readers[0 := Idle], book := RunnerBook(map[7 := 0], {0}),
                                  serving := s.runner.serving[0 := 7])
  {
    longer, t := Extend(events, s, RequestThread(0, Accept));
    longer, t := Extend(longer, t, RequestThread(0, Emit));
    assert t.runner.readers == s.runner.readers[0 := Idle];
  }

  /** The relay takes the tool frame and starts the call. */
  lemma StartCall(events: seq<Event>, s: State) returns (longer: seq<Event>, t: State)
    requires Run(events) == Some(s) && s.wires.stdout != [] && s.wires.stdout[0].Tool?
    requires s.relay == Init().relay
    ensures Run(longer) == Some(t) && t.wires.stdout == s.wires.stdout[1..] && t.runner == s.runner
    ensures t.relay.reader.Listening? && t.relay.writer.Free? && t.relay.book.pending == 1 && !t.relay.killed
  {
    longer, t := Extend(events, s, RelaySide(TakeTool));
    longer, t := Extend(longer, t, RelaySide(Submit));
  }

  /** The script ends, the join gives up on lane 0's reader, and the drain finds no lane occupied. */
  lemma GiveUpJoin(events: seq<Event>, s: State) returns (longer: seq<Event>, t: State)
    requires Run(events) == Some(s) && s.runner == Init().runner.(readers := Init().runner.readers[0 := Holding(7)]) && !s.relay.killed
    ensures Run(longer) == Some(t)
    ensures t == s.(runner := s.runner.(childAlive := false, main := Leaving, joinedCleanly := false))
  {
    assert s.runner.readers[0] == Holding(7);
    longer, t := Extend(events, s, MainThreadStep(ChildExit));
    longer, t := Extend(longer, t, MainThreadStep(Join));
    longer, t := Extend(longer, t, MainThreadStep(DrainDone));
  }

  /** The join gave up on a reader that had read a request; its frame precedes the exit frame. */
  lemma TimedOutJoinRun() returns (events: seq<Event>)
    ensures Run(events).Some? && !Run(events).value.runner.failed && ActiveCallbacks in Run(events).value.faults
  {
    var s;
    events, s := HoldingRun();
    events, s := GiveUpJoin(events, s);
    events, s := EmitHeld(events, s);
    events, s := Extend(events, s, MainThreadStep(EmitExit));
    events, s := StartCall(events, s);
    events, s := Extend(events, s, RelaySide(TakeExit));
  }

  /** After the script ended, every idle reader thread ends. */
  lemma {:induction false} EndReaders(events: seq<Event>, s: State, n: nat) returns (longer: seq<Event>, t: State)
    requires Run(events) == Some(s) && n <= LANES == |s.runner.readers| && !s.runner.childAlive && !s.relay.killed
    requires forall l | 0 <= l < LANES :: s.runner.readers[l].Idle?
    ensures Run(longer) == Some(t)
    ensures t == s.(runner := s.runner.(readers := t.runner.readers)) && |t.runner.readers| == LANES
    ensures forall l | 0 <= l < LANES :: t.runner.readers[l] == if l < n then Ended else Idle
  {
    if n == 0 {
      longer, t := events, s;
    } else {
      longer, t := EndReaders(events, s, n - 1);
      longer, t := Extend(longer, t, RequestThread(n - 1, End));
    }
  }

  /** A failed runner leaves with the lane still occupied, and the relay reads the exit frame. */
  lemma LeaveFailed(events: seq<Event>, s: State) returns (longer: seq<Event>)
    requires Run(events) == Some(s) && s.runner.failed && !s.runner.childAlive && s.runner.main.Serving?
    requires AllEnded(s.runner.readers) && s.wires.stdout == []
    requires s.relay.reader.Listening? && s.relay.writer.Free? && s.relay.book.pending == 1 && !s.relay.killed
    ensures Run(longer).Some? && Run(longer).value.runner.joinedCleanly && ActiveCallbacks in Run(longer).value.faults
  {
    var t;
    longer, t := Extend(events, s, MainThreadStep(Join));
    longer, t := Extend(longer, t, MainThreadStep(DrainDone));
    longer, t := Extend(longer, t, MainThreadStep(EmitExit));
    longer, t := Extend(longer, t, RelaySide(TakeExit));
  }

  /** A responder failure lets the drain pass while a callback is out. */
  lemma FailedRunnerRun() returns (events: seq<Event>)
    ensures Run(events).Some? && Run(events).value.runner.joinedCleanly && ActiveCallbacks in Run(events).value.faults
  {
    var s;
    events, s := HoldingRun();
    events, s := EmitHeld(events, s);
    events, s := StartCall(events, s);
    events, s := Extend(events, s, ResponseThread(ResponderCrash));
    events, s := Extend(events, s, MainThreadStep(ChildExit));
    events, s := EndReaders(events, s, LANES);
    events := LeaveFailed(events, s);
  }

  /** The exit frame always finds the relay idle exactly when the runner cannot fail and its joins complete. */
  lemma ExitIsQuietIff(a: Assumptions)
    ensures ExitIsQuiet(a) <==> a.runnerNeverFails && a.joinsComplete
  {
    if a.runnerNeverFails && a.joinsComplete {
      forall events: seq<Event> | Run(events).Some? && Admits(a, Run(events).value.runner)
        ensures ActiveCallbacks !in Run(events).value.faults
      {
        RunInv(events);
      }
    } else if a.joinsComplete {
      var events := FailedRunnerRun();
    } else {
      var events := TimedOutJoinRun();
    }
  }

  // ---------------------------------------------------------------- the exit check of one run

  /** The relay is still reading frames. */
  predicate Reading(y: Relay) { y.reader.Listening? || y.reader.Acquired? }

  /** No request can be emitted before the exit frame any more: it is written, or the runner is about to and every reader thread has ended. */
  predicate PastDrain(s: State) {
    Exit in s.wires.stdout || (s.runner.main.Leaving? && AllEnded(s.runner.readers) && !s.relay.killed)
  }

  /** A callback is out that need not be answered before the exit frame is read, or is about to be started. */
  predicate Outstanding(s: State) {
    || s.relay.calling != {} || s.relay.jammed != {} || s.relay.writer.Released? || s.relay.reader.Acquired?
    || (s.wires.stdout != [] && s.wires.stdout[0].Tool?)
  }

  /** What the exit frame will find is settled: nothing. */
  predicate Settled(s: State) {
    && ActiveCallbacks !in s.faults
    && (Reading(s.relay) ==>
          && !Outstanding(s)
          && (s.wires.stdout == [] ==> s.runner.main.Leaving? && AllEnded(s.runner.readers)))
  }

  lemma SettledStays(s: State, e: Event)
    requires Inv(s) && Settled(s) && Step(s, e).Some?
    ensures Settled(Step(s, e).value)
  {
    hide LockInv, FileInv, RunnerInv, ExitInv, ClientStep, PipeInv, CallInv;
  }

  lemma {:induction false} SettledForGood(events: seq<Event>, more: seq<Event>)
    requires Run(events).Some? && Settled(Run(events).value) && Run(events + more).Some?
    ensures Settled(Run(events + more).value)
  {
    hide Inv, Settled, Step;
    if more == [] {
      assert events + more == events;
    } else {
      var n := |more| - 1;
      assert (events + more)[..|events + more| - 1] == events + more[..n];
      SettledForGood(events, more[..n]);
      RunInv(events + more[..n]);
      SettledStays(Run(events + more[..n]).value, more[n]);
    }
  }

  /** The callback inside the writers' lock leaves it: its reply fails if it was still to be sent. */
  lemma LeaveLock(events: seq<Event>, s: State) returns (longer: seq<Event>, t: State)
    requires Run(events) == Some(s) && Reading(s.relay) && Outstanding(s)
    ensures Run(longer) == Some(t) && events <= longer && t.wires.stdout == s.wires.stdout
    ensures t.relay.reader == s.relay.reader && t.relay.writer.Free? && Outstanding(t)
  {
    if s.relay.writer.Released? {
      longer, t := Extend(events, s, RelaySide(SendFail));
    } else if s.relay.writer.Replied? {
      longer, t := Extend(events, s, RelaySide(InvokeDone));
    } else {
      longer, t := events, s;
    }
  }

  lemma CallbacksAreCounted(s: State)
    requires Inv(s) && s.relay.reader.Listening? && s.relay.writer.Free? && (s.relay.calling != {} || s.relay.jammed != {})
    ensures s.relay.book.pending != 0
  {
  }

  lemma ReadExit(events: seq<Event>, s: State) returns (longer: seq<Event>)
    requires Run(events) == Some(s) && s.relay.reader.Listening? && s.relay.writer.Free?
    requires Outstanding(s) && s.wires.stdout != [] && s.wires.stdout[0].Exit?
    ensures Run(longer).Some? && events <= longer && ActiveCallbacks in Run(longer).value.faults
  {
    hide Run, Inv;
    RunInv(events);
    CallbacksAreCounted(s);
    var t;
    longer, t := Extend(events, s, RelaySide(TakeExit));
  }

  lemma ReadTool(events: seq<Event>, s: State) returns (longer: seq<Event>, t: State)
    requires Run(events) == Some(s) && s.relay.reader.Listening? && s.relay.writer.Free?
    requires s.wires.stdout != [] && s.wires.stdout[0].Tool?
    ensures Run(longer) == Some(t) && events <= longer && t.wires.stdout == s.wires.stdout[1..]
    ensures t.relay.reader.Listening? && t.relay.writer.Free? && t.relay.calling != {}
  {
    hide Run, Inv;
    RunInv(events);
    SlotIsFree(s);
    longer, t := Extend(events, s, RelaySide(TakeTool));
    longer, t := Extend(longer, t, RelaySide(Submit));
    assert s.wires.stdout[0].id in t.relay.calling;
  }

  /** The relay reads on up to the exit frame, and starts the callbacks on the way. */
  lemma {:induction false} ReadOn(events: seq<Event>, s: State) returns (longer: seq<Event>)
    requires Run(events) == Some(s) && s.relay.reader.Listening? && s.relay.writer.Free?
    requires Outstanding(s) && Exit in s.wires.stdout
    ensures Run(longer).Some? && events <= longer && ActiveCallbacks in Run(longer).value.faults
    decreases |s.wires.stdout|
  {
    hide Run;
    var t;
    if s.wires.stdout[0].Exit? {
      longer := ReadExit(events, s);
    } else {
      longer, t := ReadTool(events, s);
      longer := ReadOn(longer, t);
    }
  }

  lemma FindCallback(events: seq<Event>, s: State) returns (longer: seq<Event>)
    requires Run(events) == Some(s) && Reading(s.relay) && Outstanding(s) && PastDrain(s)
    ensures Run(longer).Some? && events <= longer && ActiveCallbacks in Run(longer).value.faults
  {
    var t := s;
    longer := events;
    if Exit !in s.wires.stdout {
      longer, t := Extend(longer, t, MainThreadStep(EmitExit));
    }
    longer, t := LeaveLock(longer, t);
    if t.relay.reader.Acquired? {
      longer, t := Extend(longer, t, RelaySide(Submit));
    }
    longer := ReadOn(longer, t);
  }

  /** A fault ends the relay's reading. */
  lemma {:induction false} ReadsWithoutFault(events: seq<Event>)
    requires Run(events).Some?
    ensures Reading(Run(events).value.relay) ==> ActiveCallbacks !in Run(events).value.faults
  {
    if events != [] { ReadsWithoutFault(events[..|events| - 1]); }
  }

  /** From a moment past the drain, the run can still end in the active-callbacks error exactly if a callback is outstanding. */
  lemma ExitFindsCallbackIff(events: seq<Event>)
    requires Run(events).Some? && Reading(Run(events).value.relay) && PastDrain(Run(events).value)
    ensures Outstanding(Run(events).value) <==>
      exists more: seq<Event> :: Run(events + more).Some? && ActiveCallbacks in Run(events + more).value.faults
  {
    var s := Run(events).value;
    ReadsWithoutFault(events);
    if Outstanding(s) {
      var longer := FindCallback(events, s);
      assert longer == events + longer[|events|..];
    } else {
      forall more: seq<Event> | Run(events + more).Some? ensures ActiveCallbacks !in Run(events + more).value.faults {
        SettledForGood(events, more);
      }
    }
  }
}
