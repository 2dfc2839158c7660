/**
 The inductive invariant of the mailbox protocol and what it gives: over every run, each client
 reads only its own reply, each request is emitted once, no semaphore acquire fails, and the relay
 sees the exit frame with no callback outstanding exactly when the runner cannot fail and its
 joins cannot time out.
 */
module SandboxMailboxProofs {
  import opened Wrappers
  import opened SandboxMailbox

  /** What may be assumed of the machine the runner runs on. */
  datatype Assumptions = Assumptions(runnerNeverFails: bool, joinsComplete: bool)

  ghost predicate Admits(a: Assumptions, u: Runner) {
    && (a.runnerNeverFails ==> !u.failed)
    && (a.joinsComplete ==> u.main.Serving? || u.joinedCleanly)
  }

  // ---------------------------------------------------------------- the invariant

  ghost predicate Holds(m: map<nat, Id>, l: nat, x: Id) { l in m && m[l] == x }

  /** Locks and clients agree: a client inside a lane holds exactly that lane's lock. */
  ghost predicate LockInv(f: Files) {
    && (forall l | l in f.locks :: l < LANES && f.locks[l] in f.clients && LaneOf(f.clients[f.locks[l]]) == Some(l))
    && (forall c | c in f.clients && LaneOf(f.clients[c]).Some? :: Holds(f.locks, LaneOf(f.clients[c]).value, c))
  }

  /** A lane's two files are what the client inside it believes, and replies are its own. */
  ghost predicate FileInv(f: Files) {
    && (forall c | c in f.clients :: KnowsItsFiles(c, f.clients[c], f))
    && (forall l | l in f.request :: l < LANES && f.request[l] in f.published && f.published[f.request[l]] == l)
    && (forall c | c in f.published :: c in f.clients && f.published[c] < LANES)
  }

  ghost predicate KnowsItsFiles(c: Id, k: Client, f: Files) {
    match k
    case Seeking => c !in f.published
    case Locked(l) => c !in f.published
    case Checked(l) => c !in f.published && l !in f.request
    case Cleared(l) => c !in f.published && l !in f.request && l !in f.response
    case Waiting(l) =>
      && c in f.published && f.published[c] == l
      && (l in f.request ==> f.request[l] == c)
      && (l in f.response ==> f.response[l] == c)
    case Received(l, r) => r == c
    case Drained(l, r) => r == c
    case Returned(r) => r == c
    case Mismatched(_) => false
    case Dead => true
  }

  /** A request leaves its file only after it was emitted; an emitted one still in its file is being served. */
  ghost predicate EmitInv(f: Files, serving: map<nat, Id>, place: map<Id, Place>) {
    && (forall x | x in f.published :: Holds(f.request, f.published[x], x) || x in place)
    && (forall x | x in place ::
          x in f.published && (Holds(f.request, f.published[x], x) ==> Holds(serving, f.published[x], x)))
  }

  ghost predicate NoRepeat(w: Wires) {
    && (forall x :: x in w.emitted <==> x in w.place)
    && (forall i, j | 0 <= i < j < |w.emitted| :: w.emitted[i] != w.emitted[j])
  }

  /** `pending` is an injective map into `occupied`, and the responder works on an occupied lane. */
  ghost predicate ServeInv(f: Files, book: RunnerBook, serving: map<nat, Id>) {
    && book.occupied == serving.Keys
    && (forall l | l in serving :: l < LANES && serving[l] in f.published && f.published[serving[l]] == l)
    && (forall x | x in book.pending :: Holds(serving, book.pending[x], x) && Holds(f.request, book.pending[x], x))
  }

  ghost predicate ResponderInv(r: Responder, f: Files, book: RunnerBook, serving: map<nat, Id>, place: map<Id, Place>) {
    match r
    case Popped(x, l) => Holds(serving, l, x) && Holds(f.request, l, x) && x in place && x !in book.pending
    case Written(x, l) => Holds(serving, l, x) && Holds(f.request, l, x) && x in place && x !in book.pending
    case Unlinked(x, l) => Holds(serving, l, x) && !Holds(f.request, l, x) && x in place && x !in book.pending
    case _ => true
  }

  ghost predicate ReaderInv(readers: seq<Reader>, f: Files, book: RunnerBook, serving: map<nat, Id>, place: map<Id, Place>) {
    && |readers| == LANES
    && (forall l | 0 <= l < LANES :: ReaderAt(l, readers[l], f, book, serving, place))
  }

  ghost predicate ReaderAt(l: nat, r: Reader, f: Files, book: RunnerBook, serving: map<nat, Id>, place: map<Id, Place>) {
    match r
    case Polling => l !in serving
    case Holding(x) => l !in serving && Holds(f.request, l, x)
    case Emitting(x) => x in book.pending && book.pending[x] == l && x !in place
    case _ => true
  }

  ghost predicate RunnerInv(f: Files, u: Runner, place: map<Id, Place>) {
    && EmitInv(f, u.serving, place)
    && ServeInv(f, u.book, u.serving)
    && ResponderInv(u.responder, f, u.book, u.serving, place)
    && ReaderInv(u.readers, f, u.book, u.serving, place)
    && (forall x | x in place && place[x] != Delivered :: x in u.book.pending)
  }

  ghost predicate At(place: map<Id, Place>, x: Id, p: Place) { x in place && place[x] == p }

  /** Every frame, call and reply is the only token of its request. */
  ghost predicate PipeInv(w: Wires) {
    && (forall i | 0 <= i < |w.stdout| && w.stdout[i].Tool? :: At(w.place, w.stdout[i].id, Piped))
    && (forall i, j | 0 <= i < j < |w.stdout| && w.stdout[i].Tool? && w.stdout[j].Tool? :: w.stdout[i].id != w.stdout[j].id)
    && (forall i | 0 <= i < |w.stdin| :: At(w.place, w.stdin[i], Returning))
    && (forall i, j | 0 <= i < j < |w.stdin| :: w.stdin[i] != w.stdin[j])
  }

  ghost predicate CallInv(y: Relay, place: map<Id, Place>) {
    && (y.reader.Acquired? ==> At(place, y.reader.id, Taken))
    && (forall x | x in y.calling :: At(place, x, Calling))
    && (y.writer.Released? ==> At(place, y.writer.id, Answering) && y.writer.id !in y.jammed)
    && (forall x | x in y.jammed :: At(place, x, Answering))
  }

  ghost predicate CountInv(y: Relay) {
    && y.book.taken == |y.calling| + (if y.reader.Acquired? then 1 else 0)
    && y.book.pending == |y.calling| + |y.jammed| + (if y.writer.Free? then 0 else 1)
  }

  ghost predicate WireInv(w: Wires, y: Relay) {
    NoRepeat(w) && PipeInv(w) && CallInv(y, w.place) && CountInv(y)
  }

  ghost predicate ExitInv(u: Runner, stdout: seq<Frame>) {
    && (u.main.Serving? ==> !u.joinedCleanly)
    && (!u.main.Serving? ==> !u.childAlive)
    && (u.joinedCleanly ==> AllEnded(u.readers))
    && ((u.main.Leaving? || u.main.Gone?) && u.joinedCleanly && !u.failed ==> u.serving == map[])
    && (Exit in stdout ==> u.main.Gone?)
  }

  /** The relay may find callbacks at exit only after a runner failure or a join that timed out. */
  ghost predicate FaultInv(faults: set<Fault>, u: Runner) {
    && faults <= {ActiveCallbacks}
    && (ActiveCallbacks in faults ==> u.failed || !Admits(Assumptions(true, true), u))
  }

  ghost predicate Inv(s: State) {
    && LockInv(s.files)
    && FileInv(s.files)
    && RunnerInv(s.files, s.runner, s.wires.place)
    && WireInv(s.wires, s.relay)
    && ExitInv(s.runner, s.wires.stdout)
    && FaultInv(s.faults, s.runner)
  }

  // ---------------------------------------------------------------- clients

  /** What the runner may rely on whenever a client moves: requests are added, never taken or replaced. */
  ghost predicate ClientGuarantee(f: Files, g: Files) {
    && (forall l | l in f.request :: Holds(g.request, l, f.request[l]))
    && (forall l | l in g.request && l !in f.request :: g.request[l] !in f.published)
    && (forall x | x in f.published :: x in g.published && g.published[x] == f.published[x])
    && (forall x | x in g.published && x !in f.published :: Holds(g.request, g.published[x], x))
  }

  lemma ClientKeepsLocks(f: Files, c: Id, e: ClientEvent)
    requires LockInv(f) && ClientStep(f, c, e).Some?
    ensures LockInv(ClientStep(f, c, e).value)
  {
  }

  lemma ClientGuarantees(f: Files, c: Id, e: ClientEvent)
    requires LockInv(f) && FileInv(f) && ClientStep(f, c, e).Some?
    ensures ClientGuarantee(f, ClientStep(f, c, e).value)
  {
    if c in f.clients { assert KnowsItsFiles(c, f.clients[c], f); }
  }

  /** The others in their own lanes see nothing of what `c` does in its lane. */
  lemma ClientKeepsOther(f: Files, c: Id, e: ClientEvent, d: Id)
    requires LockInv(f) && FileInv(f) && ClientStep(f, c, e).Some?
    requires d in f.clients && d != c
    ensures var g := ClientStep(f, c, e).value; d in g.clients && KnowsItsFiles(d, g.clients[d], g)
  {
    assert KnowsItsFiles(d, f.clients[d], f);
    if LaneOf(f.clients[d]).Some? && c in f.clients && LaneOf(f.clients[c]).Some? {
      assert LaneOf(f.clients[d]) != LaneOf(f.clients[c]);
    }
  }

  lemma ClientKeepsOwn(f: Files, c: Id, e: ClientEvent)
    requires LockInv(f) && FileInv(f) && ClientStep(f, c, e).Some?
    ensures var g := ClientStep(f, c, e).value; c in g.clients && KnowsItsFiles(c, g.clients[c], g)
  {
    if c in f.clients { assert KnowsItsFiles(c, f.clients[c], f); }
  }

  lemma ClientKeepsFiles(f: Files, c: Id, e: ClientEvent)
    requires LockInv(f) && FileInv(f) && ClientStep(f, c, e).Some?
    ensures FileInv(ClientStep(f, c, e).value)
  {
    hide KnowsItsFiles;
    var g := ClientStep(f, c, e).value;
    ClientGuarantees(f, c, e);
    ClientKeepsOwn(f, c, e);
    assert forall d | d in g.clients && d != c :: d in f.clients;
    forall d | d in g.clients && d != c ensures KnowsItsFiles(d, g.clients[d], g) {
      ClientKeepsOther(f, c, e, d);
    }
  }

  lemma ClientKeepsRunner(f: Files, g: Files, u: Runner, place: map<Id, Place>)
    requires RunnerInv(f, u, place) && ClientGuarantee(f, g)
    ensures RunnerInv(g, u, place)
  {
  }

  lemma ClientStepInv(s: State, c: Id, e: ClientEvent)
    requires Inv(s) && ClientStep(s.files, c, e).Some?
    ensures Inv(s.(files := ClientStep(s.files, c, e).value))
  {
    ClientKeepsLocks(s.files, c, e);
    ClientKeepsFiles(s.files, c, e);
    ClientGuarantees(s.files, c, e);
    ClientKeepsRunner(s.files, ClientStep(s.files, c, e).value, s.runner, s.wires.place);
  }

  // ---------------------------------------------------------------- runner

  lemma ReaderAcceptInv(s: State, l: nat)
    requires Inv(s) && ReaderStep(s, l, Accept).Some?
    ensures Inv(ReaderStep(s, l, Accept).value)
  {
    hide LockInv, WireInv;
    var t := ReaderStep(s, l, Accept).value;
    var x := s.runner.readers[l].id;
    assert ReaderAt(l, s.runner.readers[l], s.files, s.runner.book, s.runner.serving, s.wires.place);
    assert x !in s.runner.book.pending;
    forall k | 0 <= k < LANES
      ensures ReaderAt(k, t.runner.readers[k], t.files, t.runner.book, t.runner.serving, t.wires.place)
    {
      assert ReaderAt(k, s.runner.readers[k], s.files, s.runner.book, s.runner.serving, s.wires.place);
    }
  }

  lemma EmitKeepsWires(w: Wires, y: Relay, x: Id)
    requires WireInv(w, y) && x !in w.place
    ensures WireInv(w.(stdout := w.stdout + [Tool(x)], emitted := w.emitted + [x], place := w.place[x := Piped]), y)
  {
  }

  lemma EmitKeepsRunner(f: Files, u: Runner, place: map<Id, Place>, l: nat)
    requires RunnerInv(f, u, place) && l < LANES && u.readers[l].Emitting?
    ensures RunnerInv(f, u.(readers := u.readers[l := Idle]), place[u.readers[l].id := Piped])
  {
  }

  lemma ReaderEmitInv(s: State, l: nat)
    requires Inv(s) && ReaderStep(s, l, Emit).Some?
    ensures Inv(ReaderStep(s, l, Emit).value)
  {
    assert ReaderAt(l, s.runner.readers[l], s.files, s.runner.book, s.runner.serving, s.wires.place);
    EmitKeepsWires(s.wires, s.relay, s.runner.readers[l].id);
    EmitKeepsRunner(s.files, s.runner, s.wires.place, l);
  }

  lemma ReaderStepInv(s: State, l: nat, e: ReaderEvent)
    requires Inv(s) && ReaderStep(s, l, e).Some?
    ensures Inv(ReaderStep(s, l, e).value)
  {
    if e.Accept? {
      ReaderAcceptInv(s, l);
    } else if e.Emit? {
      ReaderEmitInv(s, l);
    } else {
      var t := ReaderStep(s, l, e).value;
      forall k | 0 <= k < LANES
        ensures ReaderAt(k, t.runner.readers[k], t.files, t.runner.book, t.runner.serving, t.wires.place)
      {
        assert ReaderAt(k, s.runner.readers[k], s.files, s.runner.book, s.runner.serving, s.wires.place);
      }
    }
  }

  lemma TakeReplyKeepsWires(w: Wires, y: Relay)
    requires WireInv(w, y) && w.stdin != []
    ensures WireInv(w.(stdin := w.stdin[1..], place := w.place[w.stdin[0] := Delivered]), y)
  {
  }

  lemma TakeReplyKeepsRunner(f: Files, u: Runner, place: map<Id, Place>, x: Id)
    requires RunnerInv(f, u, place) && x in u.book.pending && x in place
    ensures RunnerInv(f, u.(book := u.book.TakeReply(x).value.1, responder := Popped(x, u.book.pending[x])),
                      place[x := Delivered])
  {
  }

  lemma TakeReplyInv(s: State)
    requires Inv(s) && ResponderStep(s, TakeReply).Some?
    ensures Inv(ResponderStep(s, TakeReply).value)
  {
    assert At(s.wires.place, s.wires.stdin[0], Returning);
    TakeReplyKeepsWires(s.wires, s.relay);
    TakeReplyKeepsRunner(s.files, s.runner, s.wires.place, s.wires.stdin[0]);
  }

  /** The runner writes a response only into a lane whose client is waiting for exactly that reply, or is dead. */
  lemma WriteResponseInv(s: State)
    requires Inv(s) && ResponderStep(s, WriteResponse).Some?
    ensures Inv(ResponderStep(s, WriteResponse).value)
  {
    var t := ResponderStep(s, WriteResponse).value;
    forall d | d in t.files.clients ensures KnowsItsFiles(d, t.files.clients[d], t.files) {
      assert KnowsItsFiles(d, s.files.clients[d], s.files);
    }
  }

  lemma UnlinkKeepsRunner(f: Files, u: Runner, place: map<Id, Place>)
    requires RunnerInv(f, u, place) && FileInv(f) && u.responder.Written?
    ensures RunnerInv(f.(request := f.request - {u.responder.lane}),
                      u.(responder := Unlinked(u.responder.id, u.responder.lane)), place)
  {
  }

  lemma UnlinkRequestInv(s: State)
    requires Inv(s) && ResponderStep(s, UnlinkRequest).Some?
    ensures Inv(ResponderStep(s, UnlinkRequest).value)
  {
    var t := ResponderStep(s, UnlinkRequest).value;
    UnlinkKeepsRunner(s.files, s.runner, s.wires.place);
    forall d | d in t.files.clients ensures KnowsItsFiles(d, t.files.clients[d], t.files) {
      assert KnowsItsFiles(d, s.files.clients[d], s.files);
    }
  }

  lemma FreeKeepsRunner(f: Files, u: Runner, place: map<Id, Place>)
    requires RunnerInv(f, u, place) && u.responder.Unlinked?
    ensures RunnerInv(f, u.(book := u.book.Free(u.responder.lane), serving := u.serving - {u.responder.lane},
                            responder := Ready), place)
  {
  }

  lemma FreeLaneInv(s: State)
    requires Inv(s) && ResponderStep(s, FreeLane).Some?
    ensures Inv(ResponderStep(s, FreeLane).value)
  {
    FreeKeepsRunner(s.files, s.runner, s.wires.place);
  }

  lemma ResponderStepInv(s: State, e: ResponderEvent)
    requires Inv(s) && ResponderStep(s, e).Some?
    ensures Inv(ResponderStep(s, e).value)
  {
    match e
    case TakeReply => TakeReplyInv(s);
    case WriteResponse => WriteResponseInv(s);
    case UnlinkRequest => UnlinkRequestInv(s);
    case FreeLane => FreeLaneInv(s);
    case ResponderCrash =>
  }

  lemma MainStepInv(s: State, e: MainEvent)
    requires Inv(s) && MainStep(s, e).Some?
    ensures Inv(MainStep(s, e).value)
  {
  }

  // ---------------------------------------------------------------- relay

  /** An injective map into the lanes has at most LANES entries. */
  lemma {:induction false} InjectionBound(m: map<Id, nat>, n: nat)
    requires forall x | x in m :: m[x] < n
    requires forall x, y | x in m && y in m && x != y :: m[x] != m[y]
    ensures |m| <= n
  {
    if x :| x in m && m[x] == n - 1 {
      var rest := m - {x};
      InjectionBound(rest, n - 1);
      assert m.Keys == rest.Keys + {x};
    } else if n > 0 {
      InjectionBound(m, n - 1);
    } else {
      assert m.Keys == {};
    }
  }

  /** Slots in use belong to distinct occupied lanes, and the frame about to be read to yet another one. */
  lemma SlotIsFree(s: State)
    requires Inv(s) && s.relay.reader.Listening? && s.wires.stdout != [] && s.wires.stdout[0].Tool?
    ensures s.relay.book.taken < LANES
  {
    var y := s.wires.stdout[0].id;
    assert At(s.wires.place, y, Piped);
    SubsetSize(s.relay.calling + {y}, s.runner.book.pending.Keys);
    InjectionBound(s.runner.book.pending, LANES);
  }

  /** The relay moves a token; the runner's own bookkeeping only needs it to be undelivered. */
  lemma MoveKeepsRunner(f: Files, u: Runner, place: map<Id, Place>, x: Id, p: Place)
    requires RunnerInv(f, u, place) && x in place && place[x] != Delivered
    ensures RunnerInv(f, u, place[x := p])
  {
  }

  lemma TakeToolKeepsWires(s: State)
    requires WireInv(s.wires, s.relay) && RelayStep(s, TakeTool).Some? && s.relay.book.taken < LANES
    ensures WireInv(RelayStep(s, TakeTool).value.wires, RelayStep(s, TakeTool).value.relay)
  {
  }

  lemma TakeToolInv(s: State)
    requires Inv(s) && RelayStep(s, TakeTool).Some?
    ensures Inv(RelayStep(s, TakeTool).value)
  {
    SlotIsFree(s);
    TakeToolKeepsWires(s);
    assert At(s.wires.place, s.wires.stdout[0].id, Piped);
    MoveKeepsRunner(s.files, s.runner, s.wires.place, s.wires.stdout[0].id, Taken);
  }

  lemma TakeExitInv(s: State)
    requires Inv(s) && RelayStep(s, TakeExit).Some?
    ensures Inv(RelayStep(s, TakeExit).value)
  {
    hide FileInv, LockInv;
    assert Exit in s.wires.stdout;
    if !s.runner.failed && s.runner.joinedCleanly {
      assert forall x :: x in s.relay.calling ==> At(s.wires.place, x, Calling);
      assert s.relay.calling == {};
      assert forall x :: x in s.relay.jammed ==> At(s.wires.place, x, Answering);
      assert s.relay.jammed == {};
    }
  }

  lemma SubmitCounts(s: State)
    requires CallInv(s.relay, s.wires.place) && CountInv(s.relay) && RelayStep(s, Submit).Some?
    ensures CountInv(RelayStep(s, Submit).value.relay)
  {
    assert s.relay.reader.id !in s.relay.calling;
  }

  lemma SubmitKeepsWires(s: State)
    requires WireInv(s.wires, s.relay) && RelayStep(s, Submit).Some?
    ensures WireInv(RelayStep(s, Submit).value.wires, RelayStep(s, Submit).value.relay)
  {
    SubmitCounts(s);
    hide CountInv;
  }

  lemma SubmitInv(s: State)
    requires Inv(s) && RelayStep(s, Submit).Some?
    ensures Inv(RelayStep(s, Submit).value)
  {
    SubmitKeepsWires(s);
    MoveKeepsRunner(s.files, s.runner, s.wires.place, s.relay.reader.id, Calling);
  }

  lemma InvokeReleaseKeepsWires(s: State, id: Id)
    requires WireInv(s.wires, s.relay) && RelayStep(s, InvokeRelease(id)).Some?
    ensures WireInv(RelayStep(s, InvokeRelease(id)).value.wires, RelayStep(s, InvokeRelease(id)).value.relay)
  {
  }

  lemma InvokeReleaseInv(s: State, id: Id)
    requires Inv(s) && RelayStep(s, InvokeRelease(id)).Some?
    ensures Inv(RelayStep(s, InvokeRelease(id)).value)
  {
    InvokeReleaseKeepsWires(s, id);
    assert At(s.wires.place, id, Calling);
    MoveKeepsRunner(s.files, s.runner, s.wires.place, id, Answering);
  }

  lemma InvokeSendKeepsWires(s: State)
    requires WireInv(s.wires, s.relay) && RelayStep(s, InvokeSend).Some?
    ensures WireInv(RelayStep(s, InvokeSend).value.wires, RelayStep(s, InvokeSend).value.relay)
  {
  }

  lemma InvokeSendInv(s: State)
    requires Inv(s) && RelayStep(s, InvokeSend).Some?
    ensures Inv(RelayStep(s, InvokeSend).value)
  {
    InvokeSendKeepsWires(s);
    MoveKeepsRunner(s.files, s.runner, s.wires.place, s.relay.writer.id, Returning);
  }

  lemma RelayStepInv(s: State, e: RelayEvent)
    requires Inv(s) && RelayStep(s, e).Some?
    ensures Inv(RelayStep(s, e).value)
  {
    match e
    case TakeTool => TakeToolInv(s);
    case TakeExit => TakeExitInv(s);
    case Submit => SubmitInv(s);
    case InvokeRelease(id) => InvokeReleaseInv(s, id);
    case InvokeSend => InvokeSendInv(s);
    case InvokeDone =>
    case InvokeFail(id) =>
    case SendFail =>
    case EndOfFrames =>
  }

  lemma StepInv(s: State, e: Event)
    requires Inv(s) && Step(s, e).Some?
    ensures Inv(Step(s, e).value)
  {
    match e
    case Sdk(c, k) => ClientStepInv(s, c, k);
    case RequestThread(l, r) => ReaderStepInv(s, l, r);
    case ResponseThread(r) => ResponderStepInv(s, r);
    case MainThreadStep(m) => MainStepInv(s, m);
    case RelaySide(y) => RelayStepInv(s, y);
  }

  lemma InitInv()
    ensures Inv(Init())
  {
  }

  lemma {:induction false} RunInv(events: seq<Event>)
    requires Run(events).Some?
    ensures Inv(Run(events).value)
  {
    if events == [] {
      InitInv();
    } else {
      RunInv(events[..|events| - 1]);
      StepInv(Run(events[..|events| - 1]).value, events[|events| - 1]);
    }
  }
}
