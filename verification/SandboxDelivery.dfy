/**
 Nothing gets stuck on the RPC path: a published request stays in its file until its reply is in the
 other one, and every call that is out is held by somebody who can move it on.
 */
module SandboxDelivery {
  import opened Wrappers
  import opened SandboxMailbox
  import opened SandboxMailboxProofs
  import opened SandboxMailboxTheorems

  /** A client that waits in lane `l` has its request or its reply there. */
  ghost predicate ReplyInv(f: Files, r: Responder) {
    && (forall c | c in f.clients && f.clients[c].Waiting? :: f.clients[c].lane in f.request || f.clients[c].lane in f.response)
    && (r.Written? ==> forall c | c in f.clients && f.clients[c] == Waiting(r.lane) :: r.lane in f.response)
  }

  /** The token of an emitted request is where its place says. */
  ghost predicate IsThere(w: Wires, y: Relay, x: Id, p: Place) {
    match p
    case Piped => Tool(x) in w.stdout
    case Taken => y.reader == Acquired(x)
    case Calling => x in y.calling
    case Answering => y.writer == Released(x) || x in y.jammed
    case Returning => x in w.stdin
    case Delivered => true
  }

  ghost predicate TokenInv(w: Wires, y: Relay) { forall x | x in w.place :: IsThere(w, y, x, w.place[x]) }

  /** An occupied lane has a call that is out, or the responder at work on it. */
  ghost predicate LaneInv(u: Runner) {
    forall l | l in u.serving ::
      || u.serving[l] in u.book.pending
      || ((u.responder.Popped? || u.responder.Written? || u.responder.Unlinked?) && u.responder.lane == l)
      || u.responder.Stopped?
  }

  /** A pending call was emitted and not yet delivered, or its reader is about to emit it, or that reader is gone. */
  ghost predicate PendingInv(u: Runner, place: map<Id, Place>) {
    forall x | x in u.book.pending ::
      || (x in place && place[x] != Delivered)
      || (u.book.pending[x] < |u.readers| && (u.readers[u.book.pending[x]] == Emitting(x) || u.readers[u.book.pending[x]].Ended?))
  }

  ghost predicate FlowInv(s: State) {
    && ReplyInv(s.files, s.runner.responder) && TokenInv(s.wires, s.relay)
    && LaneInv(s.runner) && PendingInv(s.runner, s.wires.place)
  }

  // ---------------------------------------------------------------- the two files

  /** In the lane of a waiting client nobody else touches the response, and nobody takes a request. */
  lemma WaiterKeepsFiles(f: Files, c: Id, e: ClientEvent, d: Id)
    requires LockInv(f) && FileInv(f) && ClientStep(f, c, e).Some?
    requires var g := ClientStep(f, c, e).value; d in g.clients && g.clients[d].Waiting?
    ensures var g := ClientStep(f, c, e).value; var l := g.clients[d].lane;
      if d in f.clients && f.clients[d] == Waiting(l) then (l in f.request ==> l in g.request) && (l in f.response ==> l in g.response)
      else d == c && e.Publish? && l in g.request && l !in f.request
  {
    if d in f.clients && d != c && c in f.clients && LaneOf(f.clients[c]).Some? && LaneOf(f.clients[d]).Some? {
      assert LaneOf(f.clients[d]) != LaneOf(f.clients[c]);
    }
    if c in f.clients { assert KnowsItsFiles(c, f.clients[c], f); }
  }

  lemma ClientReplies(s: State, c: Id, e: ClientEvent)
    requires LockInv(s.files) && FileInv(s.files) && ReplyInv(s.files, s.runner.responder)
    requires ResponderInv(s.runner.responder, s.files, s.runner.book, s.runner.serving, s.wires.place)
    requires ClientStep(s.files, c, e).Some?
    ensures ReplyInv(ClientStep(s.files, c, e).value, s.runner.responder)
  {
    hide ClientStep, LockInv, FileInv;
    var g := ClientStep(s.files, c, e).value;
    forall d | d in g.clients && g.clients[d].Waiting?
      ensures g.clients[d].lane in g.request || g.clients[d].lane in g.response
      ensures s.runner.responder.Written? && s.runner.responder.lane == g.clients[d].lane ==> g.clients[d].lane in g.response
    {
      WaiterKeepsFiles(s.files, c, e, d);
    }
  }

  lemma ResponderReplies(s: State, e: ResponderEvent)
    requires FileInv(s.files) && ReplyInv(s.files, s.runner.responder) && ResponderStep(s, e).Some?
    ensures var t := ResponderStep(s, e).value; ReplyInv(t.files, t.runner.responder)
  {
  }

  lemma OthersReply(s: State, e: Event)
    requires ReplyInv(s.files, s.runner.responder) && Step(s, e).Some? && !e.Sdk? && !e.ResponseThread?
    ensures var t := Step(s, e).value; ReplyInv(t.files, t.runner.responder)
  {
  }

  // ---------------------------------------------------------------- the tokens

  lemma InRest<T>(q: seq<T>, x: T)
    requires x in q && x != q[0]
    ensures x in q[1..]
  {
    assert q == [q[0]] + q[1..];
  }

  /** The relay takes a frame off the pipe; every other frame is still on it. */
  lemma TakeTokens(s: State, e: RelayEvent)
    requires TokenInv(s.wires, s.relay) && WireInv(s.wires, s.relay) && RelayStep(s, e).Some? && (e.TakeTool? || e.TakeExit?)
    ensures var t := RelayStep(s, e).value; e.TakeExit? || s.relay.book.taken < LANES ==> TokenInv(t.wires, t.relay)
  {
    var w, t := s.wires, RelayStep(s, e).value;
    forall x | x in w.place && (e.TakeExit? || s.relay.book.taken < LANES) ensures IsThere(t.wires, t.relay, x, t.wires.place[x]) {
      assert IsThere(w, s.relay, x, w.place[x]);
      if w.place[x].Piped? && w.stdout[0] != Tool(x) { InRest(w.stdout, Tool(x)); }
    }
  }

  lemma CallTokens(s: State, e: RelayEvent)
    requires TokenInv(s.wires, s.relay) && CallInv(s.relay, s.wires.place) && RelayStep(s, e).Some? && !e.TakeTool? && !e.TakeExit?
    ensures var t := RelayStep(s, e).value; TokenInv(t.wires, t.relay)
  {
    var t := RelayStep(s, e).value;
    forall x | x in t.wires.place ensures IsThere(t.wires, t.relay, x, t.wires.place[x]) {
      assert x in s.wires.place;
      assert IsThere(s.wires, s.relay, x, s.wires.place[x]);
    }
  }

  lemma ReplyTokens(s: State)
    requires TokenInv(s.wires, s.relay) && Inv(s) && ResponderStep(s, TakeReply).Some?
    ensures TokenInv(ResponderStep(s, TakeReply).value.wires, s.relay)
  {
    hide FileInv, LockInv, ExitInv, FaultInv, EmitInv, ReaderInv, ResponderInv, CallInv, CountInv, NoRepeat;
    var w, t := s.wires, ResponderStep(s, TakeReply).value;
    assert At(w.place, w.stdin[0], Returning);
    forall x | x in w.place ensures IsThere(t.wires, s.relay, x, t.wires.place[x]) {
      assert IsThere(w, s.relay, x, w.place[x]);
      if w.place[x].Returning? && w.stdin[0] != x { InRest(w.stdin, x); }
    }
  }

  /** The other steps at most add a frame. */
  lemma OtherTokens(s: State, e: Event)
    requires TokenInv(s.wires, s.relay) && Step(s, e).Some? && !e.RelaySide? && e != ResponseThread(TakeReply)
    ensures var t := Step(s, e).value; TokenInv(t.wires, t.relay)
  {
    var t := Step(s, e).value;
    assert t.relay == s.relay && t.wires.stdin == s.wires.stdin && s.wires.stdout <= t.wires.stdout;
    forall x | x in t.wires.place ensures IsThere(t.wires, t.relay, x, t.wires.place[x]) {
      if x in s.wires.place { assert IsThere(s.wires, s.relay, x, s.wires.place[x]); }
    }
  }

  lemma SlotWasFree(s: State, e: RelayEvent)
    requires Inv(s) && e.TakeTool? && RelayStep(s, e).Some?
    ensures s.relay.book.taken < LANES
  {
    SlotIsFree(s);
  }

  lemma StepTokens(s: State, e: Event)
    requires TokenInv(s.wires, s.relay) && Inv(s) && Step(s, e).Some?
    ensures var t := Step(s, e).value; TokenInv(t.wires, t.relay)
  {
    if e == ResponseThread(TakeReply) {
      ReplyTokens(s);
    } else if !e.RelaySide? {
      OtherTokens(s, e);
    } else if e.relay.TakeTool? || e.relay.TakeExit? {
      hide TokenInv, RelayStep;
      if e.relay.TakeTool? { SlotWasFree(s, e.relay); }
      TakeTokens(s, e.relay);
    } else {
      CallTokens(s, e.relay);
    }
  }

  // ---------------------------------------------------------------- the lanes

  lemma AcceptLanes(s: State, l: nat)
    requires RunnerInv(s.files, s.runner, s.wires.place) && LaneInv(s.runner) && PendingInv(s.runner, s.wires.place)
    requires ReaderStep(s, l, Accept).Some?
    ensures var t := ReaderStep(s, l, Accept).value; LaneInv(t.runner) && PendingInv(t.runner, t.wires.place)
  {
    assert ReaderAt(l, s.runner.readers[l], s.files, s.runner.book, s.runner.serving, s.wires.place);
    hide EmitInv, ResponderInv, ReaderInv;
    if s.runner.readers[l].id !in s.runner.book.pending { AcceptedLane(s.runner, s.files, s.wires.place, l); }
  }

  lemma AcceptedLane(u: Runner, f: Files, place: map<Id, Place>, l: nat)
    requires ServeInv(f, u.book, u.serving) && LaneInv(u) && PendingInv(u, place)
    requires l < |u.readers| && u.readers[l].Holding? && l !in u.serving && u.readers[l].id !in u.book.pending
    ensures var x := u.readers[l].id; var v := u.(book := u.book.Accept(x, l).value, readers := u.readers[l := Emitting(x)], serving := u.serving[l := x]);
      LaneInv(v) && PendingInv(v, place)
  {
  }

  lemma ReaderLanes(s: State, l: nat, e: ReaderEvent)
    requires RunnerInv(s.files, s.runner, s.wires.place) && LaneInv(s.runner) && PendingInv(s.runner, s.wires.place)
    requires ReaderStep(s, l, e).Some?
    ensures var t := ReaderStep(s, l, e).value; LaneInv(t.runner) && PendingInv(t.runner, t.wires.place)
  {
    if e.Accept? {
      AcceptLanes(s, l);
    } else {
      hide EmitInv, ResponderInv, ServeInv;
      assert ReaderAt(l, s.runner.readers[l], s.files, s.runner.book, s.runner.serving, s.wires.place);
    }
  }

  lemma ResponderLanes(s: State, e: ResponderEvent)
    requires Inv(s) && LaneInv(s.runner) && PendingInv(s.runner, s.wires.place)
    requires ResponderStep(s, e).Some?
    ensures var t := ResponderStep(s, e).value; LaneInv(t.runner) && PendingInv(t.runner, t.wires.place)
  {
    hide FileInv, LockInv, ExitInv, FaultInv, CountInv, NoRepeat;
  }

  /** The relay hands tokens on; none of them is delivered by that. */
  lemma RelayHandsOn(s: State, e: RelayEvent)
    requires CallInv(s.relay, s.wires.place) && PipeInv(s.wires) && RelayStep(s, e).Some?
    ensures var t := RelayStep(s, e).value;
      && t.runner == s.runner && t.files == s.files
      && forall x | x in s.wires.place && s.wires.place[x] != Delivered :: x in t.wires.place && t.wires.place[x] != Delivered
  {
  }

  lemma OthersLeaveLanes(s: State, e: Event)
    requires Step(s, e).Some? && (e.Sdk? || e.MainThreadStep?)
    ensures var u, v := s.runner, Step(s, e).value.runner;
      v.readers == u.readers && v.responder == u.responder && v.book == u.book && v.serving == u.serving
    ensures Step(s, e).value.wires.place == s.wires.place
  {
    hide ClientStep;
  }

  lemma LanesStay(s: State, t: State)
    requires LaneInv(s.runner) && PendingInv(s.runner, s.wires.place)
    requires var u, v := s.runner, t.runner;
      v.readers == u.readers && v.responder == u.responder && v.book == u.book && v.serving == u.serving
    requires forall x | x in s.wires.place && s.wires.place[x] != Delivered :: x in t.wires.place && t.wires.place[x] != Delivered
    ensures LaneInv(t.runner) && PendingInv(t.runner, t.wires.place)
  {
  }

  lemma OtherLanes(s: State, e: Event)
    requires LaneInv(s.runner) && PendingInv(s.runner, s.wires.place) && Step(s, e).Some? && !e.RequestThread? && !e.ResponseThread?
    requires CallInv(s.relay, s.wires.place) && PipeInv(s.wires)
    ensures var t := Step(s, e).value; LaneInv(t.runner) && PendingInv(t.runner, t.wires.place)
  {
    hide ClientStep, MainStep, RelayStep, LaneInv, PendingInv;
    if e.RelaySide? {
      RelayHandsOn(s, e.relay);
      LanesStay(s, Step(s, e).value);
    } else {
      OthersLeaveLanes(s, e);
      LanesStay(s, Step(s, e).value);
    }
  }

  lemma StepFlows(s: State, e: Event)
    requires Inv(s) && FlowInv(s) && Step(s, e).Some?
    ensures FlowInv(Step(s, e).value)
  {
    hide ReplyInv, TokenInv, LaneInv, PendingInv, ReaderStep, ResponderStep, RelayStep, MainStep, ClientStep;
    StepTokens(s, e);
    match e
    case Sdk(c, k) => ClientReplies(s, c, k); OtherLanes(s, e);
    case RequestThread(l, r) => OthersReply(s, e); ReaderLanes(s, l, r);
    case ResponseThread(r) => ResponderReplies(s, r); ResponderLanes(s, r);
    case MainThreadStep(m) => OthersReply(s, e); OtherLanes(s, e);
    case RelaySide(y) => OthersReply(s, e); OtherLanes(s, e);
  }

  lemma {:induction false} RunFlows(events: seq<Event>)
    requires Run(events).Some?
    ensures FlowInv(Run(events).value)
  {
    if events != [] {
      RunInv(events[..|events| - 1]);
      RunFlows(events[..|events| - 1]);
      StepFlows(Run(events[..|events| - 1]).value, events[|events| - 1]);
    }
  }

  // ---------------------------------------------------------------- what holds of every run

  /** Whatever is killed or fails, a waiting client still has its request in its lane, or already its reply. */
  lemma WaitingClientIsServed(events: seq<Event>, c: Id)
    requires Run(events).Some? && c in Run(events).value.files.clients && Run(events).value.files.clients[c].Waiting?
    ensures var f := Run(events).value.files; var l := f.clients[c].lane;
      Holds(f.request, l, c) || Holds(f.response, l, c)
  {
    RunInv(events);
    RunFlows(events);
    assert KnowsItsFiles(c, Run(events).value.files.clients[c], Run(events).value.files);
  }

  /** Somebody outside the runner's tables holds the call: a pipe, the relay, or a callback. */
  ghost predicate IsOut(w: Wires, y: Relay, x: Id) {
    || Tool(x) in w.stdout || y.reader == Acquired(x) || x in y.calling
    || y.writer == Released(x) || x in y.jammed || x in w.stdin
  }

  /**
   An occupied lane is never forgotten: the responder is at work on it, or its call is still to be
   emitted or out with somebody, unless one of the two threads that serve the lane is gone.
   */
  lemma OccupiedLaneIsServed(events: seq<Event>, l: nat)
    requires Run(events).Some? && l in Run(events).value.runner.book.occupied && l < |Run(events).value.runner.readers|
    requires !Run(events).value.runner.responder.Stopped? && !Run(events).value.runner.readers[l].Ended?
    ensures var s := Run(events).value; var u := s.runner;
      || ((u.responder.Popped? || u.responder.Written? || u.responder.Unlinked?) && u.responder.lane == l)
      || exists x :: x in u.book.pending && u.book.pending[x] == l && (u.readers[l] == Emitting(x) || IsOut(s.wires, s.relay, x))
  {
    RunInv(events);
    RunFlows(events);
    var s := Run(events).value;
    var x := s.runner.serving[l];
    if x in s.runner.book.pending && x in s.wires.place { assert IsThere(s.wires, s.relay, x, s.wires.place[x]); }
  }

  // ---------------------------------------------------------------- errors

  /** A reply to another request would be an error, were one ever read. */
  lemma MismatchIsRaised(f: Files, c: Id, l: nat, reply: Id)
    requires c in f.clients && f.clients[c] == Drained(l, reply)
    ensures var g := ClientStep(f, c, Return); g.Some? && g.value.clients[c] == if reply == c then Returned(reply) else Mismatched(reply)
    ensures l !in ClientStep(f, c, Return).value.locks
  {
  }

  /** A client can be killed at any step of its call; its lock goes with it, its files stay. */
  lemma KillEffect(f: Files, c: Id)
    requires LockInv(f) && c in f.clients && !f.clients[c].Returned? && !f.clients[c].Mismatched?
    ensures var g := ClientStep(f, c, Kill);
      && g.Some? && g.value.clients == f.clients[c := Dead] && g.value.request == f.request && g.value.response == f.response
      && (forall l :: l in g.value.locks <==> l in f.locks && f.locks[l] != c)
  {
  }

  /** A thread that raises fails the run only while the script still runs, an output thread at any time. */
  lemma CrashEffect(s: State, l: nat)
    requires l < |s.runner.readers| && !s.relay.killed
    ensures var t := Step(s, RequestThread(l, Crash));
      t.Some? ==> t.value.runner.readers[l].Ended? && (t.value.runner.failed <==> s.runner.failed || s.runner.childAlive)
    ensures var t := Step(s, ResponseThread(ResponderCrash));
      t.Some? ==> t.value.runner.responder.Stopped? && (t.value.runner.failed <==> s.runner.failed || s.runner.childAlive)
    ensures var t := Step(s, MainThreadStep(OutputCrash)); t.Some? ==> t.value.runner.failed
  {
  }

  /** A callback that raises kills the runner, and the reader goes on with what had been written. */
  lemma CallbackFailure(s: State, id: Id)
    requires Reading(s.relay)
    ensures id in s.relay.calling && id !in s.relay.failed ==>
      Step(s, RelaySide(InvokeFail(id))) == Some(s.(relay := s.relay.(failed := s.relay.failed + {id}, killed := true)))
    ensures s.relay.writer.Released? ==> Step(s, RelaySide(SendFail)).Some? && Step(s, RelaySide(SendFail)).value.relay.killed
    ensures s.relay.killed && s.relay.reader.Listening? && s.wires.stdout == [] ==>
      Step(s, RelaySide(EndOfFrames)).Some? && Step(s, RelaySide(EndOfFrames)).value.relay.reader.Broken?
    ensures s.relay.killed ==> forall e: Event | e.RequestThread? || e.ResponseThread? || e.MainThreadStep? :: Step(s, e).None?
  {
  }

  // ---------------------------------------------------------------- one call from begin to end

  /** Client 7 has published its request in lane 0 and waits. */
  lemma Published() returns (events: seq<Event>, s: State)
    ensures Run(events) == Some(s)
    ensures s == Init().(files := Files(map[0 := 7], map[7 := Waiting(0)], map[0 := 7], map[], map[7 := 0]))
  {
    hide Run;
    events, s := StartOver();
    events, s := Extend(events, s, Sdk(7, Begin));
    events, s := Extend(events, s, Sdk(7, TryLock(0)));
    events, s := Extend(events, s, Sdk(7, CheckRequest));
    events, s := Extend(events, s, Sdk(7, ClearResponse));
    events, s := Extend(events, s, Sdk(7, Publish));
    assert s.files.clients == map[7 := Waiting(0)];
  }

  lemma StartOver() returns (events: seq<Event>, s: State)
    ensures Run(events) == Some(s) && s == Init()
  {
    events, s := [], Init();
  }

  /** The runner has emitted it. */
  lemma Emitted() returns (events: seq<Event>, s: State)
    ensures Run(events) == Some(s)
    ensures s.files == Files(map[0 := 7], map[7 := Waiting(0)], map[0 := 7], map[], map[7 := 0])
    ensures s.runner == Init().runner.(book := RunnerBook(map[7 := 0], {0}), serving := map[0 := 7])
    ensures s.relay == Init().relay && s.wires == Wires([Tool(7)], [], [7], map[7 := Piped])
  {
    hide Run;
    events, s := Published();
    events, s := Extend(events, s, RequestThread(0, Enter));
    events, s := Extend(events, s, RequestThread(0, Check));
    events, s := Extend(events, s, RequestThread(0, Read));
    events, s := Extend(events, s, RequestThread(0, Accept));
    events, s := Extend(events, s, RequestThread(0, Emit));
    assert s.runner.readers == Init().runner.readers;
  }

  /** The relay has called the tool and sent the reply back. */
  lemma Replied() returns (events: seq<Event>, s: State)
    ensures Run(events) == Some(s)
    ensures s.files == Files(map[0 := 7], map[7 := Waiting(0)], map[0 := 7], map[], map[7 := 0])
    ensures s.runner == Init().runner.(book := RunnerBook(map[7 := 0], {0}), serving := map[0 := 7])
    ensures s.relay == Init().relay && s.wires.stdout == [] && s.wires.stdin == [7]
  {
    hide Run;
    events, s := Emitted();
    events, s := Extend(events, s, RelaySide(TakeTool));
    events, s := Extend(events, s, RelaySide(Submit));
    events, s := Extend(events, s, RelaySide(InvokeRelease(7)));
    events, s := Extend(events, s, RelaySide(InvokeSend));
    events, s := Extend(events, s, RelaySide(InvokeDone));
    assert s.relay.calling == {};
  }

  /** The runner has delivered the reply and freed the lane. */
  lemma DeliveredReply() returns (events: seq<Event>, s: State)
    ensures Run(events) == Some(s)
    ensures s.files == Files(map[0 := 7], map[7 := Waiting(0)], map[], map[0 := 7], map[7 := 0])
    ensures s.runner == Init().runner && s.relay == Init().relay && s.wires.stdout == [] && s.wires.stdin == []
  {
    hide Run;
    events, s := Replied();
    events, s := Extend(events, s, ResponseThread(TakeReply));
    events, s := Extend(events, s, ResponseThread(WriteResponse));
    events, s := Extend(events, s, ResponseThread(UnlinkRequest));
    events, s := Extend(events, s, ResponseThread(FreeLane));
    assert s.files.request == map[] && s.runner.book == RunnerBook(map[], {}) && s.runner.serving == map[];
  }

  /** One call runs to its end, and leaves both programs and the lane as it found them. */
  lemma OneCallReturns() returns (events: seq<Event>, s: State)
    ensures Run(events) == Some(s)
    ensures s.files == Files(map[], map[7 := Returned(7)], map[], map[], map[7 := 0])
    ensures s.runner == Init().runner && s.relay == Init().relay && s.wires.stdout == [] && s.wires.stdin == []
  {
    hide Run;
    events, s := DeliveredReply();
    events, s := Extend(events, s, Sdk(7, Poll));
    events, s := Extend(events, s, Sdk(7, RemoveResponse));
    events, s := Extend(events, s, Sdk(7, Return));
    assert s.files.clients == map[7 := Returned(7)] && s.files.locks == map[];
  }
}
