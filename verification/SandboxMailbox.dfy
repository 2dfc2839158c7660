/**
 The script sandbox's RPC path as one step machine: SDK clients (siclaw.py), the in-container
 runner (runner.py) and the relay outside it (e2b-relay.py). One event is one atomic file action,
 one lock-protected section, or one frame read or written.

 A transaction is named by its request id. Message bodies are irrelevant to the protocol, so a
 request file, a response file and a frame are each represented by the id they carry.
 */
module SandboxMailbox {
  import opened Wrappers

  const LANES: nat := 10

  type Id = nat

  // ---------------------------------------------------------------- siclaw.py

  /** Where one `_call` is between `_lane` and its return. */
  datatype Client =
    | Seeking
    | Locked(lane: nat)
    | Checked(lane: nat)
    | Cleared(lane: nat)
    | Waiting(lane: nat)
    | Received(lane: nat, reply: Id)
    | Drained(lane: nat, reply: Id)
    | Returned(reply: Id)
    | Mismatched(reply: Id)
    | Dead

  /** The lanes' files and the SDK clients. `published` is history: the lane each id was written to. */
  datatype Files = Files(
    locks: map<nat, Id>, clients: map<Id, Client>,
    request: map<nat, Id>, response: map<nat, Id>, published: map<Id, nat>)

  datatype ClientEvent =
    | Begin | TryLock(lane: nat) | CheckRequest | ClearResponse | Publish | Poll | RemoveResponse | Return | Kill

  function LaneOf(k: Client): Option<nat> {
    match k
    case Locked(l) => Some(l)
    case Checked(l) => Some(l)
    case Cleared(l) => Some(l)
    case Waiting(l) => Some(l)
    case Received(l, _) => Some(l)
    case Drained(l, _) => Some(l)
    case _ => None
  }

  /** The client leaves its lane: the flock goes with the closed file or the dead process. */
  function LeaveLane(f: Files, c: Id, k: Client): Files
    requires c in f.clients
  {
    var lane := LaneOf(f.clients[c]);
    f.(clients := f.clients[c := k],
       locks := if lane.Some? then f.locks - {lane.value} else f.locks)
  }

  function ClientStep(f: Files, c: Id, e: ClientEvent): Option<Files> {
    if e.Begin? then
      if c in f.clients then None else Some(f.(clients := f.clients[c := Seeking]))
    else if c !in f.clients then None
    else
      var k := f.clients[c];
      match e
      case Begin => None
      case TryLock(lane) =>
        if !k.Seeking? || lane >= LANES || lane in f.locks then None
        else Some(f.(locks := f.locks[lane := c], clients := f.clients[c := Locked(lane)]))
      case CheckRequest =>
        if !k.Locked? then None
        else if k.lane in f.request then Some(LeaveLane(f, c, Seeking))
        else Some(f.(clients := f.clients[c := Checked(k.lane)]))
      case ClearResponse =>
        if !k.Checked? then None
        else Some(f.(response := f.response - {k.lane}, clients := f.clients[c := Cleared(k.lane)]))
      case Publish =>
        if !k.Cleared? then None
        else Some(f.(request := f.request[k.lane := c], clients := f.clients[c := Waiting(k.lane)],
                     published := f.published[c := k.lane]))
      case Poll =>
        if !k.Waiting? || k.lane !in f.response then None
        else Some(f.(clients := f.clients[c := Received(k.lane, f.response[k.lane])]))
      case RemoveResponse =>
        if !k.Received? then None
        else Some(f.(response := f.response - {k.lane}, clients := f.clients[c := Drained(k.lane, k.reply)]))
      case Return =>
        if !k.Drained? then None
        else Some(LeaveLane(f, c, if k.reply == c then Returned(k.reply) else Mismatched(k.reply)))
      case Kill =>
        if k.Returned? || k.Mismatched? then None else Some(LeaveLane(f, c, Dead))
  }

  // ---------------------------------------------------------------- runner.py

  /** The runner's shared bookkeeping: `pending` and `occupied`, guarded by one condition variable. */
  datatype RunnerBook = RunnerBook(pending: map<Id, nat>, occupied: set<nat>) {
    function Accept(id: Id, lane: nat): Option<RunnerBook> {
      if id in pending then None
      else Some(RunnerBook(pending[id := lane], occupied + {lane}))
    }

    function TakeReply(id: Id): Option<(nat, RunnerBook)> {
      if id !in pending then None
      else Some((pending[id], RunnerBook(pending - {id}, occupied)))
    }

    function Free(lane: nat): RunnerBook {
      RunnerBook(pending, occupied - {lane})
    }
  }

  /** One `requests(index)` thread. */
  datatype Reader = Idle | Entered | Polling | Holding(id: Id) | Emitting(id: Id) | Ended

  /** The `responses` thread. */
  datatype Responder =
    | Ready
    | Popped(id: Id, lane: nat)
    | Written(id: Id, lane: nat)
    | Unlinked(id: Id, lane: nat)
    | Stopped

  datatype MainThread = Serving | Draining | Leaving | Gone

  /** The runner. `serving` is history: whose request keeps a lane occupied. */
  datatype Runner = Runner(
    readers: seq<Reader>, responder: Responder, book: RunnerBook, serving: map<nat, Id>,
    childAlive: bool, failed: bool, main: MainThread, joinedCleanly: bool)

  datatype Frame = Tool(id: Id) | Exit

  /** Where an emitted request's single token is. */
  datatype Place = Piped | Taken | Calling | Answering | Returning | Delivered

  /** The two pipes between runner and relay. `emitted` and `place` are history. */
  datatype Wires = Wires(stdout: seq<Frame>, stdin: seq<Id>, emitted: seq<Id>, place: map<Id, Place>)

  /** Errors the programs raise only when they believe the protocol was violated. */
  datatype Fault = DuplicateRequest | UnknownResponse | TooManyCallbacks | ActiveCallbacks

  datatype State = State(files: Files, runner: Runner, relay: Relay, wires: Wires, faults: set<Fault>)

  /** `failed.set(); stop()` — only while the script still runs. */
  function Fail(r: Runner): Runner { if r.childAlive then r.(failed := true) else r }

  datatype ReaderEvent = Enter | Check | Read | Accept | Emit | End | Crash

  function ReaderStep(s: State, l: nat, e: ReaderEvent): Option<State> {
    if l >= |s.runner.readers| then None
    else
      var u := s.runner;
      var r := u.readers[l];
      match e
      case Enter =>
        if !r.Idle? || !u.childAlive then None else Some(s.(runner := u.(readers := u.readers[l := Entered])))
      case Check =>
        if !r.Entered? then None
        else Some(s.(runner := u.(readers := u.readers[l := if l in u.book.occupied then Idle else Polling])))
      case Read =>
        if !r.Polling? then None
        else
          var next := if l in s.files.request then Holding(s.files.request[l]) else Idle;
          Some(s.(runner := u.(readers := u.readers[l := next])))
      case Accept =>
        if !r.Holding? then None
        else
          var book := u.book.Accept(r.id, l);
          if book.None? then
            Some(s.(runner := Fail(u).(readers := u.readers[l := Ended]), faults := s.faults + {DuplicateRequest}))
          else
            Some(s.(runner := u.(book := book.value, readers := u.readers[l := Emitting(r.id)],
                                 serving := u.serving[l := r.id])))
      case Emit =>
        if !r.Emitting? then None
        else Some(s.(runner := u.(readers := u.readers[l := Idle]),
                     wires := s.wires.(stdout := s.wires.stdout + [Tool(r.id)], emitted := s.wires.emitted + [r.id],
                                       place := s.wires.place[r.id := Piped])))
      case End =>
        if !r.Idle? || u.childAlive then None else Some(s.(runner := u.(readers := u.readers[l := Ended])))
      case Crash =>
        if r.Ended? then None else Some(s.(runner := Fail(u).(readers := u.readers[l := Ended])))
  }

  datatype ResponderEvent = TakeReply | WriteResponse | UnlinkRequest | FreeLane | ResponderCrash

  function ResponderStep(s: State, e: ResponderEvent): Option<State> {
    var u := s.runner;
    var r := u.responder;
    match e
    case TakeReply =>
      if !r.Ready? || s.wires.stdin == [] then None
      else
        var id := s.wires.stdin[0];
        var wires := s.wires.(stdin := s.wires.stdin[1..]);
        var taken := u.book.TakeReply(id);
        if taken.None? then
          Some(s.(runner := Fail(u).(responder := Stopped), wires := wires, faults := s.faults + {UnknownResponse}))
        else
          Some(s.(runner := u.(book := taken.value.1, responder := Popped(id, taken.value.0)),
                  wires := wires.(place := s.wires.place[id := Delivered])))
    case WriteResponse =>
      if !r.Popped? then None
      else Some(s.(files := s.files.(response := s.files.response[r.lane := r.id]),
                   runner := u.(responder := Written(r.id, r.lane))))
    case UnlinkRequest =>
      if !r.Written? then None
      else Some(s.(files := s.files.(request := s.files.request - {r.lane}),
                   runner := u.(responder := Unlinked(r.id, r.lane))))
    case FreeLane =>
      if !r.Unlinked? then None
      else Some(s.(runner := u.(book := u.book.Free(r.lane), serving := u.serving - {r.lane}, responder := Ready)))
    case ResponderCrash =>
      if r.Stopped? then None else Some(s.(runner := Fail(u).(responder := Stopped)))
  }

  predicate AllEnded(readers: seq<Reader>) { forall l | 0 <= l < |readers| :: readers[l].Ended? }

  datatype MainEvent = ChildExit | Join | DrainDone | EmitExit | OutputCrash

  function MainStep(s: State, e: MainEvent): Option<State> {
    var u := s.runner;
    match e
    case ChildExit =>
      if !u.childAlive then None else Some(s.(runner := u.(childAlive := false)))
    case Join =>
      // `thread.join(timeout=1)` also returns when a reader thread has not ended in time.
      if u.childAlive || !u.main.Serving? then None
      else Some(s.(runner := u.(main := Draining, joinedCleanly := AllEnded(u.readers))))
    case DrainDone =>
      if !u.main.Draining? || (u.book.occupied != {} && !u.failed) then None
      else Some(s.(runner := u.(main := Leaving)))
    case EmitExit =>
      if !u.main.Leaving? then None
      else Some(s.(runner := u.(main := Gone), wires := s.wires.(stdout := s.wires.stdout + [Exit])))
    case OutputCrash =>
      // An output thread fails the run even after the script has ended.
      if u.main.Gone? then None else Some(s.(runner := u.(failed := true)))
  }

  // ---------------------------------------------------------------- e2b-relay.py

  /** The relay's bookkeeping: slots taken from its bounded semaphore, and its `pending` counter. */
  datatype RelayBook = RelayBook(taken: int, pending: int) {
    function TryAcquire(): Option<RelayBook> {
      if taken >= LANES then None else Some(RelayBook(taken + 1, pending))
    }

    function Count(): RelayBook { RelayBook(taken, pending + 1) }

    function Release(): RelayBook { RelayBook(taken - 1, pending) }

    function Uncount(): RelayBook { RelayBook(taken, pending - 1) }
  }

  datatype RelayReader = Listening | Acquired(id: Id) | Finished | Broken

  /** Who is inside the `writers` lock in `invoke`, and how far it got. */
  datatype Writer = Free | Released(id: Id) | Replied(id: Id)

  /**
   The relay. A callback that raises kills the runner and never answers: it keeps its slot if it is in
   `failed`, and only its count if its reply could not be sent and it is in `jammed`.
   */
  datatype Relay = Relay(
    reader: RelayReader, calling: set<Id>, writer: Writer, book: RelayBook,
    failed: set<Id>, jammed: set<Id>, killed: bool)

  datatype RelayEvent =
    | TakeTool | Submit | InvokeRelease(id: Id) | InvokeSend | InvokeDone | InvokeFail(id: Id) | SendFail | TakeExit | EndOfFrames

  function RelayStep(s: State, e: RelayEvent): Option<State> {
    var y := s.relay;
    var w := s.wires;
    if y.reader.Broken? || y.reader.Finished? then None
    else
      match e
      case TakeTool =>
        if !y.reader.Listening? || w.stdout == [] || !w.stdout[0].Tool? then None
        else
          var id := w.stdout[0].id;
          var book := y.book.TryAcquire();
          if book.None? then
            Some(s.(relay := y.(reader := Broken, killed := true), wires := w.(stdout := w.stdout[1..]), faults := s.faults + {TooManyCallbacks}))
          else
            Some(s.(relay := y.(reader := Acquired(id), book := book.value),
                    wires := w.(stdout := w.stdout[1..], place := w.place[id := Taken])))
      case Submit =>
        if !y.reader.Acquired? || !y.writer.Free? then None
        else Some(s.(relay := y.(reader := Listening, calling := y.calling + {y.reader.id}, book := y.book.Count()),
                     wires := w.(place := w.place[y.reader.id := Calling])))
      case InvokeRelease(id) =>
        if id !in y.calling || id in y.failed || !y.writer.Free? then None
        else Some(s.(relay := y.(calling := y.calling - {id}, writer := Released(id), book := y.book.Release()),
                     wires := w.(place := w.place[id := Answering])))
      case InvokeSend =>
        if !y.writer.Released? then None
        else Some(s.(relay := y.(writer := Replied(y.writer.id)),
                     wires := w.(stdin := w.stdin + [y.writer.id], place := w.place[y.writer.id := Returning])))
      case InvokeDone =>
        if !y.writer.Replied? then None
        else Some(s.(relay := y.(writer := Free, book := y.book.Uncount())))
      case InvokeFail(id) =>
        if id !in y.calling || id in y.failed then None else Some(s.(relay := y.(failed := y.failed + {id}, killed := true)))
      case SendFail =>
        if !y.writer.Released? then None
        else Some(s.(relay := y.(writer := Free, jammed := y.jammed + {y.writer.id}, killed := true)))
      case TakeExit =>
        if !y.reader.Listening? || w.stdout == [] || !w.stdout[0].Exit? || !y.writer.Free? then None
        else
          var wires := w.(stdout := w.stdout[1..]);
          if y.book.pending != 0 then
            Some(s.(relay := y.(reader := Broken, killed := true), wires := wires, faults := s.faults + {ActiveCallbacks}))
          else
            Some(s.(relay := y.(reader := Finished), wires := wires))
      case EndOfFrames =>
        // The reader first goes on with what the killed runner had written.
        if !y.reader.Listening? || !y.killed || w.stdout != [] then None
        else Some(s.(relay := y.(reader := Broken)))
  }

  // ---------------------------------------------------------------- the whole system

  datatype Event =
    | Sdk(c: Id, client: ClientEvent)
    | RequestThread(lane: nat, reader: ReaderEvent)
    | ResponseThread(responder: ResponderEvent)
    | MainThreadStep(main: MainEvent)
    | RelaySide(relay: RelayEvent)

  function Step(s: State, e: Event): Option<State> {
    match e
    case Sdk(c, k) =>
      var files := ClientStep(s.files, c, k);
      if files.None? then None else Some(s.(files := files.value))
    case RequestThread(l, r) => if s.relay.killed then None else ReaderStep(s, l, r)
    case ResponseThread(r) => if s.relay.killed then None else ResponderStep(s, r)
    case MainThreadStep(m) => if s.relay.killed then None else MainStep(s, m)
    case RelaySide(y) => RelayStep(s, y)
  }

  function Init(): State {
    State(Files(map[], map[], map[], map[], map[]),
          Runner(seq(LANES, _ => Idle), Ready, RunnerBook(map[], {}), map[], true, false, Serving, false),
          Relay(Listening, {}, Free, RelayBook(0, 0), {}, {}, false),
          Wires([], [], [], map[]), {})
  }

  /** The state after a whole run, or None when some event was not enabled. */
  function Run(events: seq<Event>): Option<State> {
    if events == [] then Some(Init())
    else
      var before := Run(events[..|events| - 1]);
      if before.None? then None else Step(before.value, events[|events| - 1])
  }
}
