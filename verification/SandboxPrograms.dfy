/** The imperative parts of the sandbox programs: shared bookkeeping objects and the file transfer loop. */
module SandboxPrograms {
  import opened Wrappers
  import opened SandboxMailbox
  import opened SandboxMailboxProofs
  import opened SandboxMailboxTheorems

  /** Different calls wait in different occupied lanes. */
  ghost predicate LanesOk(b: RunnerBook) {
    && (forall x | x in b.pending :: b.pending[x] in b.occupied)
    && (forall x, y | x in b.pending && y in b.pending && x != y :: b.pending[x] != b.pending[y])
    && (forall l | l in b.occupied :: l < LANES)
  }

  ghost predicate Unused(b: RunnerBook, l: nat) { forall x | x in b.pending :: b.pending[x] != l }

  /** What the methods of `LaneTable` do to the book, each within its precondition. */
  ghost predicate LaneMove(b: RunnerBook, c: RunnerBook) {
    || c == b
    || (exists x: Id, l: nat :: l < LANES && l !in b.occupied && b.Accept(x, l) == Some(c))
    || (exists x: Id :: b.TakeReply(x).Some? && b.TakeReply(x).value.1 == c)
    || (exists l: nat :: l in b.occupied && Unused(b, l) && c == b.Free(l))
  }

  lemma ReaderMovesLanes(s: State, l: nat, e: ReaderEvent)
    requires Inv(s) && ReaderStep(s, l, e).Some?
    ensures LaneMove(s.runner.book, ReaderStep(s, l, e).value.runner.book)
  {
    if e.Accept? {
      var x := s.runner.readers[l].id;
      assert ReaderAt(l, s.runner.readers[l], s.files, s.runner.book, s.runner.serving, s.wires.place);
      if x !in s.runner.book.pending { assert s.runner.book.Accept(x, l).Some?; }
    }
  }

  lemma ResponderMovesLanes(s: State, e: ResponderEvent)
    requires Inv(s) && ResponderStep(s, e).Some?
    ensures LaneMove(s.runner.book, ResponderStep(s, e).value.runner.book)
  {
    var b, r := s.runner.book, s.runner.responder;
    match e {
      case TakeReply => assert b.TakeReply(s.wires.stdin[0]).Some? ==> LaneMove(b, b.TakeReply(s.wires.stdin[0]).value.1);
      case FreeLane => assert Unused(b, r.lane);
      case _ =>
    }
  }

  /** In every run the runner's table moves as `LaneTable` does, and no method is ever called outside its precondition. */
  lemma RunnerMovesAsLaneTable(events: seq<Event>, e: Event)
    requires Run(events).Some? && Step(Run(events).value, e).Some?
    ensures var b, c := Run(events).value.runner.book, Step(Run(events).value, e).value.runner.book; LanesOk(b) && LaneMove(b, c)
  {
    hide Inv, LaneMove, ReaderStep, ResponderStep, Run, LANES;
    RunInv(events);
    var s := Run(events).value;
    LanesAreOk(s);
    match e {
      case RequestThread(l, r) => ReaderMovesLanes(s, l, r);
      case ResponseThread(r) => ResponderMovesLanes(s, r);
      case _ => BookStandsStill(s, e);
    }
  }

  lemma LanesAreOk(s: State)
    requires Inv(s)
    ensures LanesOk(s.runner.book)
  {
    hide FileInv, LockInv, WireInv, ExitInv, FaultInv, LANES;
  }

  lemma BookStandsStill(s: State, e: Event)
    requires Step(s, e).Some? && !e.RequestThread? && !e.ResponseThread?
    ensures LaneMove(s.runner.book, Step(s, e).value.runner.book)
  {
    hide LANES;
  }

  /** The relay's counters and what they stand for: a frame just read, callbacks with a slot, callbacks without. */
  datatype Slots = Slots(book: RelayBook, acquired: bool, calling: nat, answering: nat)

  ghost function SlotsOf(y: Relay): Slots {
    Slots(y.book, y.reader.Acquired?, |y.calling|, |y.jammed| + if y.writer.Free? then 0 else 1)
  }

  ghost predicate SlotsOk(v: Slots) {
    v.book.taken == v.calling + (if v.acquired then 1 else 0) <= LANES && v.book.pending == v.calling + v.answering
  }

  /** What the methods of `CallbackSlots` do, each within its precondition. */
  ghost predicate SlotMove(v: Slots, w: Slots) {
    || w == v
    || (!v.acquired && v.book.TryAcquire().Some? && w == v.(book := v.book.TryAcquire().value, acquired := true))
    || (v.acquired && w == v.(book := v.book.Count(), acquired := false, calling := v.calling + 1))
    || (v.calling > 0 && w == v.(book := v.book.Release(), calling := v.calling - 1, answering := v.answering + 1))
    || (v.answering > 0 && w == v.(book := v.book.Uncount(), answering := v.answering - 1))
  }

  lemma SubmitMovesSlots(s: State)
    requires CallInv(s.relay, s.wires.place) && RelayStep(s, Submit).Some?
    ensures SlotMove(SlotsOf(s.relay), SlotsOf(RelayStep(s, Submit).value.relay))
  {
    assert s.relay.reader.id !in s.relay.calling;
  }

  lemma ReleaseMovesSlots(s: State, id: Id)
    requires RelayStep(s, InvokeRelease(id)).Some?
    ensures SlotMove(SlotsOf(s.relay), SlotsOf(RelayStep(s, InvokeRelease(id)).value.relay))
  {
    assert |s.relay.calling - {id}| == |s.relay.calling| - 1;
  }

  lemma JammedMovesSlots(s: State)
    requires CallInv(s.relay, s.wires.place) && RelayStep(s, SendFail).Some?
    ensures SlotMove(SlotsOf(s.relay), SlotsOf(RelayStep(s, SendFail).value.relay))
  {
    assert s.relay.writer.id !in s.relay.jammed;
  }

  lemma RelayMovesSlots(s: State, e: RelayEvent)
    requires CallInv(s.relay, s.wires.place) && RelayStep(s, e).Some?
    ensures SlotMove(SlotsOf(s.relay), SlotsOf(RelayStep(s, e).value.relay))
  {
    if e.Submit? {
      SubmitMovesSlots(s);
    } else if e.InvokeRelease? {
      ReleaseMovesSlots(s, e.id);
    } else if e.SendFail? {
      JammedMovesSlots(s);
    } else {
      hide CallInv, LANES;
    }
  }

  /** In every run the relay's counters move as `CallbackSlots` does, and no method is ever called outside its precondition. */
  lemma RelayMovesAsCallbackSlots(events: seq<Event>, e: Event)
    requires Run(events).Some? && Step(Run(events).value, e).Some?
    ensures var y, z := Run(events).value.relay, Step(Run(events).value, e).value.relay;
      SlotsOk(SlotsOf(y)) && SlotMove(SlotsOf(y), SlotsOf(z))
  {
    hide SlotMove, Inv, Run, RelayStep, Step;
    RunInv(events);
    SlotsAreDistinctOccupiedLanes(events);
    var s := Run(events).value;
    CallsAreKnown(s);
    if e.RelaySide? { RelaySteps(s, e.relay); RelayMovesSlots(s, e.relay); } else { SlotsStandStill(s, e); }
  }

  lemma RelaySteps(s: State, e: RelayEvent)
    ensures Step(s, RelaySide(e)) == RelayStep(s, e)
  {
  }

  /** The counters are those of the calls. */
  lemma CallsAreKnown(s: State)
    requires Inv(s)
    ensures CallInv(s.relay, s.wires.place) && CountInv(s.relay)
  {
  }

  lemma SlotsStandStill(s: State, e: Event)
    requires Step(s, e).Some? && !e.RelaySide?
    ensures SlotMove(SlotsOf(s.relay), SlotsOf(Step(s, e).value.relay))
  {
  }

  /** `pending` and `occupied` in the runner's `main`; each method is one section under `pending_lock`. */
  class LaneTable {
    var pending: map<Id, nat>
    var occupied: set<nat>

    ghost function Book(): RunnerBook reads this { RunnerBook(pending, occupied) }

    ghost predicate Valid()
      reads this
    {
      LanesOk(Book())
    }

    constructor ()
      ensures Valid() && Book() == Init().runner.book
    {
      pending, occupied := map[], {};
    }

    /** Lane `index`'s own reader thread, which saw the lane free, records a request; false is the duplicate-request error. */
    method Accept(callId: Id, index: nat) returns (ok: bool)
      requires Valid() && index < LANES && index !in occupied
      modifies this
      ensures Valid() && |pending| <= LANES
      ensures ok <==> callId !in old(pending)
      ensures Book() == if ok then old(Book()).Accept(callId, index).value else old(Book())
    {
      ok := callId !in pending;
      if ok {
        occupied := occupied + {index};
        pending := pending[callId := index];
      }
      InjectionBound(pending, LANES);
    }

    /** The responder pops the lane of a reply, which stays occupied and is no other call's; None is the unknown-response error. */
    method TakeReply(callId: Id) returns (index: Option<nat>)
      requires Valid()
      modifies this`pending
      ensures Valid() && (index.Some? <==> callId in old(pending))
      ensures index.Some? ==> index.value in occupied && callId !in pending && forall x | x in pending :: pending[x] != index.value
      ensures if index.Some? then old(Book()).TakeReply(callId) == Some((index.value, Book())) else Book() == old(Book())
    {
      if callId in pending {
        index := Some(pending[callId]);
        pending := pending - {callId};
      } else {
        index := None;
      }
    }

    /** The lane is free for its reader again. */
    method Free(index: nat)
      requires Valid() && index in occupied && Unused(Book(), index)
      modifies this`occupied
      ensures Valid() && Book() == old(Book()).Free(index) && index !in occupied
    {
      occupied := occupied - {index};
    }

    /** The drain's test: with no lane occupied, no call waits for a reply. */
    method IsDrained() returns (drained: bool)
      requires Valid()
      ensures drained ==> pending == map[]
      ensures drained <==> forall l | l < LANES :: l !in occupied
    {
      drained := occupied == {};
    }
  }

  /**
   The relay's semaphore and `pending` counter. `acquired`: the frame just read holds a slot and is
   not counted yet; `calling` callbacks hold a slot, `answering` ones have given theirs back.
   */
  class CallbackSlots {
    var taken: int
    var pending: int
    ghost var acquired: bool
    ghost var calling: nat
    ghost var answering: nat

    ghost function Book(): RelayBook reads this { RelayBook(taken, pending) }

    ghost predicate Valid()
      reads this
    {
      SlotsOk(Slots(Book(), acquired, calling, answering))
    }

    constructor ()
      ensures Valid() && Book() == Init().relay.book && !acquired && calling == 0 == answering
    {
      taken, pending, acquired, calling, answering := 0, 0, false, 0, 0;
    }

    /** Refused exactly when ten callbacks hold a slot. */
    method TryAcquire() returns (ok: bool)
      requires Valid() && !acquired
      modifies this`taken, this`acquired
      ensures Valid() && (ok <==> calling < LANES) && acquired == ok
      ensures Book() == if ok then old(Book()).TryAcquire().value else old(Book())
    {
      ok := taken < LANES;
      if ok { taken := taken + 1; }
      acquired := ok;
    }

    method Count()
      requires Valid() && acquired
      modifies this`pending, this`acquired, this`calling
      ensures Valid() && !acquired && calling == old(calling) + 1 && Book() == old(Book()).Count()
    {
      pending := pending + 1;
      acquired, calling := false, calling + 1;
    }

    /** The slot is free before the reply is sent, while the callback is still counted. */
    method Release()
      requires Valid() && calling > 0
      modifies this`taken, this`calling, this`answering
      ensures Valid() && calling == old(calling) - 1 && answering == old(answering) + 1 && Book() == old(Book()).Release()
    {
      taken := taken - 1;
      calling, answering := calling - 1, answering + 1;
    }

    method Uncount()
      requires Valid() && answering > 0
      modifies this`pending, this`answering
      ensures Valid() && answering == old(answering) - 1 && Book() == old(Book()).Uncount()
    {
      pending := pending - 1;
      answering := answering - 1;
    }

    /** The test at the exit frame: no callback is out, with or without a slot. */
    method IsQuiet() returns (quiet: bool)
      requires Valid()
      ensures quiet <==> calling == 0 && answering == 0
    {
      quiet := pending == 0;
    }
  }

  // ---------------------------------------------------------------- call_to_file

  /** One `result.read` reply: raised or malformed, or decoded data with its bookkeeping. */
  datatype Chunk = Bad | Chunk(data: seq<bv8>, nextOffset: int, done: bool)

  /** The data of the first `n` replies. */
  ghost function Received(replies: nat -> Chunk, n: nat): seq<bv8> {
    if n == 0 then []
    else Received(replies, n - 1) + (if replies(n - 1).Bad? then [] else replies(n - 1).data)
  }

  /** Reply `i` continues the transfer: some data, the right offset, and `done` exactly at the end. */
  ghost predicate Continues(replies: nat -> Chunk, i: nat, bytes: nat) {
    && !replies(i).Bad? && replies(i).data != []
    && replies(i).nextOffset == |Received(replies, i + 1)| <= bytes
    && (replies(i).done <==> |Received(replies, i + 1)| == bytes)
  }

  /** Replies 0..n-1 are a whole file of exactly `bytes` bytes. */
  ghost predicate IsTransfer(replies: nat -> Chunk, n: nat, bytes: nat) {
    n > 0 && (forall i | 0 <= i < n :: Continues(replies, i, bytes)) && |Received(replies, n)| == bytes
  }

  lemma {:induction false} ReceivedGrows(replies: nat -> Chunk, m: nat, n: nat, bytes: nat)
    requires m < n && forall i | m <= i < n :: Continues(replies, i, bytes)
    ensures |Received(replies, m)| < |Received(replies, n)|
  {
    assert Continues(replies, n - 1, bytes);
    if m < n - 1 { ReceivedGrows(replies, m, n - 1, bytes); }
  }

  /** In a whole file every reply brings data and says how much there is by then, and exactly the last one says it is done. */
  lemma TransferIs(replies: nat -> Chunk, n: nat, bytes: nat, i: nat)
    requires IsTransfer(replies, n, bytes) && i < n
    ensures !replies(i).Bad? && replies(i).data != [] && (replies(i).done <==> i == n - 1)
    ensures Received(replies, i + 1) == Received(replies, i) + replies(i).data
    ensures replies(i).nextOffset == |Received(replies, i + 1)| && |Received(replies, n)| == bytes
  {
    assert Continues(replies, i, bytes);
    if i < n - 1 { ReceivedGrows(replies, i + 1, n, bytes); }
  }

  /** A reply stream holds at most one whole file. */
  lemma TransferIsUnique(replies: nat -> Chunk, m: nat, n: nat, bytes: nat)
    requires IsTransfer(replies, m, bytes) && IsTransfer(replies, n, bytes)
    ensures m == n
  {
    if m < n { ReceivedGrows(replies, m, n, bytes); }
    if n < m { ReceivedGrows(replies, n, m, bytes); }
  }

  /**
   The chunk loop of `call_to_file`: it ends for every server, and it saves a file exactly when the
   replies are a whole file of the announced size and digest; the saved bytes are those replies' data.
   */
  method ReceiveFile(replies: nat -> Chunk, bytes: nat, sha256: nat, digest: seq<bv8> -> nat)
    returns (saved: Option<seq<bv8>>)
    ensures saved.Some? <==> exists n: nat :: IsTransfer(replies, n, bytes) && digest(Received(replies, n)) == sha256
    ensures saved.Some? ==> |saved.value| == bytes && digest(saved.value) == sha256
    ensures forall n: nat | saved.Some? && IsTransfer(replies, n, bytes) :: saved.value == Received(replies, n)
  {
    var offset, calls := 0, 0;
    var stream: seq<bv8> := [];
    while true
      invariant stream == Received(replies, calls) && offset == |stream| <= bytes
      invariant forall i | 0 <= i < calls :: Continues(replies, i, bytes) && !replies(i).done
      decreases bytes - offset
    {
      var chunk := replies(calls);
      assert forall n: nat | IsTransfer(replies, n, bytes) :: n > calls by {
        forall n: nat | IsTransfer(replies, n, bytes) ensures n > calls {
          assert Continues(replies, n - 1, bytes);
        }
      }
      if chunk.Bad? {
        assert !Continues(replies, calls, bytes);
        return None;
      }
      var next := offset + |chunk.data|;
      if chunk.data == [] || next > bytes || chunk.nextOffset != next || chunk.done != (next == bytes) {
        assert !Continues(replies, calls, bytes);
        return None;
      }
      stream, offset, calls := stream + chunk.data, next, calls + 1;
      assert Continues(replies, calls - 1, bytes);
      if chunk.done { break; }
    }
    assert IsTransfer(replies, calls, bytes);
    forall n: nat | IsTransfer(replies, n, bytes) ensures n == calls {
      TransferIsUnique(replies, n, calls, bytes);
    }
    saved := if digest(stream) == sha256 then Some(stream) else None;
  }
}
