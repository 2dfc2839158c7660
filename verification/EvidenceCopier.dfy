/**
 `materializeSubagentContext` as it runs: one recursive `rebind` that updates its memo table, its
 visiting set and its byte count in place. It succeeds exactly on copyable graphs, and its result
 is the parent's text and graph rewritten under the memo table.
 */
module EvidenceCopier {
  import opened Wrappers
  import opened InheritedEvidence

  datatype Error = Stopped | CyclicOrTooLarge | Unavailable | OverBudget | CaptureFailed

  /** One `destination.capture` call: the artifact it preserves and the rewritten text. */
  datatype Captured = Captured(source: Id, text: Text)

  /** The mutable state of one materialization. `captured` is the child's store, `readLog` the `readFull` calls. */
  datatype Progress = Progress(
    table: map<Id, Replacement>, visiting: set<Id>, bytes: nat, captured: seq<Captured>, readLog: seq<Id>)

  ghost predicate TableIsFaithful(w: World, table: map<Id, Replacement>, captured: seq<Captured>) {
    && (forall k | 0 <= k < |captured| :: captured[k].source in table && table[captured[k].source] == Copied(w.freshId(k)))
    && (forall id | id in table :: id in w.source && Explained(w, id, table[id], captured))
  }

  ghost predicate Explained(w: World, id: Id, r: Replacement, captured: seq<Captured>)
    requires id in w.source
  {
    if w.source[id].internal then r == Omitted
    else exists k :: 0 <= k < |captured| && captured[k].source == id
  }

  ghost predicate CapturedIsImage(w: World, table: map<Id, Replacement>, captured: seq<Captured>) {
    forall k | 0 <= k < |captured| :: IsImageOf(w, table, captured[k])
  }

  ghost predicate IsImageOf(w: World, table: map<Id, Replacement>, c: Captured) {
    && c.source in w.source && !w.source[c.source].internal
    && Refs(Clean(w, w.source[c.source].text)) <= table.Keys
    && c.text == Image(Clean(w, w.source[c.source].text), table)
  }

  /** The chain of artifacts being opened. */
  ghost predicate PathInv(w: World, root: Text, path: seq<Id>, visiting: set<Id>) {
    (path == [] || IsPath(w, root, path)) && NoDup(path) && (forall x :: x in path <==> x in visiting)
  }

  /** The order in which artifacts were finished. */
  ghost predicate OrderInv(w: World, order: seq<Id>, done: set<Id>) {
    IsTopological(w, order) && (forall x :: x in order <==> x in done)
  }

  /** Every artifact touched so far is a reachable one, was read once, and fits the limits. */
  ghost predicate NodesInv(w: World, root: Text, maxBytes: nat, nodes: set<Id>, bytes: nat, readLog: seq<Id>) {
    && (forall id | id in nodes :: id in w.source && Reachable(w, root, id))
    && |nodes| <= MAX_NODES && bytes == TotalBytes(w, nodes) <= maxBytes
    && NoDup(readLog) && (forall x :: x in readLog <==> x in nodes)
  }

  ghost predicate NodesOk(w: World, root: Text, maxBytes: nat, p: Progress) {
    NodesInv(w, root, maxBytes, p.table.Keys + p.visiting, p.bytes, p.readLog)
  }

  ghost predicate ValidWith(w: World, root: Text, maxBytes: nat, p: Progress, path: seq<Id>, order: seq<Id>) {
    && PathInv(w, root, path, p.visiting)
    && OrderInv(w, order, p.table.Keys)
    && p.table.Keys !! p.visiting
    && NodesOk(w, root, maxBytes, p)
    && TableIsFaithful(w, p.table, p.captured)
    && CapturedIsImage(w, p.table, p.captured)
    && FreshTable(w, root, p.table)
  }

  /** The state between two steps of `rebind`, with `path` the chain of artifacts being opened. */
  ghost predicate Valid(w: World, root: Text, maxBytes: nat, p: Progress, path: seq<Id>) {
    exists order :: ValidWith(w, root, maxBytes, p, path, order)
  }

  /** `text` is what lies at the end of `path`. */
  ghost predicate TextAt(w: World, root: Text, path: seq<Id>, text: Text) {
    if path == [] then text == root
    else
      var last := path[|path| - 1];
      last in w.source && !w.source[last].internal && text == w.source[last].text
  }

  lemma ExtendPath(w: World, root: Text, path: seq<Id>, text: Text, id: Id)
    requires (path == [] || IsPath(w, root, path)) && TextAt(w, root, path, text) && id in Refs(Clean(w, text))
    ensures IsPath(w, root, path + [id]) && Reachable(w, root, id)
  {
  }

  lemma ReferenceIsReachable(w: World, root: Text, maxBytes: nat, p: Progress, path: seq<Id>, order: seq<Id>, text: Text, id: Id)
    requires ValidWith(w, root, maxBytes, p, path, order) && TextAt(w, root, path, text) && id in Refs(Clean(w, text))
    ensures Reachable(w, root, id)
    ensures |p.table.Keys + p.visiting| == |p.table| + |p.visiting|
    ensures id in w.source && !w.source[id].internal ==> TextAt(w, root, path + [id], w.source[id].text)
  {
    ExtendPath(w, root, path, text, id);
  }

  lemma TextIsMentioned(w: World, root: Text, path: seq<Id>, text: Text)
    requires TextAt(w, root, path, text)
    ensures Refs(Clean(w, text)) <= Mentioned(w, root)
  {
  }

  lemma VisitPath(w: World, root: Text, path: seq<Id>, visiting: set<Id>, text: Text, id: Id)
    requires PathInv(w, root, path, visiting) && TextAt(w, root, path, text)
    requires id in Refs(Clean(w, text)) && id !in visiting
    ensures PathInv(w, root, path + [id], visiting + {id}) && Reachable(w, root, id)
  {
  }

  lemma OneMoreNode(w: World, root: Text, maxBytes: nat, nodes: set<Id>, bytes: nat, readLog: seq<Id>, id: Id)
    requires NodesInv(w, root, maxBytes, nodes, bytes, readLog)
    requires id in w.source && id !in nodes && Reachable(w, root, id)
    requires |nodes| < MAX_NODES && bytes + w.source[id].bytes <= maxBytes
    ensures NodesInv(w, root, maxBytes, nodes + {id}, bytes + w.source[id].bytes, readLog + [id])
  {
    hide Reachable, TotalBytes;
    TotalBytesAdd(w, nodes, id);
  }

  ghost function Opening(w: World, p: Progress, id: Id): Progress
    requires id in w.source
  {
    p.(visiting := p.visiting + {id}, bytes := p.bytes + w.source[id].bytes, readLog := p.readLog + [id])
  }

  lemma VisitNode(w: World, root: Text, maxBytes: nat, p: Progress, id: Id)
    requires NodesOk(w, root, maxBytes, p)
    requires id in w.source && id !in p.table && id !in p.visiting && Reachable(w, root, id)
    requires |p.table.Keys + p.visiting| < MAX_NODES && p.bytes + w.source[id].bytes <= maxBytes
    ensures NodesOk(w, root, maxBytes, Opening(w, p, id))
  {
    hide NodesInv, Reachable;
    OneMoreNode(w, root, maxBytes, p.table.Keys + p.visiting, p.bytes, p.readLog, id);
    assert p.table.Keys + Opening(w, p, id).visiting == (p.table.Keys + p.visiting) + {id};
  }

  /** Opening one more artifact keeps the state valid, one step deeper. */
  lemma Visit(w: World, root: Text, maxBytes: nat, p: Progress, path: seq<Id>, text: Text, id: Id)
    requires Valid(w, root, maxBytes, p, path) && TextAt(w, root, path, text)
    requires id in Refs(Clean(w, text)) && id in w.source && id !in p.table && id !in p.visiting
    requires |p.table.Keys + p.visiting| < MAX_NODES && p.bytes + w.source[id].bytes <= maxBytes
    ensures Valid(w, root, maxBytes, Opening(w, p, id), path + [id])
  {
    hide NodesOk, OrderInv, TableIsFaithful, CapturedIsImage, FreshTable, TextAt, PathInv;
    var order :| ValidWith(w, root, maxBytes, p, path, order);
    VisitPath(w, root, path, p.visiting, text, id);
    VisitNode(w, root, maxBytes, p, id);
    DeeperIsValidWith(w, root, maxBytes, p, Opening(w, p, id), path, path + [id], order);
  }

  lemma DeeperIsValidWith(w: World, root: Text, maxBytes: nat, p: Progress, q: Progress, path: seq<Id>, deeper: seq<Id>, order: seq<Id>)
    requires ValidWith(w, root, maxBytes, p, path, order)
    requires PathInv(w, root, deeper, q.visiting)
    requires NodesOk(w, root, maxBytes, q)
    requires q.table == p.table && q.captured == p.captured && q.table.Keys !! q.visiting
    ensures ValidWith(w, root, maxBytes, q, deeper, order)
  {
  }

  lemma FinishPath(w: World, root: Text, path: seq<Id>, visiting: set<Id>, id: Id)
    requires PathInv(w, root, path + [id], visiting)
    ensures PathInv(w, root, path, visiting - {id}) && id in visiting
  {
    var longer := path + [id];
    assert longer[|path|] == id;
    assert forall i | 0 <= i < |path| :: longer[i] == path[i];
    assert forall x :: x in longer <==> x in path || x == id;
    if path != [] {
      assert forall i | 0 <= i < |path| - 1 :: longer[i + 1] in Deps(w, longer[i]);
    }
  }

  lemma FinishOrder(w: World, order: seq<Id>, done: set<Id>, id: Id)
    requires OrderInv(w, order, done) && id !in done && Deps(w, id) <= done
    ensures OrderInv(w, order + [id], done + {id})
  {
    var longer := order + [id];
    forall i, x | 0 <= i < |longer| && x in Deps(w, longer[i]) ensures x in longer[..i] {
      assert longer[..i] == order[..i];
    }
  }

  /** What finishing an artifact may add: nothing for an internal one, else its image under the table. */
  ghost predicate IsFinish(w: World, p: Progress, id: Id, r: Replacement, added: seq<Captured>) {
    && id in w.source && Deps(w, id) <= p.table.Keys
    && if w.source[id].internal then r == Omitted && added == []
       else
         && r == Copied(w.freshId(|p.captured|))
         && added == [Captured(id, Image(Clean(w, w.source[id].text), p.table))]
  }

  lemma FinishTable(w: World, p: Progress, id: Id, r: Replacement, added: seq<Captured>)
    requires TableIsFaithful(w, p.table, p.captured) && id !in p.table && IsFinish(w, p, id, r, added)
    ensures TableIsFaithful(w, p.table[id := r], p.captured + added)
  {
  }

  lemma FinishImages(w: World, p: Progress, id: Id, r: Replacement, added: seq<Captured>)
    requires CapturedIsImage(w, p.table, p.captured) && id !in p.table && IsFinish(w, p, id, r, added)
    ensures CapturedIsImage(w, p.table[id := r], p.captured + added)
  {
  }

  ghost function Closing(p: Progress, id: Id, r: Replacement, added: seq<Captured>): Progress {
    p.(table := p.table[id := r], visiting := p.visiting - {id}, captured := p.captured + added)
  }

  lemma FinishWith(w: World, root: Text, maxBytes: nat, p: Progress, path: seq<Id>, order: seq<Id>, id: Id, r: Replacement, added: seq<Captured>)
    requires ValidWith(w, root, maxBytes, p, path + [id], order) && IsFinish(w, p, id, r, added) && FreshIds(w, root)
    ensures ValidWith(w, root, maxBytes, Closing(p, id, r, added), path, order + [id])
  {
    hide NodesInv, OrderInv, TableIsFaithful, CapturedIsImage, PathInv;
    FinishPath(w, root, path, p.visiting, id);
    FinishOrder(w, order, p.table.Keys, id);
    FinishTable(w, p, id, r, added);
    FinishImages(w, p, id, r, added);
    FinishNodes(p, id, r);
  }

  /** Finishing the artifact on top of the path: its references are all in the table. */
  lemma Finish(w: World, root: Text, maxBytes: nat, p: Progress, path: seq<Id>, id: Id, r: Replacement, added: seq<Captured>)
    requires Valid(w, root, maxBytes, p, path + [id]) && IsFinish(w, p, id, r, added) && FreshIds(w, root)
    ensures Valid(w, root, maxBytes, Closing(p, id, r, added), path)
  {
    var order :| ValidWith(w, root, maxBytes, p, path + [id], order);
    FinishWith(w, root, maxBytes, p, path, order, id, r, added);
  }

  lemma FinishNodes(p: Progress, id: Id, r: Replacement)
    requires id in p.visiting
    ensures p.table[id := r].Keys == p.table.Keys + {id}
    ensures p.table[id := r].Keys + (p.visiting - {id}) == p.table.Keys + p.visiting
  {
  }

  // ---------------------------------------------------------------- failures prove the graph is not copyable

  lemma CycleIsNotCopyable(w: World, root: Text, maxBytes: nat, path: seq<Id>, visiting: set<Id>, text: Text, id: Id)
    requires PathInv(w, root, path, visiting) && TextAt(w, root, path, text)
    requires id in Refs(Clean(w, text)) && id in visiting
    ensures !Copyable(w, root, maxBytes)
  {
    ExtendPath(w, root, path, text, id);
    var i :| 0 <= i < |path| && path[i] == id;
    var longer := path + [id];
    assert longer[i] == longer[|path|];
  }

  lemma CopyableBounds(w: World, root: Text, maxBytes: nat, ids: set<Id>)
    requires Copyable(w, root, maxBytes) && forall id | id in ids :: Reachable(w, root, id)
    ensures |ids| <= MAX_NODES && TotalBytes(w, ids) <= maxBytes
  {
  }

  lemma OverLimitIsNotCopyable(w: World, root: Text, maxBytes: nat, p: Progress, path: seq<Id>, order: seq<Id>, id: Id)
    requires ValidWith(w, root, maxBytes, p, path, order) && id !in p.table && id !in p.visiting && Reachable(w, root, id)
    requires |p.table.Keys + p.visiting| >= MAX_NODES || p.bytes + Weight(w, id) > maxBytes
    ensures !Copyable(w, root, maxBytes)
  {
    var nodes := p.table.Keys + p.visiting;
    TotalBytesAdd(w, nodes, id);
    if Copyable(w, root, maxBytes) {
      CopyableBounds(w, root, maxBytes, nodes + {id});
    }
  }

  /** The four checks of `rebind` before it opens `id`; each refusal proves the graph is not copyable. */
  function Refusal(w: World, maxBytes: nat, p: Progress, id: Id): Option<Error> {
    if id in p.visiting || |p.table| + |p.visiting| >= MAX_NODES then Some(CyclicOrTooLarge)
    else if id !in w.source then Some(Unavailable)
    else if p.bytes + w.source[id].bytes > maxBytes then Some(OverBudget)
    else None
  }

  lemma RefusalIsJustified(w: World, root: Text, maxBytes: nat, p: Progress, path: seq<Id>, text: Text, id: Id)
    requires Valid(w, root, maxBytes, p, path) && TextAt(w, root, path, text)
    requires id in Refs(Clean(w, text)) && id !in p.table
    ensures Refusal(w, maxBytes, p, id).Some? ==> !Copyable(w, root, maxBytes)
    ensures Refusal(w, maxBytes, p, id).None? ==>
              && |p.table.Keys + p.visiting| < MAX_NODES
              && (w.source[id].internal || TextAt(w, root, path + [id], w.source[id].text))
  {
    var order :| ValidWith(w, root, maxBytes, p, path, order);
    ReferenceIsReachable(w, root, maxBytes, p, path, order, text, id);
    if id in p.visiting {
      CycleIsNotCopyable(w, root, maxBytes, path, p.visiting, text, id);
    } else if Refusal(w, maxBytes, p, id).Some? && id in w.source {
      OverLimitIsNotCopyable(w, root, maxBytes, p, path, order, id);
    }
  }

  // ---------------------------------------------------------------- the recursive rewrite

  /** Nothing already copied is touched again. */
  ghost predicate Extends(before: Progress, after: Progress) {
    && (forall id | id in before.table :: id in after.table && after.table[id] == before.table[id])
    && after.visiting == before.visiting
  }

  /** Opening an artifact, working below it and closing it again touches nothing copied before. */
  lemma RoundExtends(w: World, before: Progress, mid: Progress, id: Id, r: Replacement, added: seq<Captured>)
    requires id in w.source && id !in before.table && id !in before.visiting
    requires Extends(Opening(w, before, id), mid)
    ensures Extends(before, Closing(mid, id, r, added)) && id in Closing(mid, id, r, added).table
  {
  }

  ghost function Restrict(table: map<Id, Replacement>, ids: seq<Id>): map<Id, Replacement> {
    map id | id in table && id in ids :: table[id]
  }

  /** How many more artifacts may still be opened: what makes the recursion end. */
  ghost function Remaining(nodes: set<Id>): nat {
    if |nodes| >= MAX_NODES then 0 else MAX_NODES - |nodes|
  }

  lemma RemainingShrinks(before: Progress, after: Progress)
    requires Extends(before, after)
    ensures Remaining(after.table.Keys + after.visiting) <= Remaining(before.table.Keys + before.visiting)
  {
    var m, n := before.table.Keys + before.visiting, after.table.Keys + after.visiting;
    assert n == m + (n - m);
  }

  lemma OneFewerRemains(nodes: set<Id>, id: Id)
    requires id !in nodes && |nodes| < MAX_NODES
    ensures Remaining(nodes + {id}) < Remaining(nodes)
  {
  }

  lemma RemainingDrops(w: World, p: Progress, id: Id)
    requires id in w.source && id !in p.table && id !in p.visiting && |p.table.Keys + p.visiting| < MAX_NODES
    ensures Remaining(p.table.Keys + Opening(w, p, id).visiting) < Remaining(p.table.Keys + p.visiting)
  {
    hide Remaining;
    OneFewerRemains(p.table.Keys + p.visiting, id);
    assert p.table.Keys + Opening(w, p, id).visiting == (p.table.Keys + p.visiting) + {id};
  }

  /** Either the refusal is justified, or opening the artifact goes one step deeper in a valid state. */
  lemma OpeningIsValid(w: World, root: Text, maxBytes: nat, p: Progress, path: seq<Id>, text: Text, id: Id)
    requires Valid(w, root, maxBytes, p, path) && TextAt(w, root, path, text)
    requires id in Refs(Clean(w, text)) && id !in p.table
    ensures Refusal(w, maxBytes, p, id).Some? ==> !Copyable(w, root, maxBytes)
    ensures Refusal(w, maxBytes, p, id).None? ==>
              && (w.source[id].internal || TextAt(w, root, path + [id], w.source[id].text))
              && Valid(w, root, maxBytes, Opening(w, p, id), path + [id])
              && Remaining(p.table.Keys + Opening(w, p, id).visiting) < Remaining(p.table.Keys + p.visiting)
  {
    hide Valid, TextAt, Copyable, Refs, Clean, Remaining;
    RefusalIsJustified(w, root, maxBytes, p, path, text, id);
    if Refusal(w, maxBytes, p, id).None? {
      Visit(w, root, maxBytes, p, path, text, id);
      RemainingDrops(w, p, id);
    }
  }

  lemma NothingReplaced(t: Text, table: map<Id, Replacement>)
    ensures Image(t, Restrict(table, [])) == t
  {
  }

  lemma AllReplaced(t: Text, table: map<Id, Replacement>, ids: seq<Id>)
    requires (forall x | x in ids :: x in table) && ids == DistinctIds(t)
    ensures Refs(t) <= table.Keys && Image(t, Restrict(table, ids)) == Image(t, table)
  {
  }

  ghost predicate AllIn(ids: seq<Id>, table: map<Id, Replacement>) { forall x | x in ids :: x in table }

  /** The table grew while id number `i` was resolved; what was replaced before is unaffected. */
  lemma ReplaceNext(w: World, root: Text, maxBytes: nat, path: seq<Id>, text: Text, before: Progress, p: Progress, ids: seq<Id>, i: nat)
    requires Valid(w, root, maxBytes, p, path) && TextAt(w, root, path, text) && Extends(before, p)
    requires ids == DistinctIds(Clean(w, text)) && i < |ids| && ids[i] in p.table && AllIn(ids[..i], before.table)
    ensures AllIn(ids[..i + 1], p.table)
    ensures ReplaceAll(Image(Clean(w, text), Restrict(before.table, ids[..i])), ids[i], p.table[ids[i]])
         == Image(Clean(w, text), Restrict(p.table, ids[..i + 1]))
  {
    assert ids[i] in ids;
    TextIsMentioned(w, root, path, text);
    ReplaceRestricted(w, root, Clean(w, text), before.table, p.table, ids, i);
  }

  lemma ReplaceRestricted(w: World, root: Text, t: Text, before: map<Id, Replacement>, table: map<Id, Replacement>, ids: seq<Id>, i: nat)
    requires Refs(t) <= Mentioned(w, root) && FreshTable(w, root, table)
    requires i < |ids| && NoDup(ids) && ids[i] in Refs(t) && ids[i] in table
    requires AllIn(ids[..i], before) && forall x | x in before :: x in table && table[x] == before[x]
    ensures AllIn(ids[..i + 1], table)
    ensures ReplaceAll(Image(t, Restrict(before, ids[..i])), ids[i], table[ids[i]]) == Image(t, Restrict(table, ids[..i + 1]))
  {
    var seen := Restrict(before, ids[..i]);
    ReplaceOneMore(w, root, t, seen, ids[i], table[ids[i]]);
    assert ids[..i + 1] == ids[..i] + [ids[i]];
    assert seen[ids[i] := table[ids[i]]] == Restrict(table, ids[..i + 1]);
  }

  class Copier {
    const w: World
    const maxBytes: nat
    const stopped: nat -> bool
    const captureOk: nat -> bool
    var table: map<Id, Replacement>
    var visiting: set<Id>
    var bytes: nat
    var captured: seq<Captured>
    var readLog: seq<Id>
    var polls: nat

    /** Nobody has stopped the copying when asked, and the child's store has taken every capture. */
    ghost predicate Unhindered()
      reads this
    {
      (forall n | 0 <= n < polls :: !stopped(n)) && (forall k | 0 <= k < |captured| :: captureOk(k))
    }

    /** One poll for every artifact read, two more for every capture. */
    ghost function Work(): nat reads this { |readLog| + 2 * |captured| }

    ghost function Now(): Progress reads this { Progress(table, visiting, bytes, captured, readLog) }

    constructor (w: World, maxBytes: nat, stopped: nat -> bool, captureOk: nat -> bool)
      ensures this.w == w && this.maxBytes == maxBytes && this.stopped == stopped && this.captureOk == captureOk
      ensures Now() == Progress(map[], {}, 0, [], []) && polls == 0 && Unhindered()
    {
      this.w, this.maxBytes, this.stopped, this.captureOk := w, maxBytes, stopped, captureOk;
      table, visiting, bytes, captured, readLog, polls := map[], {}, 0, [], [], 0;
    }

    /** `stopped()`, which may answer differently each time it is asked. */
    method Poll() returns (stop: bool)
      modifies this`polls
      ensures stop ==> exists n :: stopped(n)
      ensures polls == old(polls) + 1 && (old(Unhindered()) && !stop ==> Unhindered())
    {
      stop := stopped(polls);
      polls := polls + 1;
    }

    /** A failure is an external one, or the graph is not copyable. */
    ghost predicate Justified(root: Text, e: Error) {
      match e
      case Stopped => exists n :: stopped(n)
      case CaptureFailed => exists n :: !captureOk(n)
      case _ => !Copyable(w, root, maxBytes)
    }

    /** The checks before an artifact is opened: no cycle, node cap, readable, byte budget. */
    method Check(id: Id) returns (failure: Option<Error>)
      ensures failure == Refusal(w, maxBytes, Now(), id)
    {
      if id in visiting || |table| + |visiting| >= MAX_NODES { return Some(CyclicOrTooLarge); }
      if id !in w.source { return Some(Unavailable); }
      if bytes + w.source[id].bytes > maxBytes { return Some(OverBudget); }
      return None;
    }

    method Open(id: Id)
      requires id in w.source
      modifies this`visiting, this`bytes, this`readLog
      ensures Now() == Opening(w, old(Now()), id)
    {
      visiting, bytes, readLog := visiting + {id}, bytes + w.source[id].bytes, readLog + [id];
    }

    /** The artifact on top of the path is done: it moves from `visiting` to the table. */
    method Close(id: Id, r: Replacement, preserved: seq<Captured>)
      modifies this`visiting, this`table, this`captured
      ensures Now() == Closing(old(Now()), id, r, preserved)
    {
      visiting, table, captured := visiting - {id}, table[id := r], captured + preserved;
    }

    /** Rewrites an opened artifact and preserves the result in the child's store. */
    method Preserve(ghost root: Text, ghost path: seq<Id>, id: Id) returns (r: Result<(Replacement, seq<Captured>), Error>)
      requires FreshIds(w, root) && Valid(w, root, maxBytes, Now(), path) && id in w.source
      requires w.source[id].internal || TextAt(w, root, path, w.source[id].text)
      requires Unhindered()
      modifies this
      ensures r.Ok? ==> Unhindered() && polls - old(polls) >= Work() - old(Work()) + 2 * |r.value.1|
      ensures r.Ok? && r.value.1 != [] ==> |r.value.1| == 1 && captureOk(|captured|)
      ensures r.Err? ==> Justified(root, r.error)
      ensures r.Ok? ==> Valid(w, root, maxBytes, Now(), path) && Extends(old(Now()), Now())
      ensures r.Ok? ==> IsFinish(w, Now(), id, r.value.0, r.value.1)
      decreases Remaining(table.Keys + visiting), 4
    {
      hide Valid, TextAt, Copyable, FreshIds, Image, Refs, Clean, Remaining;
      if w.source[id].internal { return Ok((Omitted, [])); }
      var inherited := Rebind(root, w.source[id].text, path);
      if inherited.Err? { return Err(inherited.error); }
      var stop := Poll();
      if stop { return Err(Stopped); }
      if !captureOk(|captured|) { return Err(CaptureFailed); }
      r := Ok((Copied(w.freshId(|captured|)), [Captured(id, inherited.value)]));
    }

    /** Opens, rewrites and preserves one artifact that is not in the table yet. */
    method Inherit(ghost root: Text, ghost text: Text, ghost path: seq<Id>, id: Id) returns (failure: Option<Error>)
      requires FreshIds(w, root) && Valid(w, root, maxBytes, Now(), path) && TextAt(w, root, path, text)
      requires id in Refs(Clean(w, text)) && id !in table && Unhindered()
      modifies this
      ensures failure.None? ==> Unhindered() && polls - old(polls) >= Work() - old(Work()) - 1
      ensures failure.Some? ==> Justified(root, failure.value)
      ensures failure.None? ==> Valid(w, root, maxBytes, Now(), path) && Extends(old(Now()), Now()) && id in table
      decreases Remaining(table.Keys + visiting), 1
    {
      hide Valid, TextAt, Copyable, FreshIds, Refs, Clean, Remaining, IsFinish, Extends;
      failure := Check(id);
      OpeningIsValid(w, root, maxBytes, Now(), path, text, id);
      if failure.None? { failure := Adopt(root, path, id); }
    }

    /** An artifact that passed the checks is opened, rewritten and closed again. */
    method Adopt(ghost root: Text, ghost path: seq<Id>, id: Id) returns (failure: Option<Error>)
      requires FreshIds(w, root) && Unhindered() && id in w.source && id !in table && id !in visiting
      requires w.source[id].internal || TextAt(w, root, path + [id], w.source[id].text)
      requires Valid(w, root, maxBytes, Opening(w, Now(), id), path + [id])
      requires Remaining(table.Keys + Opening(w, Now(), id).visiting) < Remaining(table.Keys + visiting)
      modifies this
      ensures failure.None? ==> Unhindered() && polls - old(polls) >= Work() - old(Work()) - 1
      ensures failure.Some? ==> Justified(root, failure.value)
      ensures failure.None? ==> Valid(w, root, maxBytes, Now(), path) && Extends(old(Now()), Now()) && id in table
      decreases Remaining(table.Keys + visiting), 0
    {
      hide Valid, TextAt, Copyable, FreshIds, Remaining, IsFinish, Extends;
      Open(id);
      var done := Preserve(root, path + [id], id);
      if done.Err? { return Some(done.error); }
      Finish(w, root, maxBytes, Now(), path, id, done.value.0, done.value.1);
      RoundExtends(w, old(Now()), Now(), id, done.value.0, done.value.1);
      Close(id, done.value.0, done.value.1);
      failure := None;
    }

    method Resolve(ghost root: Text, ghost text: Text, ghost path: seq<Id>, id: Id) returns (failure: Option<Error>)
      requires FreshIds(w, root) && Valid(w, root, maxBytes, Now(), path) && TextAt(w, root, path, text)
      requires id in Refs(Clean(w, text)) && Unhindered()
      modifies this
      ensures failure.None? ==> Unhindered() && polls - old(polls) >= Work() - old(Work()) - 1
      ensures failure.Some? ==> Justified(root, failure.value)
      ensures failure.None? ==> Valid(w, root, maxBytes, Now(), path) && Extends(old(Now()), Now()) && id in table
      decreases Remaining(table.Keys + visiting), 2
    {
      failure := None;
      if id !in table { failure := Inherit(root, text, path, id); }
    }

    /** `rebind`: every artifact id in the cleaned text is replaced by its copy's id. */
    method Rebind(ghost root: Text, text: Text, ghost path: seq<Id>) returns (r: Result<Text, Error>)
      requires FreshIds(w, root) && Valid(w, root, maxBytes, Now(), path) && TextAt(w, root, path, text) && Unhindered()
      modifies this
      ensures r.Err? ==> Justified(root, r.error)
      ensures r.Ok? ==> Unhindered() && polls - old(polls) >= 1 + Work() - old(Work())
      ensures r.Ok? ==>
                && Valid(w, root, maxBytes, Now(), path) && Extends(old(Now()), Now())
                && Refs(Clean(w, text)) <= table.Keys && r.value == Image(Clean(w, text), table)
      decreases Remaining(table.Keys + visiting), 3
    {
      hide Valid, TextAt, Copyable, FreshIds, Clean, Image, Refs, Remaining, FreshTable, ReplaceAll;
      var stop := Poll();
      if stop { return Err(Stopped); }
      var output := Clean(w, text);
      var ids := DistinctIds(output);
      NothingReplaced(output, table);
      for i := 0 to |ids|
        invariant Valid(w, root, maxBytes, Now(), path) && Extends(old(Now()), Now())
        invariant Unhindered() && polls - old(polls) >= 1 + Work() - old(Work())
        invariant AllIn(ids[..i], table) && output == Image(Clean(w, text), Restrict(table, ids[..i]))
      {
        stop := Poll();
        if stop { return Err(Stopped); }
        RemainingShrinks(old(Now()), Now());
        ghost var before := Now();
        var failure := Resolve(root, text, path, ids[i]);
        if failure.Some? { return Err(failure.value); }
        ReplaceNext(w, root, maxBytes, path, text, before, Now(), ids, i);
        output := ReplaceAll(output, ids[i], table[ids[i]]);
      }
      AllReplaced(Clean(w, text), table, ids[..|ids|]);
      r := Ok(output);
    }
  }

  // ---------------------------------------------------------------- the whole call

  /** What a successful call leaves: the child's text, the memo table, the child's store, the parent's reads. */
  datatype Materialized = Materialized(
    text: Text, table: map<Id, Replacement>, captured: seq<Captured>, readLog: seq<Id>)

  ghost predicate CopiesGraph(w: World, root: Text, m: Materialized) {
    && (forall id :: id in m.table <==> Reachable(w, root, id))
    && (forall id | id in m.table :: id in w.source && Explained(w, id, m.table[id], m.captured))
    && (forall k | 0 <= k < |m.captured| ::
          IsImageOf(w, m.table, m.captured[k]) && m.captured[k].source in m.table
          && m.table[m.captured[k].source] == Copied(w.freshId(k)))
    && m.text == Image(Clean(w, root), m.table)
  }

  ghost predicate CopiesOnce(m: Materialized) {
    && NoDup(m.readLog) && (forall id :: id in m.readLog <==> id in m.table)
    && (forall j, k | 0 <= j < k < |m.captured| :: m.captured[j].source != m.captured[k].source)
  }

  /** The token that stands for artifact `id`: a marker for an internal one, else the id of its copy. */
  ghost predicate CopiesId(w: World, captured: seq<Captured>, id: Id, glued: bool, copy: Token) {
    id in w.source &&
    if w.source[id].internal then copy == Plain("[parent runtime capability omitted]")
    else exists k :: 0 <= k < |captured| && captured[k].source == id && copy == if glued then Glued(w.freshId(k)) else Ref(w.freshId(k))
  }

  /** Token by token: plain text stays, resume tickets never do, ids become those of the copies. */
  ghost predicate CopiesText(w: World, captured: seq<Captured>, sanitized: Text, copy: Text) {
    && |copy| == |sanitized|
    && (forall i | 0 <= i < |copy| :: !copy[i].Ticket?)
    && (forall i | 0 <= i < |copy| ::
          match sanitized[i]
          case Plain(_) => copy[i] == sanitized[i]
          case Ticket(_, _) => copy[i] == Plain("[parent subagent handle omitted]")
          case Ref(id) => CopiesId(w, captured, id, false, copy[i])
          case Glued(id) => if Ref(id) in sanitized then CopiesId(w, captured, id, true, copy[i]) else copy[i] == sanitized[i])
  }

  ghost predicate CopiesCaptured(w: World, captured: seq<Captured>, c: Captured) {
    c.source in w.source && CopiesText(w, captured, w.sanitize(w.source[c.source].text), c.text)
  }

  /** The child's text and each of its captures are the sanitized originals, rewritten token by token. */
  ghost predicate CopiesTokens(w: World, root: Text, m: Materialized) {
    && CopiesText(w, m.captured, w.sanitize(root), m.text)
    && (forall k | 0 <= k < |m.captured| :: CopiesCaptured(w, m.captured, m.captured[k]))
  }

  lemma CleanIs(w: World, t: Text)
    ensures var sanitized, clean := w.sanitize(t), Clean(w, t);
      && |clean| == |sanitized|
      && (forall i | 0 <= i < |clean| :: clean[i] == if sanitized[i].Ticket? then Plain("[parent subagent handle omitted]") else sanitized[i])
      && (forall id :: id in Refs(clean) <==> Ref(id) in sanitized)
  {
    var sanitized, clean := w.sanitize(t), Clean(w, t);
    forall id ensures id in Refs(clean) <==> Ref(id) in sanitized {
      if id in Refs(clean) {
        var i :| 0 <= i < |clean| && clean[i] == Ref(id);
        assert sanitized[i] == Ref(id);
      }
      if Ref(id) in sanitized {
        var i :| 0 <= i < |sanitized| && sanitized[i] == Ref(id);
        assert clean[i] == Ref(id);
      }
    }
  }

  /** An id that the text refers to is replaced by what stands for its artifact. */
  lemma ReplacedIsCopy(w: World, root: Text, m: Materialized, was: Token, id: Id)
    requires CopiesGraph(w, root, m) && id in m.table && (was == Ref(id) || was == Glued(id))
    ensures CopiesId(w, m.captured, id, was.Glued?, Put(was, m.table[id]))
  {
    assert Explained(w, id, m.table[id], m.captured);
  }

  lemma ImageCopiesText(w: World, root: Text, m: Materialized, t: Text)
    requires CopiesGraph(w, root, m) && Refs(Clean(w, t)) <= m.table.Keys
    ensures CopiesText(w, m.captured, w.sanitize(t), Image(Clean(w, t), m.table))
  {
    hide Clean, Refs, CopiesGraph, CopiesId, Put;
    CleanIs(w, t);
    var sanitized, clean := w.sanitize(t), Clean(w, t);
    forall i | 0 <= i < |clean| && (clean[i].Ref? || clean[i].Glued?) && clean[i].id in Refs(clean)
      ensures CopiesId(w, m.captured, clean[i].id, clean[i].Glued?, Put(clean[i], m.table[clean[i].id])) && !Put(clean[i], m.table[clean[i].id]).Ticket?
    {
      ReplacedIsCopy(w, root, m, clean[i], clean[i].id);
      PutIsNoTicket(clean[i], m.table[clean[i].id]);
    }
  }

  lemma PutIsNoTicket(was: Token, r: Replacement)
    ensures !Put(was, r).Ticket?
  {
  }

  lemma GraphCopiesTokens(w: World, root: Text, m: Materialized)
    requires CopiesGraph(w, root, m) && Refs(Clean(w, root)) <= m.table.Keys
    ensures CopiesTokens(w, root, m)
  {
    hide CopiesText;
    ImageCopiesText(w, root, m, root);
    forall k | 0 <= k < |m.captured| ensures CopiesCaptured(w, m.captured, m.captured[k]) {
      assert IsImageOf(w, m.table, m.captured[k]);
      ImageCopiesText(w, root, m, w.source[m.captured[k].source].text);
    }
  }

  ghost predicate LeaksNothing(w: World, root: Text, m: Materialized) {
    && KeepsOnlyGlued(w, root, Clean(w, root), m.text)
    && (forall k | 0 <= k < |m.captured| :: CopyLeaksNothing(w, root, m.captured[k]))
  }

  ghost predicate CopyLeaksNothing(w: World, root: Text, c: Captured) {
    c.source in w.source && KeepsOnlyGlued(w, root, Clean(w, w.source[c.source].text), c.text)
  }

  lemma FinishedCopiesGraph(w: World, root: Text, maxBytes: nat, p: Progress, order: seq<Id>, m: Materialized)
    requires ValidWith(w, root, maxBytes, p, [], order) && Refs(Clean(w, root)) <= p.table.Keys
    requires m == Materialized(Image(Clean(w, root), p.table), p.table, p.captured, p.readLog)
    ensures Copyable(w, root, maxBytes) && CopiesGraph(w, root, m)
  {
    assert p.visiting == {};
    assert p.table.Keys + p.visiting == p.table.Keys;
    CompleteOrderIsCopyable(w, root, order, p.table.Keys, maxBytes);
  }

  lemma FinishedCopiesOnce(w: World, root: Text, maxBytes: nat, p: Progress, order: seq<Id>, m: Materialized)
    requires FreshIds(w, root) && ValidWith(w, root, maxBytes, p, [], order)
    requires m.readLog == p.readLog && m.table == p.table && m.captured == p.captured
    ensures CopiesOnce(m)
  {
  }

  lemma GraphLeaksNothing(w: World, root: Text, m: Materialized)
    requires CopiesGraph(w, root, m) && FreshTable(w, root, m.table) && Refs(Clean(w, root)) <= m.table.Keys
    ensures LeaksNothing(w, root, m)
  {
    ImageKeepsOnlyGlued(w, root, Clean(w, root), m.table);
    forall k | 0 <= k < |m.captured| ensures CopyLeaksNothing(w, root, m.captured[k]) {
      assert IsImageOf(w, m.table, m.captured[k]);
      ImageKeepsOnlyGlued(w, root, Clean(w, w.source[m.captured[k].source].text), m.table);
    }
  }

  lemma FinishedIsFaithful(w: World, root: Text, maxBytes: nat, p: Progress, m: Materialized)
    requires FreshIds(w, root) && Valid(w, root, maxBytes, p, []) && Refs(Clean(w, root)) <= p.table.Keys
    requires m == Materialized(Image(Clean(w, root), p.table), p.table, p.captured, p.readLog)
    ensures Copyable(w, root, maxBytes) && CopiesGraph(w, root, m) && CopiesOnce(m) && LeaksNothing(w, root, m) && CopiesTokens(w, root, m)
  {
    var order :| ValidWith(w, root, maxBytes, p, [], order);
    FinishedCopiesGraph(w, root, maxBytes, p, order, m);
    FinishedCopiesOnce(w, root, maxBytes, p, order, m);
    GraphLeaksNothing(w, root, m);
    GraphCopiesTokens(w, root, m);
  }

  lemma EmptyIsValid(w: World, root: Text, maxBytes: nat)
    ensures Valid(w, root, maxBytes, Progress(map[], {}, 0, [], []), [])
  {
    var table: map<Id, Replacement> := map[];
    assert table.Keys + {} == {};
    assert ValidWith(w, root, maxBytes, Progress(map[], {}, 0, [], []), [], []);
  }

  /**
   `materializeSubagentContext`: unless it is stopped or the child's store refuses, it succeeds
   exactly on copyable graphs, and then the child holds the rewritten text and exactly one rewritten
   copy of each reachable artifact, with none of the parent's ids left in any of them but glued ones.
   */
  method Materialize(w: World, root: Text, maxBytes: nat, stopped: nat -> bool, captureOk: nat -> bool)
    returns (r: Result<Materialized, Error>)
    requires FreshIds(w, root)
    ensures (forall n :: !stopped(n)) && (forall n :: captureOk(n)) ==> (r.Ok? <==> Copyable(w, root, maxBytes))
    ensures r.Ok? ==> Copyable(w, root, maxBytes)
    ensures r.Ok? ==> forall n | 0 <= n < 1 + |r.value.readLog| + 2 * |r.value.captured| :: !stopped(n)
    ensures r.Ok? ==> forall k | 0 <= k < |r.value.captured| :: captureOk(k)
    ensures r.Ok? ==> CopiesGraph(w, root, r.value) && CopiesOnce(r.value) && LeaksNothing(w, root, r.value) && CopiesTokens(w, root, r.value)
  {
    hide Valid, Copyable, CopiesGraph, CopiesOnce, LeaksNothing, CopiesTokens, FreshIds, Image, Refs, Clean;
    var copier := new Copier(w, maxBytes, stopped, captureOk);
    EmptyIsValid(w, root, maxBytes);
    var text := copier.Rebind(root, root, []);
    if text.Err? { return Err(text.error); }
    r := Ok(Materialized(text.value, copier.table, copier.captured, copier.readLog));
    FinishedIsFaithful(w, root, maxBytes, copier.Now(), r.value);
  }
}
