/**
 Copying a parent's tool evidence into a child's own store (subagent-context.ts): the artifact
 graph, what a copyable graph is, and what a faithful copy is. Text is a sequence of tokens: plain
 text, an artifact id, an id glued to a word character, or a resume ticket (an id followed by `:n`).
 */
module InheritedEvidence {
  type Id = nat

  datatype Token = Plain(text: string) | Ref(id: Id) | Glued(id: Id) | Ticket(id: Id, index: nat)

  type Text = seq<Token>

  /** An artifact of the parent. `internal` is the `internal:` prefix of its tool name. */
  datatype Artifact = Artifact(text: Text, bytes: nat, internal: bool)

  /** The source store, the sanitizer, and the ids the child's store hands out, in order. */
  datatype World = World(source: map<Id, Artifact>, sanitize: Text -> Text, freshId: nat -> Id)

  const MAX_NODES: nat := 256

  /** What `\b` finds: a glued id is no reference. */
  function Refs(t: Text): (ids: set<Id>) {
    set i | 0 <= i < |t| && t[i].Ref? :: t[i].id
  }

  /** Resume tickets are capabilities: they become plain text. */
  function OmitTickets(t: Text): (r: Text)
    ensures |r| == |t| && Refs(r) == Refs(t)
  {
    var r := seq(|t|, i requires 0 <= i < |t| => if t[i].Ticket? then Plain("[parent subagent handle omitted]") else t[i]);
    assert forall i | 0 <= i < |t| :: r[i].Ref? <==> t[i].Ref?;
    r
  }

  function Clean(w: World, t: Text): Text { OmitTickets(w.sanitize(t)) }

  /** The artifacts an artifact's own text refers to; internal ones are never opened. */
  function Deps(w: World, id: Id): set<Id> {
    if id in w.source && !w.source[id].internal then Refs(Clean(w, w.source[id].text)) else {}
  }

  // ---------------------------------------------------------------- the graph

  ghost predicate IsPath(w: World, root: Text, p: seq<Id>) {
    && p != [] && p[0] in Refs(Clean(w, root))
    && forall i | 0 <= i < |p| - 1 :: p[i + 1] in Deps(w, p[i])
  }

  ghost predicate Reachable(w: World, root: Text, id: Id) {
    exists p :: IsPath(w, root, p) && p[|p| - 1] == id
  }

  ghost predicate NoDup(p: seq<Id>) {
    forall i, j | 0 <= i < j < |p| :: p[i] != p[j]
  }

  ghost function Weight(w: World, id: Id): nat { if id in w.source then w.source[id].bytes else 0 }

  ghost function TotalBytes(w: World, ids: set<Id>): nat {
    if ids == {} then 0
    else
      var x :| x in ids;
      Weight(w, x) + TotalBytes(w, ids - {x})
  }

  /**
   The graph below `root` can be inherited: everything is readable, no path meets itself, and no
   set of reachable artifacts is over the node cap or the byte budget.
   */
  ghost predicate Copyable(w: World, root: Text, maxBytes: nat) {
    && (forall id | Reachable(w, root, id) :: id in w.source)
    && (forall p | IsPath(w, root, p) :: NoDup(p))
    && (forall ids: set<Id> | (forall id | id in ids :: Reachable(w, root, id)) ::
          |ids| <= 256 && TotalBytes(w, ids) <= maxBytes)
  }

  // ---------------------------------------------------------------- rewriting

  datatype Replacement = Omitted | Copied(id: Id)

  /** The replacement stands where the id stood, glued or not. */
  function Put(was: Token, r: Replacement): Token {
    match r
    case Omitted => Plain("[parent runtime capability omitted]")
    case Copied(id) => if was.Glued? then Glued(id) else Ref(id)
  }

  predicate Names(token: Token, id: Id) { token == Ref(id) || token == Glued(id) }

  /** `text.replaceAll(id, replacement)`, which knows no word boundaries. */
  function ReplaceAll(t: Text, id: Id, r: Replacement): Text {
    seq(|t|, i requires 0 <= i < |t| => if Names(t[i], id) then Put(t[i], r) else t[i])
  }

  /** All the ids that `t` refers to and `table` knows, replaced at once. */
  function Image(t: Text, table: map<Id, Replacement>): Text {
    var ids := Refs(t);
    seq(|t|, i requires 0 <= i < |t| =>
      if (t[i].Ref? || t[i].Glued?) && t[i].id in ids && t[i].id in table then Put(t[i], table[t[i].id]) else t[i])
  }

  /** Every id the parent's material mentions. */
  ghost function Mentioned(w: World, root: Text): set<Id> {
    Refs(Clean(w, root)) + (set id, x | id in w.source && x in Refs(Clean(w, w.source[id].text)) :: x)
  }

  /** The child's store never hands out an id twice, nor one the parent's material mentions. */
  ghost predicate FreshIds(w: World, root: Text) {
    && (forall k :: w.freshId(k) !in Mentioned(w, root))
    && (forall j, k | j != k :: w.freshId(j) != w.freshId(k))
  }

  ghost predicate FreshTable(w: World, root: Text, table: map<Id, Replacement>) {
    forall id | id in table && table[id].Copied? :: table[id].id !in Mentioned(w, root)
  }

  /** The ids of `t` in order of first occurrence, each once. */
  function DistinctIds(t: Text): (ids: seq<Id>)
    ensures forall x :: x in ids <==> x in Refs(t)
    ensures NoDup(ids)
  {
    if t == [] then []
    else
      var n := |t| - 1;
      var before := DistinctIds(t[..n]);
      assert Refs(t) == Refs(t[..n]) + (if t[n].Ref? then {t[n].id} else {}) by {
        assert forall i | 0 <= i < n :: t[..n][i] == t[i];
      }
      if t[n].Ref? && t[n].id !in before then before + [t[n].id] else before
  }

  /**
   One more id replaced: the sequential `replaceAll` calls agree with replacing all ids at once,
   because no replacement ever introduces an id that is still to be replaced.
   */
  lemma ReplaceOneMore(w: World, root: Text, t: Text, table: map<Id, Replacement>, id: Id, r: Replacement)
    requires Refs(t) <= Mentioned(w, root) && FreshTable(w, root, table)
    requires id !in table && id in Refs(t)
    ensures ReplaceAll(Image(t, table), id, r) == Image(t, table[id := r])
  {
  }

  /**
   `copy` refers to none of the parent's artifacts; an id of the parent still stands in it exactly where
   it is glued to a word character and the same text nowhere refers to it properly.
   */
  ghost predicate KeepsOnlyGlued(w: World, root: Text, t: Text, copy: Text) {
    && |copy| == |t| && Refs(copy) !! Mentioned(w, root)
    && (forall i | 0 <= i < |t| && (t[i].Ref? || t[i].Glued?) :: copy[i] == t[i] <==> t[i].Glued? && t[i].id !in Refs(t))
    && (forall i | 0 <= i < |t| && copy[i].Glued? && copy[i].id in Mentioned(w, root) :: copy[i] == t[i])
  }

  lemma ImageKeepsOnlyGlued(w: World, root: Text, t: Text, table: map<Id, Replacement>)
    requires Refs(t) <= Mentioned(w, root) * table.Keys && FreshTable(w, root, table)
    ensures KeepsOnlyGlued(w, root, t, Image(t, table))
  {
    var image := Image(t, table);
    forall i | 0 <= i < |t| && image[i].Ref? ensures image[i].id !in Mentioned(w, root) {
      if t[i].Ref? { assert t[i].id in Refs(t); }
    }
  }

  /** So an id that only occurs glued is left in the copy as it is. */
  lemma GluedIdSurvives(table: map<Id, Replacement>, id: Id)
    ensures Image([Glued(id)], table) == [Glued(id)]
  {
    assert Refs([Glued(id)]) == {};
  }

  // ---------------------------------------------------------------- sums and paths

  lemma {:induction false} TotalBytesAdd(w: World, ids: set<Id>, x: Id)
    requires x !in ids
    ensures TotalBytes(w, ids + {x}) == TotalBytes(w, ids) + Weight(w, x)
    decreases |ids|
  {
    var all := ids + {x};
    var y :| y in all && TotalBytes(w, all) == Weight(w, y) + TotalBytes(w, all - {y});
    if y == x {
      assert all - {x} == ids;
    } else {
      assert all - {y} == (ids - {y}) + {x};
      TotalBytesAdd(w, ids - {y}, x);
      assert ids == (ids - {y}) + {y};
      TotalBytesAdd(w, ids - {y}, y);
    }
  }

  lemma {:induction false} TotalBytesMonotone(w: World, small: set<Id>, large: set<Id>)
    requires small <= large
    ensures |small| <= |large| && TotalBytes(w, small) <= TotalBytes(w, large)
    decreases |large - small|
  {
    if x :| x in large - small {
      TotalBytesMonotone(w, small, large - {x});
      TotalBytesAdd(w, large - {x}, x);
      assert large == (large - {x}) + {x};
    } else {
      assert small == large;
    }
  }

  /** `order` lists a set of artifacts so that each comes after everything it refers to. */
  ghost predicate IsTopological(w: World, order: seq<Id>) {
    NoDup(order) && forall i, x | 0 <= i < |order| && x in Deps(w, order[i]) :: x in order[..i]
  }

  /** A path from the root stays inside a complete topological order and walks it strictly backwards. */
  lemma {:induction false} PathWalksBack(w: World, root: Text, order: seq<Id>, p: seq<Id>, i: nat, j: nat) returns (a: nat, b: nat)
    requires IsTopological(w, order) && (forall x | x in Refs(Clean(w, root)) :: x in order)
    requires IsPath(w, root, p) && i <= j < |p|
    ensures a < |order| && b < |order| && order[a] == p[i] && order[b] == p[j]
    ensures b <= a && (i < j ==> b < a)
    decreases j
  {
    if j == 0 {
      a :| 0 <= a < |order| && order[a] == p[0];
      b := a;
    } else if i == j {
      var c, d := PathWalksBack(w, root, order, p, j - 1, j - 1);
      assert p[j - 1 + 1] in Deps(w, order[d]);
      a :| 0 <= a < d && order[..d][a] == p[j];
      b := a;
    } else {
      var c;
      a, c := PathWalksBack(w, root, order, p, i, j - 1);
      assert p[j - 1 + 1] in Deps(w, order[c]);
      b :| 0 <= b < c && order[..c][b] == p[j];
    }
  }

  /** A finished copy proves that the graph was copyable, and that exactly the reachable artifacts were copied. */
  lemma CompleteOrderIsCopyable(w: World, root: Text, order: seq<Id>, done: set<Id>, maxBytes: nat)
    requires IsTopological(w, order) && (forall x :: x in order <==> x in done)
    requires forall x | x in Refs(Clean(w, root)) :: x in order
    requires forall x | x in done :: x in w.source
    requires |done| <= MAX_NODES && TotalBytes(w, done) <= maxBytes
    ensures Copyable(w, root, maxBytes)
    ensures forall id | Reachable(w, root, id) :: id in done
  {
    forall id | Reachable(w, root, id) ensures id in done {
      var p :| IsPath(w, root, p) && p[|p| - 1] == id;
      var a, b := PathWalksBack(w, root, order, p, |p| - 1, |p| - 1);
    }
    forall p | IsPath(w, root, p) ensures NoDup(p) {
      forall i, j | 0 <= i < j < |p| ensures p[i] != p[j] {
        var a, b := PathWalksBack(w, root, order, p, i, j);
      }
    }
    forall ids: set<Id> | forall id | id in ids :: Reachable(w, root, id)
      ensures |ids| <= MAX_NODES && TotalBytes(w, ids) <= maxBytes
    {
      assert ids <= done;
      TotalBytesMonotone(w, ids, done);
    }
  }
}
