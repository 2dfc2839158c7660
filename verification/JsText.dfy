/** JavaScript string operations the models share. */
module JsText {
  import opened Wrappers

  /** What `String.prototype.trim` strips. */
  const WHITE_SPACE: set<char> := {
    ' ', '\t', '\n', '\r', '\U{0B}', '\U{0C}', '\U{A0}', '\U{1680}', '\U{2000}', '\U{2001}', '\U{2002}', '\U{2003}',
    '\U{2004}', '\U{2005}', '\U{2006}', '\U{2007}', '\U{2008}', '\U{2009}', '\U{200A}', '\U{2028}', '\U{2029}',
    '\U{202F}', '\U{205F}', '\U{3000}', '\U{FEFF}'}

  /** `!s.trim()`. */
  predicate Blank(s: string) { forall i | 0 <= i < |s| :: s[i] in WHITE_SPACE }

  /** The same set by code points: the controls 9 to 13, the spaces, and the byte order mark. */
  lemma WhiteSpaceIs(c: char)
    ensures c in WHITE_SPACE <==>
      var n := c as int;
      || 9 <= n <= 13 || n == 0x20 || n == 0xA0 || n == 0x1680 || 0x2000 <= n <= 0x200A
      || n == 0x2028 || n == 0x2029 || n == 0x202F || n == 0x205F || n == 0x3000 || n == 0xFEFF
  {
  }

  predicate OccursAt(t: string, sep: string, i: nat) { i + |sep| <= |t| && t[i..i + |sep|] == sep }

  /** `indexOf`: the first occurrence at or after `from`. */
  function IndexOf(t: string, sep: string, from: nat): (r: Option<nat>)
    requires from <= |t|
    ensures r.Some? ==> from <= r.value && OccursAt(t, sep, r.value) && forall i | from <= i < r.value :: !OccursAt(t, sep, i)
    ensures r.None? ==> forall i: nat | from <= i :: !OccursAt(t, sep, i)
    decreases |t| - from
  {
    if OccursAt(t, sep, from) then Some(from)
    else if from == |t| then None
    else IndexOf(t, sep, from + 1)
  }

  /** `split` on a non-empty separator. */
  function Split(t: string, sep: string): (r: seq<string>)
    requires sep != ""
    ensures r != []
    decreases |t|
  {
    var i := IndexOf(t, sep, 0);
    if i.None? then [t] else [t[..i.value]] + Split(t[i.value + |sep|..], sep)
  }

  function Join(pieces: seq<string>, sep: string): string
    requires pieces != []
  {
    if |pieces| == 1 then pieces[0] else pieces[0] + sep + Join(pieces[1..], sep)
  }

  function Concat(parts: seq<string>): string {
    if parts == [] then "" else Concat(parts[..|parts| - 1]) + parts[|parts| - 1]
  }

  function Closed(pieces: seq<string>): seq<string> requires pieces != [] { pieces[..|pieces| - 1] }

  function Last(pieces: seq<string>): string requires pieces != [] { pieces[|pieces| - 1] }

  lemma OccursEarly(x: string, y: string, sep: string, i: nat)
    requires i + |sep| <= |x|
    ensures OccursAt(x + y, sep, i) <==> OccursAt(x, sep, i)
  {
  }

  lemma SplitFirst(t: string, sep: string, k: nat)
    requires sep != "" && IndexOf(t, sep, 0) == Some(k)
    ensures Split(t, sep) == [t[..k]] + Split(t[k + |sep|..], sep)
  {
    hide IndexOf, OccursAt;
  }

  lemma PushFront(h: string, s: seq<string>, y: seq<string>)
    requires s != []
    ensures Closed([h] + s) + y == [h] + (Closed(s) + y) && Last([h] + s) == Last(s)
  {
  }

  /** Text that is still open may be split later, together with what follows. */
  lemma {:induction false} SplitAgain(x: string, y: string, sep: string)
    requires sep != ""
    ensures Split(x + y, sep) == Closed(Split(x, sep)) + Split(Last(Split(x, sep)) + y, sep)
    decreases |x|
  {
    var i := IndexOf(x, sep, 0);
    if i.None? {
      assert Split(x, sep) == [x];
      assert Closed([x]) == [];
    } else {
      hide Split, IndexOf, Closed, Last;
      var k := i.value;
      var rest := x[k + |sep|..];
      FirstStays(x, y, sep);
      assert (x + y)[..k] == x[..k] && (x + y)[k + |sep|..] == rest + y;
      SplitFirst(x, sep, k);
      SplitFirst(x + y, sep, k);
      SplitAgain(rest, y, sep);
      PushFront(x[..k], Split(rest, sep), Split(Last(Split(rest, sep)) + y, sep));
    }
  }

  lemma FirstStays(x: string, y: string, sep: string)
    requires sep != "" && IndexOf(x, sep, 0).Some?
    ensures IndexOf(x + y, sep, 0) == IndexOf(x, sep, 0)
  {
    var k := IndexOf(x, sep, 0).value;
    OccursEarly(x, y, sep, k);
    forall i | 0 <= i < k ensures !OccursAt(x + y, sep, i) { OccursEarly(x, y, sep, i); }
  }

  /** Splitting loses nothing: joined again, the pieces are the text. */
  lemma {:induction false} JoinSplit(t: string, sep: string)
    requires sep != ""
    ensures Join(Split(t, sep), sep) == t
    decreases |t|
  {
    var i := IndexOf(t, sep, 0);
    if i.Some? {
      JoinSplit(t[i.value + |sep|..], sep);
      assert t == t[..i.value] + sep + t[i.value + |sep|..];
    }
  }

  /** No piece contains the separator. */
  lemma {:induction false} PiecesAreWhole(t: string, sep: string, k: nat, i: nat)
    requires sep != "" && k < |Split(t, sep)|
    ensures !OccursAt(Split(t, sep)[k], sep, i)
    decreases |t|
  {
    var at := IndexOf(t, sep, 0);
    if at.Some? {
      if k > 0 {
        PiecesAreWhole(t[at.value + |sep|..], sep, k - 1, i);
      } else if i + |sep| <= at.value {
        assert t == t[..at.value] + t[at.value..];
        OccursEarly(t[..at.value], t[at.value..], sep, i);
      }
    }
  }

  // ---------------------------------------------------------------- what a join contains

  predicate Contains(t: string, part: string) { exists i :: 0 <= i <= |t| && OccursAt(t, part, i) }

  lemma {:induction false} JoinContains(pieces: seq<string>, sep: string, k: nat) returns (i: nat)
    requires k < |pieces|
    ensures OccursAt(Join(pieces, sep), pieces[k], i)
  {
    if |pieces| == 1 {
      i := 0;
    } else if k == 0 {
      i := 0;
      assert Join(pieces, sep)[..|pieces[0]|] == pieces[0];
    } else {
      var rest := Join(pieces[1..], sep);
      var j := JoinContains(pieces[1..], sep, k - 1);
      i := |pieces[0]| + |sep| + j;
      assert Join(pieces, sep)[i..i + |pieces[k]|] == rest[j..j + |pieces[k]|];
    }
  }

  lemma OccursInside(t: string, inner: string, part: string, at: nat, i: nat)
    requires OccursAt(t, inner, at) && OccursAt(inner, part, i)
    ensures OccursAt(t, part, at + i)
  {
    assert inner == t[at..at + |inner|];
    forall j | 0 <= j < |part| ensures t[at + i + j] == part[j] {
      assert inner[i + j] == t[at + (i + j)] && inner[i..i + |part|][j] == part[j];
    }
    assert t[at + i..at + i + |part|] == part;
  }
}
