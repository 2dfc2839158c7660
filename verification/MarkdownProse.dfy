/**
 Masking the code in a generated page (emit.py): fenced blocks line by line, then code spans in
 place, so that the link profile is enforced on prose only.
 */
module MarkdownProse {
  import opened Wrappers

  const TICK: char := '`'

  function MaskChar(c: char): char { if c == '\n' then '\n' else ' ' }

  /** `_mask_span`. */
  function MaskSpan(t: string): string { seq(|t|, i requires 0 <= i < |t| => MaskChar(t[i])) }

  // ---------------------------------------------------------------- code spans: what they are

  /** A backtick string of exactly `n` backticks, neither preceded nor followed by one. */
  predicate IsRun(s: string, i: nat, n: nat) {
    && n > 0 && i + n <= |s| && (forall k | i <= k < i + n :: s[k] == TICK)
    && (i > 0 ==> s[i - 1] != TICK) && (i + n < |s| ==> s[i + n] != TICK)
  }

  /** `[start, end)` with its delimiters of `ticks` backticks. */
  datatype Span = Span(start: nat, end: nat, ticks: nat)

  /** A code span opens with a run and ends with the next run of the same length. */
  predicate IsCodeSpan(s: string, p: Span) {
    && p.start + 2 * p.ticks <= p.end <= |s|
    && IsRun(s, p.start, p.ticks) && IsRun(s, p.end - p.ticks, p.ticks)
    && forall j | p.start + p.ticks <= j < p.end - p.ticks :: !IsRun(s, j, p.ticks)
  }

  predicate Inside(spans: seq<Span>, i: nat) { exists k :: 0 <= k < |spans| && spans[k].start <= i < spans[k].end }

  // ---------------------------------------------------------------- code spans: how they are found

  /** `find` of a backtick. */
  function FirstTick(s: string, from: nat): (r: Option<nat>)
    requires from <= |s|
    ensures r.Some? ==> from <= r.value < |s| && s[r.value] == TICK && forall k | from <= k < r.value :: s[k] != TICK
    ensures r.None? ==> forall k | from <= k < |s| :: s[k] != TICK
    decreases |s| - from
  {
    if from == |s| then None else if s[from] == TICK then Some(from) else FirstTick(s, from + 1)
  }

  function RunEnd(s: string, i: nat): (e: nat)
    requires i <= |s|
    ensures i <= e <= |s| && (forall k | i <= k < e :: s[k] == TICK) && (e < |s| ==> s[e] != TICK)
    decreases |s| - i
  {
    if i < |s| && s[i] == TICK then RunEnd(s, i + 1) else i
  }

  /** The end of the next run of `n` backticks. */
  function CloseFrom(s: string, from: nat, n: nat): (r: Option<nat>)
    requires from <= |s|
    ensures r.Some? ==> from < r.value <= |s|
    decreases |s| - from
  {
    var c := FirstTick(s, from);
    if c.None? then None
    else
      var e := RunEnd(s, c.value);
      if e - c.value == n then Some(e) else CloseFrom(s, e, n)
  }

  /** Where the scan goes on after the run at `st`. */
  function Next(s: string, st: nat): (next: nat)
    requires st < |s| && s[st] == TICK
    ensures st < RunEnd(s, st) <= next <= |s|
  {
    var e := RunEnd(s, st);
    var close := CloseFrom(s, e, e - st);
    if close.Some? then close.value else e
  }

  /** The run at `st` opens a span. */
  predicate Opens(s: string, st: nat)
    requires st < |s| && s[st] == TICK
  {
    CloseFrom(s, RunEnd(s, st), RunEnd(s, st) - st).Some?
  }

  function SpanAt(s: string, st: nat): Span
    requires st < |s| && s[st] == TICK
  {
    Span(st, Next(s, st), RunEnd(s, st) - st)
  }

  /** The spans of `s` from `pos` on: an opener without a closer is skipped as a whole. */
  function Spans(s: string, pos: nat): seq<Span>
    requires pos <= |s|
    decreases |s| - pos
  {
    var start := FirstTick(s, pos);
    if start.None? then []
    else if Opens(s, start.value) then [SpanAt(s, start.value)] + Spans(s, Next(s, start.value))
    else Spans(s, Next(s, start.value))
  }

  /** Reading can go on at `pos`: it is not inside a run. */
  predicate Between(s: string, pos: nat) { pos <= |s| && (0 < pos < |s| ==> s[pos - 1] != TICK || s[pos] != TICK) }

  lemma RunIsRun(s: string, pos: nat, i: nat)
    requires Between(s, pos) && pos <= i < |s| && s[i] == TICK && forall k | pos <= k < i :: s[k] != TICK
    ensures IsRun(s, i, RunEnd(s, i) - i) && Between(s, RunEnd(s, i))
  {
  }

  lemma NoTickNoRun(s: string, j: nat, n: nat)
    requires j < |s| ==> s[j] != TICK
    ensures !IsRun(s, j, n)
  {
  }

  /** Two runs at the same place are the same. */
  lemma SameRun(s: string, i: nat, n: nat)
    requires IsRun(s, i, n)
    ensures RunEnd(s, i) == i + n
  {
  }

  lemma {:induction false} CloseIsNext(s: string, from: nat, n: nat)
    requires Between(s, from) && n > 0
    ensures var r := CloseFrom(s, from, n);
      if r.Some? then
        from + n <= r.value && IsRun(s, r.value - n, n) && Between(s, r.value) && forall j | from <= j < r.value - n :: !IsRun(s, j, n)
      else forall j: nat | from <= j :: !IsRun(s, j, n)
    decreases |s| - from
  {
    hide IsRun;
    var c := FirstTick(s, from);
    if c.None? {
      forall j: nat | from <= j ensures !IsRun(s, j, n) { NoTickNoRun(s, j, n); }
    } else {
      var e := RunEnd(s, c.value);
      RunIsRun(s, from, c.value);
      forall j: nat | from <= j < c.value ensures !IsRun(s, j, n) { NoTickNoRun(s, j, n); }
      if e - c.value != n {
        CloseIsNext(s, e, n);
        forall j: nat | c.value <= j < e ensures !IsRun(s, j, n) { NoRunWithin(s, c.value, n, j); }
      }
    }
  }

  lemma NoRunWithin(s: string, c: nat, n: nat, j: nat)
    requires c <= |s| && c <= j < RunEnd(s, c) && (j == c ==> RunEnd(s, c) - c != n)
    ensures !IsRun(s, j, n)
  {
  }

  lemma SpansUnfold(s: string, pos: nat, st: nat)
    requires pos <= |s| && FirstTick(s, pos) == Some(st)
    ensures Spans(s, pos) == if Opens(s, st) then [SpanAt(s, st)] + Spans(s, Next(s, st)) else Spans(s, Next(s, st))
  {
  }

  ghost predicate NoRunFrom(s: string, from: nat, n: nat) { forall j: nat | from <= j :: !IsRun(s, j, n) }

  lemma NextIsCodeSpan(s: string, st: nat)
    requires st < |s| && s[st] == TICK && IsRun(s, st, RunEnd(s, st) - st) && Between(s, RunEnd(s, st))
    ensures Between(s, Next(s, st))
    ensures if Opens(s, st) then IsCodeSpan(s, SpanAt(s, st)) else NoRunFrom(s, RunEnd(s, st), RunEnd(s, st) - st)
  {
    hide IsRun, CloseFrom, RunEnd, Between;
    var e := RunEnd(s, st);
    CloseIsNext(s, e, e - st);
  }

  /** What the scan from `pos` finds first, and where it goes on. */
  lemma SpansNext(s: string, pos: nat, st: nat)
    requires Between(s, pos) && FirstTick(s, pos) == Some(st)
    ensures Between(s, Next(s, st)) && IsRun(s, st, RunEnd(s, st) - st)
    ensures Spans(s, pos) == if Opens(s, st) then [SpanAt(s, st)] + Spans(s, Next(s, st)) else Spans(s, Next(s, st))
    ensures if Opens(s, st) then IsCodeSpan(s, SpanAt(s, st)) else NoRunFrom(s, RunEnd(s, st), RunEnd(s, st) - st)
  {
    hide IsRun, Spans, CloseFrom, IsCodeSpan, FirstTick, RunEnd, Next, Opens, SpanAt;
    RunIsRun(s, pos, st);
    SpansUnfold(s, pos, st);
    NextIsCodeSpan(s, st);
  }

  /** Every span found is a code span, and they come in order, from `pos` on. */
  lemma {:induction false} SpansAreCodeSpans(s: string, pos: nat)
    requires Between(s, pos)
    ensures forall k | 0 <= k < |Spans(s, pos)| :: IsCodeSpan(s, Spans(s, pos)[k]) && pos <= Spans(s, pos)[k].start
    ensures forall k, l | 0 <= k < l < |Spans(s, pos)| :: Spans(s, pos)[k].end <= Spans(s, pos)[l].start
    decreases |s| - pos
  {
    hide IsCodeSpan, IsRun, CloseFrom;
    if FirstTick(s, pos).Some? {
      var st := FirstTick(s, pos).value;
      SpansNext(s, pos, st);
      SpansAreCodeSpans(s, Next(s, st));
      hide Spans;
    }
  }

  lemma InsideFront(p: Span, rest: seq<Span>, i: nat)
    ensures Inside([p] + rest, i) <==> p.start <= i < p.end || Inside(rest, i)
  {
    assert ([p] + rest)[0] == p;
    if k :| 0 <= k < |rest| && rest[k].start <= i < rest[k].end { assert ([p] + rest)[k + 1] == rest[k]; }
  }

  lemma InsideBack(p: Span, done: seq<Span>, i: nat)
    ensures Inside(done + [p], i) <==> p.start <= i < p.end || Inside(done, i)
  {
    assert (done + [p])[|done|] == p;
    if k :| 0 <= k < |done| && done[k].start <= i < done[k].end { assert (done + [p])[k] == done[k]; }
  }

  /** A run outside every span has no later run of its length: it is plain text. */
  lemma {:induction false} OtherRunsAreUnmatched(s: string, pos: nat, i: nat, n: nat, j: nat)
    requires Between(s, pos) && pos <= i && IsRun(s, i, n) && !Inside(Spans(s, pos), i) && i < j
    ensures !IsRun(s, j, n)
    decreases |s| - pos
  {
    hide IsRun, Spans, Inside, CloseFrom;
    RunHasTick(s, i, n);
    var st := FirstTick(s, pos).value;
    var m, next := RunEnd(s, st) - st, Next(s, st);
    SpansNext(s, pos, st);
    if Opens(s, st) { InsideFront(SpanAt(s, st), Spans(s, next), i); }
    if i >= next {
      OtherRunsAreUnmatched(s, next, i, n, j);
    } else {
      if i != st { NoRunWithin(s, st, n, i); }
      SameRun(s, i, n);
      if j < st + m { NoRunWithin(s, st, n, j); }
    }
  }

  lemma RunHasTick(s: string, i: nat, n: nat)
    requires IsRun(s, i, n)
    ensures i < |s| && s[i] == TICK
  {
  }

  // ---------------------------------------------------------------- the in-place pass

  /** `s` with every span blanked, line breaks kept. */
  function Masked(s: string, spans: seq<Span>): string {
    seq(|s|, i requires 0 <= i < |s| => if Inside(spans, i) then MaskChar(s[i]) else s[i])
  }

  /** The state between two rounds: everything before `pos` is final, the rest untouched. */
  ghost predicate MaskedUpTo(source: string, chars: seq<char>, done: seq<Span>, pos: nat) {
    && Between(source, pos) && |chars| == |source| && done + Spans(source, pos) == Spans(source, 0)
    && (forall k | 0 <= k < |done| :: done[k].end <= pos)
    && (forall i | 0 <= i < pos :: chars[i] == if Inside(done, i) then MaskChar(source[i]) else source[i])
    && (forall i | pos <= i < |source| :: chars[i] == source[i])
  }

  lemma SkipRound(source: string, chars: seq<char>, done: seq<Span>, pos: nat, next: nat)
    requires MaskedUpTo(source, chars, done, pos) && pos <= next && Between(source, next) && Spans(source, pos) == Spans(source, next)
    ensures MaskedUpTo(source, chars, done, next)
  {
  }

  lemma Regroup(done: seq<Span>, p: Span, rest: seq<Span>)
    ensures done + ([p] + rest) == (done + [p]) + rest
  {
  }

  lemma MaskRound(source: string, chars: seq<char>, after: seq<char>, done: seq<Span>, pos: nat, p: Span)
    requires MaskedUpTo(source, chars, done, pos) && pos <= p.start <= p.end && Between(source, p.end)
    requires Spans(source, pos) == [p] + Spans(source, p.end) && |after| == |chars|
    requires forall i | 0 <= i < |chars| :: after[i] == if p.start <= i < p.end then MaskChar(source[i]) else chars[i]
    ensures MaskedUpTo(source, after, done + [p], p.end)
  {
    Regroup(done, p, Spans(source, p.end));
    hide Spans, Between;
    forall i | 0 <= i < p.end ensures after[i] == if Inside(done + [p], i) then MaskChar(source[i]) else source[i] {
      InsideBack(p, done, i);
      if i >= pos { NotInside(done, pos, i); }
    }
  }

  lemma NotInside(done: seq<Span>, pos: nat, i: nat)
    requires pos <= i && forall k | 0 <= k < |done| :: done[k].end <= pos
    ensures !Inside(done, i)
  {
  }

  lemma AllMasked(source: string, chars: seq<char>, done: seq<Span>, pos: nat)
    requires MaskedUpTo(source, chars, done, pos) && FirstTick(source, pos).None?
    ensures chars == Masked(source, Spans(source, 0))
  {
    assert Spans(source, pos) == [] && done == Spans(source, 0);
    assert forall i | pos <= i < |source| :: !Inside(done, i);
  }

  lemma Untouched(source: string, chars: seq<char>, done: seq<Span>, pos: nat)
    requires MaskedUpTo(source, chars, done, pos)
    ensures Between(source, pos) && |chars| == |source| && forall i | pos <= i < |source| :: chars[i] == source[i]
  {
  }

  /** What one round does to the characters: a span that opens at `st` is blanked. */
  ghost predicate IsRound(source: string, chars: seq<char>, after: seq<char>, st: nat)
    requires st < |source| && source[st] == TICK
  {
    |after| == |chars| && forall i | 0 <= i < |chars| ::
      after[i] == if Opens(source, st) && st <= i < Next(source, st) then MaskChar(chars[i]) else chars[i]
  }

  lemma RoundIsMasked(source: string, chars: seq<char>, after: seq<char>, done: seq<Span>, pos: nat, st: nat)
    requires MaskedUpTo(source, chars, done, pos) && FirstTick(source, pos) == Some(st) && IsRound(source, chars, after, st)
    ensures MaskedUpTo(source, after, if Opens(source, st) then done + [SpanAt(source, st)] else done, Next(source, st))
  {
    hide MaskedUpTo, Spans, CloseFrom, IsCodeSpan, IsRun, Between, NoRunFrom, Opens, Next, RunEnd;
    Untouched(source, chars, done, pos);
    SpansNext(source, pos, st);
    if Opens(source, st) {
      MaskRound(source, chars, after, done, pos, SpanAt(source, st));
    } else {
      assert after == chars;
      SkipRound(source, chars, done, pos, Next(source, st));
    }
  }

  method CountRun(source: string, start: nat) returns (end: nat)
    requires start <= |source|
    ensures end == RunEnd(source, start)
  {
    end := start;
    while end < |source| && source[end] == TICK
      invariant start <= end <= |source| && RunEnd(source, end) == RunEnd(source, start)
    {
      end := end + 1;
    }
  }

  /** The inner search for a closer; -1 where there is none. */
  method FindClose(source: string, from: nat, ticks: nat) returns (found: int)
    requires from <= |source|
    ensures found == (var r := CloseFrom(source, from, ticks); if r.Some? then r.value else -1)
  {
    var cursor := from;
    found := -1;
    while found < 0
      invariant cursor <= |source|
      invariant if found < 0 then CloseFrom(source, cursor, ticks) == CloseFrom(source, from, ticks)
                else CloseFrom(source, from, ticks) == Some(found)
      decreases |source| - cursor, if found < 0 then 1 else 0
    {
      var close := FirstTick(source, cursor);
      if close.None? { return -1; }
      var closeEnd := CountRun(source, close.value);
      if closeEnd - close.value == ticks {
        found := closeEnd;
      } else {
        cursor := closeEnd;
      }
    }
  }

  method Blank(chars: array<char>, start: nat, end: nat)
    requires start <= end <= chars.Length
    modifies chars
    ensures forall i | 0 <= i < chars.Length :: chars[i] == if start <= i < end then MaskChar(old(chars[i])) else old(chars[i])
  {
    for i := start to end
      invariant forall k | 0 <= k < chars.Length :: chars[k] == if start <= k < i then MaskChar(old(chars[k])) else old(chars[k])
    {
      if chars[i] != '\n' { chars[i] := ' '; }
    }
  }

  /** One round: the run at `start` opens a span, which is blanked, or is skipped. */
  method MaskNext(source: string, chars: array<char>, start: nat) returns (next: nat)
    requires start < |source| && source[start] == TICK && chars.Length == |source|
    modifies chars
    ensures next == Next(source, start) && IsRound(source, old(chars[..]), chars[..], start)
  {
    var openerEnd := CountRun(source, start);
    var found := FindClose(source, openerEnd, openerEnd - start);
    if found < 0 { return openerEnd; }
    Blank(chars, start, found);
    next := found;
  }

  /** The second half of `_markdown_prose`: the code spans of `source` are blanked in place. */
  method MaskCodeSpans(source: string) returns (result: string)
    ensures result == Masked(source, Spans(source, 0))
  {
    var chars := new char[|source|](i requires 0 <= i < |source| => source[i]);
    var pos := 0;
    ghost var done: seq<Span> := [];
    assert done + Spans(source, 0) == Spans(source, 0);
    while FirstTick(source, pos).Some?
      invariant pos <= |source| && MaskedUpTo(source, chars[..], done, pos)
      decreases |source| - pos
    {
      ghost var before := chars[..];
      var start := FirstTick(source, pos).value;
      var next := MaskNext(source, chars, start);
      RoundIsMasked(source, before, chars[..], done, pos, start);
      done := if Opens(source, start) then done + [SpanAt(source, start)] else done;
      pos := next;
    }
    AllMasked(source, chars[..], done, pos);
    result := chars[..];
  }

  // ---------------------------------------------------------------- lines and fences

  /** Where `str.splitlines` breaks a line; `\r\n` breaks once. */
  const LINE_BREAKS: set<char> := {'\n', '\r', '\U{0B}', '\U{0C}', '\U{1C}', '\U{1D}', '\U{1E}', '\U{85}', '\U{2028}', '\U{2029}'}

  function LineEnd(t: string, i: nat): (e: nat)
    requires i < |t|
    ensures i < e <= |t|
    decreases |t| - i
  {
    if t[i] == '\r' && i + 1 < |t| && t[i + 1] == '\n' then i + 2
    else if t[i] in LINE_BREAKS || i + 1 == |t| then i + 1
    else LineEnd(t, i + 1)
  }

  /** `splitlines(keepends=True)`. */
  function SplitLines(t: string): seq<string>
    decreases |t|
  {
    if t == "" then [] else [t[..LineEnd(t, 0)]] + SplitLines(t[LineEnd(t, 0)..])
  }

  function Concat(lines: seq<string>): string {
    if lines == [] then "" else lines[0] + Concat(lines[1..])
  }

  /** `rstrip("\r\n")`. */
  function StripBreak(line: string): string {
    if line != "" && (line[|line| - 1] == '\r' || line[|line| - 1] == '\n') then StripBreak(line[..|line| - 1]) else line
  }

  /** How many characters from `i` on are in `set`. */
  function Count(t: string, i: nat, chars: set<char>): (n: nat)
    requires i <= |t|
    ensures i + n <= |t|
    decreases |t| - i
  {
    if i < |t| && t[i] in chars then 1 + Count(t, i + 1, chars) else 0
  }

  datatype Fence = Fence(mark: char, length: nat)

  /** At most three spaces, then at least three equal fence characters. */
  function OpenFence(line: string): Option<Fence> {
    var raw := StripBreak(line);
    var k := Count(raw, 0, {' '});
    if k > 3 || k == |raw| || raw[k] !in {'`', '~'} || Count(raw, k, {raw[k]}) < 3 then None
    else Some(Fence(raw[k], Count(raw, k, {raw[k]})))
  }

  /** At most three spaces, then a run that starts with the fence character and is long enough, then blanks. */
  predicate Closes(line: string, f: Fence) {
    var raw := StripBreak(line);
    var k := Count(raw, 0, {' '});
    k <= 3 && k < |raw| && raw[k] == f.mark && Count(raw, k, {'`', '~'}) >= f.length &&
    var end := k + Count(raw, k, {'`', '~'});
    end + Count(raw, end, {' ', '\t'}) == |raw|
  }

  /** The open fence after the first `k` lines. */
  function FenceBefore(lines: seq<string>, k: nat): Option<Fence>
    requires k <= |lines|
  {
    if k == 0 then None
    else
      var before := FenceBefore(lines, k - 1);
      if before.None? then OpenFence(lines[k - 1])
      else if Closes(lines[k - 1], before.value) then None
      else before
  }

  predicate IsFenced(lines: seq<string>, k: nat)
    requires k < |lines|
  {
    FenceBefore(lines, k).Some? || OpenFence(lines[k]).Some?
  }

  function WithoutFences(lines: seq<string>): seq<string> {
    seq(|lines|, k requires 0 <= k < |lines| => if IsFenced(lines, k) then MaskSpan(lines[k]) else lines[k])
  }

  /** `_markdown_prose`. */
  function Prose(text: string): string {
    var source := Concat(WithoutFences(SplitLines(text)));
    Masked(source, Spans(source, 0))
  }

  /** Line `o` opened the block that line `k` is in: it opened outside any block, and no line between closed it. */
  ghost predicate OpenedAt(lines: seq<string>, o: nat, k: nat)
    requires k < |lines|
  {
    && o <= k && FenceBefore(lines, o).None? && OpenFence(lines[o]).Some?
    && forall j | o < j < k :: !Closes(lines[j], OpenFence(lines[o]).value)
  }

  lemma {:induction false} FenceHasOpener(lines: seq<string>, k: nat) returns (o: nat)
    requires k < |lines| && FenceBefore(lines, k).Some?
    ensures OpenedAt(lines, o, k) && o < k && FenceBefore(lines, k) == OpenFence(lines[o])
  {
    if FenceBefore(lines, k - 1).None? {
      o := k - 1;
    } else {
      o := FenceHasOpener(lines, k - 1);
    }
  }

  lemma {:induction false} OpenerFences(lines: seq<string>, o: nat, k: nat)
    requires k < |lines| && OpenedAt(lines, o, k) && o < k
    ensures FenceBefore(lines, k) == OpenFence(lines[o])
  {
    if o < k - 1 { OpenerFences(lines, o, k - 1); }
  }

  /** A line is masked exactly when it is in a fenced block, its delimiters included. */
  lemma FencedIffOpened(lines: seq<string>, k: nat)
    requires k < |lines|
    ensures IsFenced(lines, k) <==> exists o: nat :: OpenedAt(lines, o, k)
  {
    if FenceBefore(lines, k).Some? {
      var o := FenceHasOpener(lines, k);
    } else if OpenFence(lines[k]).Some? {
      assert OpenedAt(lines, k, k);
    }
    if o: nat :| OpenedAt(lines, o, k) {
      if o < k { OpenerFences(lines, o, k); }
    }
  }

  lemma NextLine(lines: seq<string>, k: nat)
    requires k < |lines|
    ensures |WithoutFences(lines)| == |lines|
    ensures WithoutFences(lines)[..k + 1] == WithoutFences(lines)[..k] + [if IsFenced(lines, k) then MaskSpan(lines[k]) else lines[k]]
  {
  }

  method MaskFences(lines: seq<string>) returns (out: seq<string>)
    ensures out == WithoutFences(lines)
  {
    out := [];
    var fence: Option<Fence> := None;
    for k := 0 to |lines|
      invariant fence == FenceBefore(lines, k) && out == WithoutFences(lines)[..k]
    {
      hide Closes, OpenFence, WithoutFences, MaskSpan;
      NextLine(lines, k);
      if fence.Some? {
        out := out + [MaskSpan(lines[k])];
        if Closes(lines[k], fence.value) { fence := None; }
      } else {
        fence := OpenFence(lines[k]);
        out := out + [if fence.Some? then MaskSpan(lines[k]) else lines[k]];
      }
    }
  }

  method MarkdownProse(text: string) returns (result: string)
    ensures result == Prose(text)
  {
    var lines := MaskFences(SplitLines(text));
    result := MaskCodeSpans(Concat(lines));
  }

  // ---------------------------------------------------------------- what masking never changes

  /** Same length, same line breaks, and every other character kept or blanked. */
  predicate SameShape(a: string, b: string) {
    |a| == |b| && forall i | 0 <= i < |a| :: b[i] == a[i] || b[i] == MaskChar(a[i])
  }

  lemma {:induction false} ConcatShape(lines: seq<string>, masked: seq<string>)
    requires |lines| == |masked| && forall k | 0 <= k < |lines| :: SameShape(lines[k], masked[k])
    ensures SameShape(Concat(lines), Concat(masked))
  {
    if lines != [] { ConcatShape(lines[1..], masked[1..]); }
  }

  lemma {:induction false} SplitLinesKeepsText(t: string)
    ensures Concat(SplitLines(t)) == t
    decreases |t|
  {
    if t != "" {
      SplitLinesKeepsText(t[LineEnd(t, 0)..]);
    }
  }

  /** Every position keeps its meaning: a link found in the prose is at the same offset and line of the page. */
  lemma ProseKeepsShape(text: string)
    ensures |Prose(text)| == |text|
    ensures forall i | 0 <= i < |text| :: Prose(text)[i] == text[i] || Prose(text)[i] == ' '
    ensures forall i | 0 <= i < |text| :: Prose(text)[i] == '\n' <==> text[i] == '\n'
  {
    var lines := SplitLines(text);
    var source := Concat(WithoutFences(lines));
    SplitLinesKeepsText(text);
    ConcatShape(lines, WithoutFences(lines));
    assert SameShape(source, Masked(source, Spans(source, 0)));
  }

  // ---------------------------------------------------------------- character by character

  /** Blanking turns every character but a line feed into a space. */
  lemma BlankedIs(t: string, i: nat)
    requires i < |t|
    ensures |MaskSpan(t)| == |t| && MaskSpan(t)[i] == if t[i] == '\n' then '\n' else ' '
  {
  }

  /** A line of the prose: blanked in a fenced block, else as it was. */
  lemma LineIs(lines: seq<string>, k: nat)
    requires k < |lines|
    ensures |WithoutFences(lines)| == |lines|
    ensures WithoutFences(lines)[k] == if exists o: nat :: OpenedAt(lines, o, k) then MaskSpan(lines[k]) else lines[k]
  {
    FencedIffOpened(lines, k);
  }

  /** The prose is the page with its fenced lines blanked, and then every code span of that blanked. */
  lemma ProseIs(text: string, i: nat)
    requires i < |text|
    ensures var source := Concat(WithoutFences(SplitLines(text)));
      && |source| == |text| == |Prose(text)|
      && Prose(text)[i] == (if source[i] != '\n' && Inside(Spans(source, 0), i) then ' ' else source[i])
  {
    SplitLinesKeepsText(text);
    ConcatShape(SplitLines(text), WithoutFences(SplitLines(text)));
  }

  predicate All(t: string, from: nat, to: nat, chars: set<char>) { to <= |t| && forall i | from <= i < to :: t[i] in chars }

  lemma {:induction false} CountIs(t: string, i: nat, chars: set<char>)
    requires i <= |t|
    ensures var n := Count(t, i, chars); All(t, i, i + n, chars) && (i + n < |t| ==> t[i + n] !in chars)
    decreases |t| - i
  {
    if i < |t| && t[i] in chars { CountIs(t, i + 1, chars); }
  }

  /** A count is the only length after which the characters stop being in the set. */
  lemma {:induction false} CountIsOnly(t: string, i: nat, chars: set<char>, n: nat)
    requires i + n <= |t| && All(t, i, i + n, chars) && (i + n < |t| ==> t[i + n] !in chars)
    ensures Count(t, i, chars) == n
    decreases n
  {
    if n > 0 { CountIsOnly(t, i + 1, chars, n - 1); }
  }

  /** A line without the carriage returns and line feeds at its end. */
  predicate IsStripped(line: string, raw: string) {
    raw <= line && All(line, |raw|, |line|, {'\r', '\n'}) && (raw != "" ==> raw[|raw| - 1] != '\r' && raw[|raw| - 1] != '\n')
  }

  lemma {:induction false} StripBreakIs(line: string)
    ensures IsStripped(line, StripBreak(line))
  {
    if line != "" && (line[|line| - 1] == '\r' || line[|line| - 1] == '\n') {
      StripBreakIs(line[..|line| - 1]);
      assert forall i | 0 <= i < |line| - 1 :: line[..|line| - 1][i] == line[i];
    }
  }

  /** At most three spaces, then exactly `n` backticks or exactly `n` tildes, three or more, then anything. */
  predicate IsOpener(raw: string, k: nat, mark: char, n: nat) {
    && k <= 3 && n >= 3 && (mark == '`' || mark == '~') && k + n <= |raw|
    && All(raw, 0, k, {' '}) && All(raw, k, k + n, {mark}) && (k + n < |raw| ==> raw[k + n] != mark)
  }

  lemma OpenFenceIs(line: string)
    ensures var raw := StripBreak(line);
      && IsStripped(line, raw)
      && (OpenFence(line).Some? ==> exists k: nat :: IsOpener(raw, k, OpenFence(line).value.mark, OpenFence(line).value.length))
      && forall k: nat, mark, n: nat | IsOpener(raw, k, mark, n) :: OpenFence(line) == Some(Fence(mark, n))
  {
    StripBreakIs(line);
    var raw := StripBreak(line);
    var k := Count(raw, 0, {' '});
    CountIs(raw, 0, {' '});
    if k < |raw| { CountIs(raw, k, {raw[k]}); }
    if OpenFence(line).Some? { assert IsOpener(raw, k, raw[k], Count(raw, k, {raw[k]})); }
    forall j: nat, mark, n: nat | IsOpener(raw, j, mark, n) ensures OpenFence(line) == Some(Fence(mark, n)) {
      assert raw[j] in {mark};
      CountIsOnly(raw, 0, {' '}, j);
      CountIsOnly(raw, j, {mark}, n);
    }
  }

  /** At most three spaces, then a run of fence characters that begins with the mark and is long enough, then blanks only. */
  predicate IsCloser(raw: string, f: Fence, k: nat, end: nat) {
    && k <= 3 && k < end <= |raw| && All(raw, 0, k, {' '}) && raw[k] == f.mark
    && All(raw, k, end, {'`', '~'}) && end - k >= f.length && All(raw, end, |raw|, {' ', '\t'})
  }

  lemma ClosesOne(raw: string, f: Fence, k: nat, end: nat)
    requires IsCloser(raw, f, k, end) && (f.mark == '`' || f.mark == '~')
    ensures k == Count(raw, 0, {' '}) && end - k == Count(raw, k, {'`', '~'}) && end + Count(raw, end, {' ', '\t'}) == |raw|
  {
    assert raw[k] in {'`', '~'} && (end < |raw| ==> raw[end] in {' ', '\t'});
    CountIsOnly(raw, 0, {' '}, k);
    CountIsOnly(raw, k, {'`', '~'}, end - k);
    CountIsOnly(raw, end, {' ', '\t'}, |raw| - end);
  }

  lemma ClosesIff(line: string, f: Fence)
    requires f.mark == '`' || f.mark == '~'
    ensures var raw := StripBreak(line); IsStripped(line, raw) && (Closes(line, f) <==> exists k: nat, end: nat :: IsCloser(raw, f, k, end))
  {
    hide StripBreak, Count;
    StripBreakIs(line);
    var raw := StripBreak(line);
    var k := Count(raw, 0, {' '});
    CountIs(raw, 0, {' '});
    if Closes(line, f) {
      CountIs(raw, k, {'`', '~'});
      var end := k + Count(raw, k, {'`', '~'});
      CountIs(raw, end, {' ', '\t'});
      assert f.length == 0 || IsCloser(raw, f, k, end);
      assert IsCloser(raw, f, k, end);
    }
    if j: nat, e: nat :| IsCloser(raw, f, j, e) { ClosesOne(raw, f, j, e); }
  }

  /** The line boundaries of Python's `splitlines`, by code point. */
  predicate IsBreak(c: char) {
    var n := c as int;
    0x0A <= n <= 0x0D || 0x1C <= n <= 0x1E || n == 0x85 || n == 0x2028 || n == 0x2029
  }

  lemma BreaksAre(c: char)
    ensures c in LINE_BREAKS <==> IsBreak(c)
  {
  }

  lemma {:induction false} LineEndIs(t: string, i: nat)
    requires i < |t|
    ensures var e := LineEnd(t, i);
      && (forall j | i <= j < e - 1 :: !IsBreak(t[j]) || (t[j] == '\r' && t[j + 1] == '\n' && j + 2 == e))
      && (e < |t| ==> IsBreak(t[e - 1]) && !(t[e - 1] == '\r' && t[e] == '\n'))
    decreases |t| - i
  {
    BreaksAre(t[i]);
    if t[i] !in LINE_BREAKS && i + 1 < |t| { LineEndIs(t, i + 1); }
  }

  /** The lines make up the text; each ends where a line boundary does, `\r\n` being one, and has no other in it. */
  lemma {:induction false} LinesAre(t: string, k: nat)
    requires k < |SplitLines(t)|
    ensures Concat(SplitLines(t)) == t
    ensures var line := SplitLines(t)[k]; var e := |line|;
      && line != ""
      && (forall j | 0 <= j < e - 1 :: !IsBreak(line[j]) || (line[j] == '\r' && line[j + 1] == '\n' && j + 2 == e))
      && (k + 1 < |SplitLines(t)| ==> IsBreak(line[e - 1]) && !(line[e - 1] == '\r' && "\n" <= SplitLines(t)[k + 1]))
    decreases |t|
  {
    SplitLinesKeepsText(t);
    var e := LineEnd(t, 0);
    LineEndIs(t, 0);
    assert forall j | 0 <= j < e :: t[..e][j] == t[j];
    if k > 0 {
      LinesAre(t[e..], k - 1);
    } else if |SplitLines(t)| > 1 {
      assert t[e..] != "" && SplitLines(t)[1] == t[e..][..LineEnd(t[e..], 0)];
      assert SplitLines(t)[1][0] == t[e];
    }
  }
}
