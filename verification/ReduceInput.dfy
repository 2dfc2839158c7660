/**
 The prompt of a group's reduce child (subagent-group.ts) and the truncation it shares with the other
 capsules (delegation-summary.ts). Characters are UTF-16 units.
 */
module ReduceInput {
  import opened Wrappers
  import opened JsText

  const SUFFIX: string := "\n[truncated]"

  function Max(a: int, b: int): int { if a >= b then a else b }

  /** `lastIndexOf`, -1 where there is none. */
  function LastIndexOf(t: string, pattern: string, end: nat): (i: int)
    requires end <= |t|
    ensures -1 <= i <= end
  {
    if OccursAt(t, pattern, end) then end else if end == 0 then -1 else LastIndexOf(t, pattern, end - 1)
  }

  function TrimEnd(t: string): (r: string)
    ensures r <= t
  {
    if t != "" && t[|t| - 1] in WHITE_SPACE then TrimEnd(t[..|t| - 1]) else t
  }

  function TrimStart(t: string): string {
    if t != "" && t[0] in WHITE_SPACE then TrimStart(t[1..]) else t
  }

  function Trim(t: string): string { TrimEnd(TrimStart(t)) }

  /** `truncateAtBoundary`: cut at the last line or sentence end, unless that loses 45 percent or more. */
  function TruncateAtBoundary(text: string, maxChars: nat, suffix: string): string {
    if |text| <= maxChars then text
    else
      var budget := Max(0, maxChars - |suffix|);
      var slice := text[..budget];
      var boundary := Max(LastIndexOf(slice, "\n", |slice|), Max(LastIndexOf(slice, ". ", |slice|), LastIndexOf(slice, "; ", |slice|)));
      TrimEnd(if 100 * boundary > 55 * budget && boundary < |slice| then slice[..boundary + 1] else slice) + suffix
  }

  /** Text that fits is untouched; cut text is a beginning of it with the suffix, within the larger of the limit and the suffix. */
  lemma TruncationIsBounded(text: string, maxChars: nat, suffix: string)
    ensures var r := TruncateAtBoundary(text, maxChars, suffix);
      if |text| <= maxChars then r == text
      else |r| <= Max(maxChars, |suffix|) && exists kept: string :: r == kept + suffix && kept <= text
  {
  }

  // ---------------------------------------------------------------- where it cuts

  predicate AllWhite(t: string, from: nat, to: nat) { to <= |t| && forall i | from <= i < to :: t[i] in WHITE_SPACE }

  lemma {:induction false} TrimEndIs(t: string)
    ensures var r := TrimEnd(t); r <= t && AllWhite(t, |r|, |t|) && (r != "" ==> r[|r| - 1] !in WHITE_SPACE)
  {
    if t != "" && t[|t| - 1] in WHITE_SPACE {
      TrimEndIs(t[..|t| - 1]);
      assert forall i | 0 <= i < |t| - 1 :: t[..|t| - 1][i] == t[i];
    }
  }

  lemma {:induction false} TrimStartIs(t: string) returns (a: nat)
    ensures a <= |t| && TrimStart(t) == t[a..] && AllWhite(t, 0, a) && (a < |t| ==> t[a] !in WHITE_SPACE)
  {
    if t != "" && t[0] in WHITE_SPACE {
      var b := TrimStartIs(t[1..]);
      a := b + 1;
      assert forall i | 0 <= i < b :: t[1..][i] == t[i + 1];
    } else {
      a := 0;
    }
  }

  /** What trimming keeps is the middle, from the first to the last character that is no white space. */
  lemma TrimIs(t: string) returns (a: nat, b: nat)
    ensures a <= b <= |t| && Trim(t) == t[a..b] && AllWhite(t, 0, a) && AllWhite(t, b, |t|)
    ensures a < b ==> t[a] !in WHITE_SPACE && t[b - 1] !in WHITE_SPACE
  {
    a := TrimStartIs(t);
    TrimEndIs(t[a..]);
    b := a + |Trim(t)|;
    assert forall i | 0 <= i < |t| - a :: t[a..][i] == t[a + i];
  }

  /** A line or a sentence ends at `i`, and its last character or two are within the first `budget`. */
  predicate EndsAt(t: string, i: nat, budget: nat) {
    budget <= |t| && i < budget &&
    (t[i] == '\n' || (i + 1 < budget && (t[i] == '.' || t[i] == ';') && t[i + 1] == ' '))
  }

  predicate LastEnd(t: string, i: nat, budget: nat) { EndsAt(t, i, budget) && forall j: nat | i < j < budget :: !EndsAt(t, j, budget) }

  /** Where cut text is cut before it is trimmed: after its last end, if that is past 55 percent of the budget. */
  ghost predicate CutAt(t: string, cut: nat, budget: nat) {
    if exists i: nat :: LastEnd(t, i, budget) && 100 * i > 55 * budget then cut > 0 && LastEnd(t, cut - 1, budget) && 100 * (cut - 1) > 55 * budget
    else cut == budget
  }

  lemma {:induction false} LastIndexIs(t: string, pattern: string, end: nat)
    requires end <= |t|
    ensures var r := LastIndexOf(t, pattern, end); r >= 0 ==> OccursAt(t, pattern, r)
    ensures var r := LastIndexOf(t, pattern, end); forall j: nat | r < j <= end :: !OccursAt(t, pattern, j)
  {
    if !OccursAt(t, pattern, end) && end > 0 { LastIndexIs(t, pattern, end - 1); }
  }

  lemma EndIsOccurrence(t: string, i: nat, budget: nat)
    requires budget <= |t|
    ensures EndsAt(t, i, budget) <==>
      var slice := t[..budget]; OccursAt(slice, "\n", i) || OccursAt(slice, ". ", i) || OccursAt(slice, "; ", i)
  {
    var slice := t[..budget];
    if i < budget { assert slice[i..i + 1] == [t[i]]; }
    if i + 1 < budget { assert slice[i..i + 2] == [t[i], t[i + 1]]; }
  }

  /** The last end, or -1. */
  lemma BoundaryIs(t: string, budget: nat) returns (boundary: int)
    requires budget <= |t|
    ensures boundary == Max(LastIndexOf(t[..budget], "\n", budget), Max(LastIndexOf(t[..budget], ". ", budget), LastIndexOf(t[..budget], "; ", budget)))
    ensures boundary >= 0 ==> LastEnd(t, boundary, budget)
    ensures boundary < 0 ==> forall i: nat :: !EndsAt(t, i, budget)
  {
    var slice := t[..budget];
    LastIndexIs(slice, "\n", budget);
    LastIndexIs(slice, ". ", budget);
    LastIndexIs(slice, "; ", budget);
    boundary := Max(LastIndexOf(slice, "\n", budget), Max(LastIndexOf(slice, ". ", budget), LastIndexOf(slice, "; ", budget)));
    if boundary >= 0 { EndIsOccurrence(t, boundary, budget); }
    forall i: nat | boundary < i ensures !EndsAt(t, i, budget) { if i < budget { EndIsOccurrence(t, i, budget); } }
  }

  /** What the code cuts before it trims. */
  lemma WhichCut(text: string, budget: nat) returns (cut: nat)
    requires budget <= |text|
    ensures CutAt(text, cut, budget) && cut <= |text|
    ensures var slice := text[..budget];
      var boundary := Max(LastIndexOf(slice, "\n", |slice|), Max(LastIndexOf(slice, ". ", |slice|), LastIndexOf(slice, "; ", |slice|)));
      text[..cut] == if 100 * boundary > 55 * budget && boundary < |slice| then slice[..boundary + 1] else slice
  {
    var boundary := BoundaryIs(text, budget);
    hide LastIndexOf, LastEnd, EndsAt;
    cut := if 100 * boundary > 55 * budget then boundary + 1 else budget;
    if boundary >= 0 { LastEndIsOne(text, boundary, budget); } else { NoLastEnd(text, budget); }
  }

  /** Text that does not fit keeps everything up to the cut but the white space before it, and gets the suffix. */
  lemma TruncationCuts(text: string, maxChars: nat, suffix: string) returns (cut: nat, kept: string)
    requires |text| > maxChars
    ensures var budget: nat := if maxChars > |suffix| then maxChars - |suffix| else 0;
      && CutAt(text, cut, budget) && cut <= |text| && kept <= text[..cut] && AllWhite(text, |kept|, cut)
      && (kept != "" ==> kept[|kept| - 1] !in WHITE_SPACE)
    ensures TruncateAtBoundary(text, maxChars, suffix) == kept + suffix
  {
    hide LastIndexOf, CutAt, TrimEnd;
    cut := WhichCut(text, Max(0, maxChars - |suffix|));
    kept := TrimEnd(text[..cut]);
    TrimEndIs(text[..cut]);
    assert forall i | 0 <= i < cut :: text[..cut][i] == text[i];
  }

  lemma LastEndIsOne(t: string, i: nat, budget: nat)
    requires LastEnd(t, i, budget)
    ensures i < budget <= |t| && forall j: nat | LastEnd(t, j, budget) :: j == i
  {
  }

  lemma NoLastEnd(t: string, budget: nat)
    requires forall i: nat :: !EndsAt(t, i, budget)
    ensures forall i: nat :: !LastEnd(t, i, budget)
  {
  }

  // ---------------------------------------------------------------- the reduce prompt

  /** One item: its header line, which is kept, and its result, which may be cut. */
  datatype Block = Block(head: string, body: string)

  const SEP: string := "\n\n"
  const NL: string := "\n"

  function TotalBody(blocks: seq<Block>): nat {
    if blocks == [] then 0 else |blocks[0].body| + TotalBody(blocks[1..])
  }

  function TotalHeads(blocks: seq<Block>): nat {
    if blocks == [] then 0 else |blocks[0].head| + |NL| + TotalHeads(blocks[1..])
  }

  function Overhead(header: string, blocks: seq<Block>): nat { |header| + |SEP| * |blocks| + TotalHeads(blocks) }

  /** What a body of length `n` is allowed: everything, or its floored share of the budget. */
  function Allowed(n: nat, total: nat, bodyBudget: int): (r: Option<nat>)
  {
    if total <= bodyBudget || total == 0 then None else Some(n * Max(0, bodyBudget) / total)
  }

  function Cut(body: string, allowed: Option<nat>): string {
    if allowed.None? then body else TruncateAtBoundary(body, allowed.value, SUFFIX)
  }

  function Rendered(blocks: seq<Block>, total: nat, bodyBudget: int): seq<string> {
    seq(|blocks|, i requires 0 <= i < |blocks| => blocks[i].head + NL + Cut(blocks[i].body, Allowed(|blocks[i].body|, total, bodyBudget)))
  }

  function JoinAll(pieces: seq<string>, sep: string): string { if pieces == [] then "" else Join(pieces, sep) }

  /** `buildReduceInput`, from the instruction and the items' headers and results. */
  function BuildReduceInput(reducePrompt: string, blocks: seq<Block>, maxChars: nat): string {
    var header := Trim(reducePrompt);
    var rendered := JoinAll(Rendered(blocks, TotalBody(blocks), maxChars - Overhead(header, blocks)), SEP);
    if header == "" then rendered else header + SEP + rendered
  }

  // ---------------------------------------------------------------- how long it can get

  function Shares(blocks: seq<Block>, total: nat, budget: nat): nat
    requires total > 0
  {
    if blocks == [] then 0 else |blocks[0].body| * budget / total + Shares(blocks[1..], total, budget)
  }

  /** The floored shares never add up to more than the budget. */
  lemma {:induction false} SharesFit(blocks: seq<Block>, total: nat, budget: nat)
    requires total > 0
    ensures total * Shares(blocks, total, budget) <= TotalBody(blocks) * budget
  {
    if blocks != [] {
      SharesFit(blocks[1..], total, budget);
      var n := |blocks[0].body|;
      FloorBelow(n * budget, total);
      assert total * Shares(blocks, total, budget) == total * (n * budget / total) + total * Shares(blocks[1..], total, budget);
      assert TotalBody(blocks) * budget == n * budget + TotalBody(blocks[1..]) * budget;
    }
  }

  lemma FloorBelow(x: nat, total: nat)
    requires total > 0
    ensures total * (x / total) <= x
  {
  }

  lemma SharesWithinBudget(blocks: seq<Block>, budget: nat)
    requires TotalBody(blocks) > 0
    ensures Shares(blocks, TotalBody(blocks), budget) <= budget
  {
    var total, shares := TotalBody(blocks), Shares(blocks, TotalBody(blocks), budget);
    SharesFit(blocks, total, budget);
    if shares > budget { MoreIsMore(total, shares, budget); }
  }

  lemma MoreIsMore(total: nat, a: nat, b: nat)
    requires total > 0 && a > b
    ensures total * a > b * total
  {
  }

  function TotalLength(pieces: seq<string>): nat { if pieces == [] then 0 else |pieces[0]| + TotalLength(pieces[1..]) }

  lemma {:induction false} JoinLength(pieces: seq<string>, sep: string)
    requires pieces != []
    ensures |Join(pieces, sep)| == TotalLength(pieces) + |sep| * (|pieces| - 1)
  {
    if |pieces| > 1 { JoinLength(pieces[1..], sep); } else { assert TotalLength(pieces[1..]) == 0; }
  }

  lemma RenderedRest(blocks: seq<Block>, total: nat, bodyBudget: int)
    requires blocks != []
    ensures Rendered(blocks, total, bodyBudget)[1..] == Rendered(blocks[1..], total, bodyBudget)
  {
  }

  /** Every body whole. */
  lemma {:induction false} WholeLength(blocks: seq<Block>, total: nat, bodyBudget: int)
    requires total <= bodyBudget || total == 0
    ensures TotalLength(Rendered(blocks, total, bodyBudget)) == TotalHeads(blocks) + TotalBody(blocks)
  {
    if blocks != [] {
      RenderedRest(blocks, total, bodyBudget);
      WholeLength(blocks[1..], total, bodyBudget);
    }
  }

  /** Bodies cut to their shares: each may exceed its share by the suffix. */
  lemma {:induction false} CutLength(blocks: seq<Block>, total: nat, bodyBudget: int)
    requires total > bodyBudget && total > 0
    ensures TotalLength(Rendered(blocks, total, bodyBudget)) <= TotalHeads(blocks) + Shares(blocks, total, Max(0, bodyBudget)) + |SUFFIX| * |blocks|
  {
    if blocks != [] {
      RenderedRest(blocks, total, bodyBudget);
      CutLength(blocks[1..], total, bodyBudget);
      TruncationIsBounded(blocks[0].body, |blocks[0].body| * Max(0, bodyBudget) / total, SUFFIX);
      OneMoreSuffix(|blocks|);
    }
  }

  lemma OneMoreSuffix(n: nat)
    requires n > 0
    ensures |SUFFIX| * n == |SUFFIX| + |SUFFIX| * (n - 1)
  {
  }

  /**
   The prompt is never longer than the larger of the limit and what cannot be cut, plus 12 characters
   for each item.
   */
  lemma ReduceInputIsBounded(reducePrompt: string, blocks: seq<Block>, maxChars: nat)
    ensures |BuildReduceInput(reducePrompt, blocks, maxChars)| <= Max(maxChars, Overhead(Trim(reducePrompt), blocks)) + 12 * |blocks| + (if blocks == [] then 2 else 0)
  {
    var header, total := Trim(reducePrompt), TotalBody(blocks);
    var bodyBudget := maxChars - Overhead(header, blocks);
    var pieces := Rendered(blocks, total, bodyBudget);
    assert |SUFFIX| == 12;
    if blocks != [] {
      JoinLength(pieces, SEP);
      if total <= bodyBudget || total == 0 {
        WholeLength(blocks, total, bodyBudget);
      } else {
        CutLength(blocks, total, bodyBudget);
        SharesWithinBudget(blocks, Max(0, bodyBudget));
      }
    }
  }

  /** Every item as it is. */
  function Whole(blocks: seq<Block>): seq<string> {
    seq(|blocks|, i requires 0 <= i < |blocks| => blocks[i].head + NL + blocks[i].body)
  }

  lemma WholeIsRendered(blocks: seq<Block>, total: nat, bodyBudget: int)
    requires total <= bodyBudget
    ensures Rendered(blocks, total, bodyBudget) == Whole(blocks)
  {
  }

  /** A prompt that fits is not cut: it is the instruction and every item, headers and results as they are. */
  lemma FittingInputIsWhole(reducePrompt: string, blocks: seq<Block>, maxChars: nat)
    requires Overhead(Trim(reducePrompt), blocks) + TotalBody(blocks) <= maxChars
    ensures var header, items := Trim(reducePrompt), JoinAll(Whole(blocks), SEP);
      BuildReduceInput(reducePrompt, blocks, maxChars) == if header == "" then items else header + SEP + items
  {
    hide Rendered, Whole, JoinAll, Trim;
    WholeIsRendered(blocks, TotalBody(blocks), maxChars - Overhead(Trim(reducePrompt), blocks));
  }

  /** What one item shows of its result: all of it if everything fits, else as much as its floored share of what is left. */
  ghost predicate Shows(shown: string, body: string, left: int, total: nat) {
    if total <= left || total == 0 then shown == body
    else shown == TruncateAtBoundary(body, |body| * Max(0, left) / total, "\n[truncated]")
  }

  /** The prompt is the instruction and the items, in order and two line breaks apart, each its header line and what it shows. */
  lemma PromptIs(reducePrompt: string, blocks: seq<Block>, maxChars: nat) returns (pieces: seq<string>, shown: seq<string>)
    ensures |pieces| == |shown| == |blocks|
    ensures forall k | 0 <= k < |blocks| ::
      pieces[k] == blocks[k].head + "\n" + shown[k]
      && Shows(shown[k], blocks[k].body, maxChars - Overhead(Trim(reducePrompt), blocks), TotalBody(blocks))
    ensures var items := if pieces == [] then "" else Join(pieces, "\n\n"); var header := Trim(reducePrompt);
      BuildReduceInput(reducePrompt, blocks, maxChars) == if header == "" then items else header + "\n\n" + items
  {
    var left, total := maxChars - Overhead(Trim(reducePrompt), blocks), TotalBody(blocks);
    pieces := Rendered(blocks, total, left);
    shown := seq(|blocks|, k requires 0 <= k < |blocks| => Cut(blocks[k].body, Allowed(|blocks[k].body|, total, left)));
  }

  lemma {:induction false} TotalOfWhole(blocks: seq<Block>)
    ensures TotalLength(Whole(blocks)) == TotalHeads(blocks) + TotalBody(blocks)
  {
    if blocks != [] {
      TotalOfWhole(blocks[1..]);
      assert Whole(blocks)[1..] == Whole(blocks[1..]);
    }
  }

  /** The overhead is exactly what the prompt with every result whole has besides the results. */
  lemma OverheadIsExact(header: string, blocks: seq<Block>)
    requires header != "" && blocks != []
    ensures Overhead(header, blocks) + TotalBody(blocks) == |header + SEP + Join(Whole(blocks), SEP)|
  {
    JoinLength(Whole(blocks), SEP);
    TotalOfWhole(blocks);
    assert |SEP| * |blocks| == |SEP| + |SEP| * (|blocks| - 1);
  }

  /** However much is cut, the instruction opens the prompt and every item's header line is in it. */
  lemma HeadersSurvive(reducePrompt: string, blocks: seq<Block>, maxChars: nat, k: nat)
    requires k < |blocks|
    ensures Trim(reducePrompt) <= BuildReduceInput(reducePrompt, blocks, maxChars)
    ensures Contains(BuildReduceInput(reducePrompt, blocks, maxChars), blocks[k].head + NL)
  {
    hide Trim, Join, Cut, Allowed;
    var header := Trim(reducePrompt);
    var pieces := Rendered(blocks, TotalBody(blocks), maxChars - Overhead(header, blocks));
    var all, rest, line := BuildReduceInput(reducePrompt, blocks, maxChars), Join(pieces, SEP), blocks[k].head + NL;
    var i := JoinContains(pieces, SEP, k);
    assert OccursAt(pieces[k], line, 0);
    OccursInside(rest, pieces[k], line, i, 0);
    if header != "" {
      assert all == header + SEP + rest;
      assert OccursAt(all, rest, |header| + |SEP|);
      OccursInside(all, rest, line, |header| + |SEP|, i);
    }
  }
}
