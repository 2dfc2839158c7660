/**
 Two readers of streamed text (subagent-transcript.ts, api.ts): however the text is cut into chunks,
 they see the pieces of the whole text.
 */
module StreamedText {
  import opened Wrappers
  import opened JsText

  const NEWLINE: string := "\n"
  const BLANK_LINE: string := "\n\n"

  // ---------------------------------------------------------------- server-sent events

  datatype Message = Message(event: string, data: string)

  predicate StartsWith(t: string, prefix: string) { |prefix| <= |t| && t[..|prefix|] == prefix }

  /** The value of the last line that carries the field, or a default. */
  function Field(lines: seq<string>, name: string, default: string): string {
    if lines == [] then default
    else
      var l := lines[|lines| - 1];
      if StartsWith(l, name) then l[|name|..] else Field(lines[..|lines| - 1], name, default)
  }

  /** One frame as a message: blank frames and frames without data are none. */
  function MessageOf(frame: string): Option<Message> {
    var lines := Split(frame, NEWLINE);
    if Blank(frame) || Field(lines, "data: ", "") == "" then None
    else Some(Message(Field(lines, "event: ", "message"), Field(lines, "data: ", "")))
  }

  function Messages(frames: seq<string>): seq<Message> {
    if frames == [] then []
    else
      var m := MessageOf(frames[|frames| - 1]);
      Messages(frames[..|frames| - 1]) + if m.Some? then [m.value] else []
  }

  lemma {:induction false} MessagesConcat(a: seq<string>, b: seq<string>)
    ensures Messages(a + b) == Messages(a) + Messages(b)
  {
    if b == [] {
      assert a + b == a;
    } else {
      assert (a + b)[..|a + b| - 1] == a + b[..|b| - 1];
      MessagesConcat(a, b[..|b| - 1]);
    }
  }

  lemma OtherField(l: string)
    ensures StartsWith(l, "event: ") ==> !StartsWith(l, "data: ")
  {
    assert "event: "[0] == 'e' && "data: "[0] == 'd';
    if StartsWith(l, "event: ") { assert l[0] == 'e'; }
    if StartsWith(l, "data: ") { assert l[..6][0] == 'd' && l[0] == 'd'; }
  }

  /** The last line that begins with `name`, if any does. */
  predicate IsLastWith(lines: seq<string>, name: string, last: Option<nat>) {
    match last
    case Some(i) => i < |lines| && name <= lines[i] && forall j | i < j < |lines| :: !(name <= lines[j])
    case None => forall j | 0 <= j < |lines| :: !(name <= lines[j])
  }

  lemma {:induction false} FieldIs(lines: seq<string>, name: string, default: string) returns (last: Option<nat>)
    ensures IsLastWith(lines, name, last)
    ensures Field(lines, name, default) == if last.Some? then lines[last.value][|name|..] else default
  {
    last := None;
    if lines != [] {
      var n := |lines| - 1;
      if name <= lines[n] {
        last := Some(n);
      } else {
        last := FieldIs(lines[..n], name, default);
        assert forall j | 0 <= j < n :: lines[..n][j] == lines[j];
      }
    }
  }

  /** No piece of a blank text has a letter in it. */
  lemma {:induction false} PiecesOfBlank(t: string, sep: string, k: nat)
    requires sep != "" && Blank(t) && k < |Split(t, sep)|
    ensures Blank(Split(t, sep)[k])
    decreases |t|
  {
    var i := IndexOf(t, sep, 0);
    if i.Some? && k > 0 { PiecesOfBlank(t[i.value + |sep|..], sep, k - 1); }
  }

  lemma LetterIsNotBlank(line: string)
    requires "data: " <= line
    ensures !Blank(line)
  {
    assert line[0] == "data: "[0] == 'd';
  }

  /**
   A frame is a message exactly if its last data line holds something; the message holds what follows
   the six characters of that line, and what follows the seven of the last event line, or "message".
   */
  lemma MessageIs(frame: string) returns (data: Option<nat>, event: Option<nat>)
    ensures var lines := Split(frame, "\n");
      && IsLastWith(lines, "data: ", data) && IsLastWith(lines, "event: ", event)
      && MessageOf(frame) ==
         if data.Some? && |lines[data.value]| > 6 then
           Some(Message(if event.Some? then lines[event.value][7..] else "message", lines[data.value][6..]))
         else None
  {
    hide Field, Split, Blank;
    var lines := Split(frame, "\n");
    data := FieldIs(lines, "data: ", "");
    event := FieldIs(lines, "event: ", "message");
    if data.Some? {
      LetterIsNotBlank(lines[data.value]);
      if Blank(frame) { PiecesOfBlank(frame, "\n", data.value); }
    }
  }

  /** The messages of one more frame come behind those of the frames before it. */
  lemma MessagesNext(frames: seq<string>, frame: string)
    ensures Messages(frames + [frame]) == Messages(frames) + if MessageOf(frame).Some? then [MessageOf(frame).value] else []
  {
  }

  /** The inner loop over one frame's lines. */
  method ReadFrame(frame: string) returns (m: Option<Message>)
    ensures m == MessageOf(frame)
  {
    if Blank(frame) { return None; }
    var event, data := "message", "";
    var lines := Split(frame, NEWLINE);
    for i := 0 to |lines|
      invariant event == Field(lines[..i], "event: ", "message") && data == Field(lines[..i], "data: ", "")
    {
      assert lines[..i + 1][..i] == lines[..i];
      OtherField(lines[i]);
      if StartsWith(lines[i], "event: ") {
        event := lines[i][7..];
      } else if StartsWith(lines[i], "data: ") {
        data := lines[i][6..];
      }
    }
    assert lines[..|lines|] == lines;
    m := if data == "" then None else Some(Message(event, data));
  }

  method ReadFrames(frames: seq<string>) returns (messages: seq<Message>)
    ensures messages == Messages(frames)
  {
    messages := [];
    for i := 0 to |frames|
      invariant messages == Messages(frames[..i])
    {
      assert frames[..i + 1][..i] == frames[..i];
      var m := ReadFrame(frames[i]);
      if m.Some? { messages := messages + [m.value]; }
    }
    assert frames[..|frames|] == frames;
  }

  /**
   The read loop of `chatSSE`: for every way the stream is cut into chunks, the messages are those of
   the whole text split at blank lines, without the last, unfinished piece.
   */
  method ChatStream(chunks: seq<string>) returns (messages: seq<Message>)
    ensures messages == Messages(Closed(Split(Concat(chunks), BLANK_LINE)))
  {
    var buffer := "";
    messages := [];
    for i := 0 to |chunks|
      invariant messages == Messages(Closed(Split(Concat(chunks[..i]), BLANK_LINE)))
      invariant buffer == Last(Split(Concat(chunks[..i]), BLANK_LINE))
    {
      hide Messages, Split;
      ghost var before := Split(Concat(chunks[..i]), BLANK_LINE);
      assert chunks[..i + 1][..i] == chunks[..i];
      SplitAgain(Concat(chunks[..i]), chunks[i], BLANK_LINE);
      buffer := buffer + chunks[i];
      var frames := Split(buffer, BLANK_LINE);
      ClosedConcat(Closed(before), frames);
      MessagesConcat(Closed(before), Closed(frames));
      buffer := Last(frames);
      var more := ReadFrames(Closed(frames));
      messages := messages + more;
    }
    assert chunks[..|chunks|] == chunks;
  }

  lemma ClosedConcat(a: seq<string>, b: seq<string>)
    requires b != []
    ensures Closed(a + b) == a + Closed(b) && Last(a + b) == Last(b)
  {
  }

  // ---------------------------------------------------------------- transcripts

  /** What one JSONL row is to the validator; `parse` answers `None` where the row is no JSON object. */
  datatype Row = Header(id: string) | Assistant | OtherRow

  /** The rows that matter: lines that are not blank. */
  function Rows(lines: seq<string>): seq<string> {
    if lines == [] then []
    else Rows(lines[..|lines| - 1]) + if Blank(lines[|lines| - 1]) then [] else [lines[|lines| - 1]]
  }

  /** Every row parses, the first is a header with an id, and a later one is the assistant's. */
  predicate ValidTranscript(rows: seq<string>, parse: string -> Option<Row>) {
    && rows != [] && (forall i | 0 <= i < |rows| :: parse(rows[i]).Some?)
    && parse(rows[0]).value.Header? && parse(rows[0]).value.id != ""
    && exists i :: 0 < i < |rows| && parse(rows[i]).value.Assistant?
  }

  datatype Validated = Validated(headerId: string, rows: nat)

  /** What `validateLine` has gathered from some rows, none of which was refused. */
  ghost predicate Gathered(rows: seq<string>, parse: string -> Option<Row>, header: string, assistant: bool) {
    && (forall i | 0 <= i < |rows| :: parse(rows[i]).Some?)
    && (if rows == [] then header == "" else parse(rows[0]).value == Header(header))
    && (assistant <==> exists i :: 0 < i < |rows| && parse(rows[i]).value.Assistant?)
  }

  /** Whatever follows, these rows do not make a valid transcript. */
  ghost predicate Refused(rows: seq<string>, parse: string -> Option<Row>) {
    forall more: seq<string> :: !ValidTranscript(rows + more, parse)
  }

  class TranscriptValidator {
    const parse: string -> Option<Row>
    var lineParts: seq<string>
    var rows: nat
    var headerId: string
    var hasAssistant: bool
    /** A row was refused; the source throws out of the read loop here. */
    var failed: bool
    /** The lines handed to `validateLine`. */
    ghost var lines: seq<string>

    constructor (parse: string -> Option<Row>)
      ensures this.parse == parse && Sound() && lines == [] && lineParts == []
    {
      this.parse := parse;
      lineParts, rows, headerId, hasAssistant, failed, lines := [], 0, "", false, false, [];
    }

    ghost predicate Sound()
      reads this
    {
      if failed then Refused(Rows(lines), parse)
      else Gathered(Rows(lines), parse, headerId, hasAssistant) && rows == |Rows(lines)|
    }

    /** `validateLine`: joins the parts, skips a blank line, checks a row. */
    method ValidateLine()
      requires Sound() && !failed
      modifies this
      ensures Sound() && lineParts == [] && lines == old(lines) + [Concat(old(lineParts))]
    {
      hide Gathered, Refused, Blank;
      var line := JoinParts();
      lineParts := [];
      ghost var before := Rows(lines);
      lines := lines + [line];
      RowsNext(old(lines), line);
      if !Blank(line) { CheckRow(before, line); }
    }

    method JoinParts() returns (line: string)
      ensures line == Concat(lineParts)
    {
      line := "";
      for i := 0 to |lineParts|
        invariant line == Concat(lineParts[..i])
      {
        assert lineParts[..i + 1][..i] == lineParts[..i];
        line := line + lineParts[i];
      }
      assert lineParts[..|lineParts|] == lineParts;
    }

    method CheckRow(ghost before: seq<string>, line: string)
      requires !failed && Gathered(before, parse, headerId, hasAssistant) && rows == |before| && Rows(lines) == before + [line]
      modifies this`rows, this`headerId, this`hasAssistant, this`failed
      ensures Sound()
    {
      hide Gathered, Refused, Rows;
      var entry := parse(line);
      RowNext(before, line, parse, headerId, hasAssistant);
      if entry.None? || (rows == 0 && !entry.value.Header?) {
        failed := true;
        return;
      }
      if rows == 0 {
        headerId := entry.value.id;
      } else if entry.value.Assistant? {
        hasAssistant := true;
      }
      rows := rows + 1;
    }
  }

  lemma RowsNext(lines: seq<string>, line: string)
    ensures Rows(lines + [line]) == if Blank(line) then Rows(lines) else Rows(lines) + [line]
  {
  }

  lemma {:induction false} RowsConcat(a: seq<string>, b: seq<string>)
    ensures Rows(a + b) == Rows(a) + Rows(b)
  {
    if b == [] {
      assert a + b == a;
    } else {
      assert (a + b)[..|a + b| - 1] == a + b[..|b| - 1];
      RowsConcat(a, b[..|b| - 1]);
    }
  }

  /** One more row: refused rows spoil every continuation, others are gathered. */
  lemma RowNext(before: seq<string>, line: string, parse: string -> Option<Row>, header: string, assistant: bool)
    requires Gathered(before, parse, header, assistant)
    ensures var entry := parse(line); var all := before + [line];
      if entry.None? || (before == [] && !entry.value.Header?) then Refused(all, parse)
      else Gathered(all, parse, if before == [] then entry.value.id else header, assistant || (before != [] && entry.value.Assistant?))
  {
    var entry, all := parse(line), before + [line];
    assert all[|before|] == line;
    if entry.None? || (before == [] && !entry.value.Header?) {
      forall more ensures !ValidTranscript(all + more, parse) {
        assert (all + more)[|before|] == line;
      }
    } else {
      forall i | 0 < i < |before| && parse(before[i]).value.Assistant? ensures all[i] == before[i] { }
    }
  }

  /** Where the reader is: `read` is what it has scanned. */
  ghost predicate Scanned(v: TranscriptValidator, read: string)
    reads v
  {
    v.lines == Closed(Split(read, NEWLINE)) && Concat(v.lineParts) == Last(Split(read, NEWLINE))
  }

  lemma SplitOpen(read: string, piece: string)
    requires IndexOf(piece, NEWLINE, 0).None?
    ensures Closed(Split(read + piece, NEWLINE)) == Closed(Split(read, NEWLINE))
    ensures Last(Split(read + piece, NEWLINE)) == Last(Split(read, NEWLINE)) + piece
  {
    NoNewline(Last(Split(read, NEWLINE)), piece, read);
    SplitAgain(read, piece, NEWLINE);
  }

  lemma NoNewline(open: string, piece: string, read: string)
    requires open == Last(Split(read, NEWLINE)) && IndexOf(piece, NEWLINE, 0).None?
    ensures Split(open + piece, NEWLINE) == [open + piece]
  {
    forall i: nat ensures !OccursAt(open + piece, NEWLINE, i) {
      PiecesAreWhole(read, NEWLINE, |Split(read, NEWLINE)| - 1, i);
      if |open| <= i < |open| + |piece| { assert !OccursAt(piece, NEWLINE, i - |open|); assert (open + piece)[i..i + 1] == piece[i - |open|..i - |open| + 1]; }
      if i < |open| { OccursEarly(open, piece, NEWLINE, i); }
    }
  }

  lemma SplitNewline(read: string, piece: string)
    requires IndexOf(piece, NEWLINE, 0).None?
    ensures Closed(Split(read + piece + NEWLINE, NEWLINE)) == Closed(Split(read, NEWLINE)) + [Last(Split(read, NEWLINE)) + piece]
    ensures Last(Split(read + piece + NEWLINE, NEWLINE)) == ""
  {
    var open := Last(Split(read, NEWLINE)) + piece;
    SplitOpen(read, piece);
    SplitAgain(read + piece, NEWLINE, NEWLINE);
    NoNewline(Last(Split(read, NEWLINE)), piece, read);
    OpenLine(open);
    assert Closed(Split(read + piece, NEWLINE)) + [open, ""] == (Closed(Split(read, NEWLINE)) + [open]) + [""];
  }

  lemma OpenLine(open: string)
    requires Split(open, NEWLINE) == [open]
    ensures Split(open + NEWLINE, NEWLINE) == [open, ""]
  {
    var t, k := open + NEWLINE, |open|;
    forall i | 0 <= i < k ensures !OccursAt(t, NEWLINE, i) {
      PiecesAreWhole(open, NEWLINE, 0, i);
      OccursEarly(open, NEWLINE, NEWLINE, i);
    }
    assert OccursAt(t, NEWLINE, k);
    SplitFirst(t, NEWLINE, k);
    assert t[..k] == open && t[k + 1..] == "";
    assert Split("", NEWLINE) == [""];
  }

  lemma ConcatNext(parts: seq<string>, part: string)
    ensures Concat(parts + [part]) == Concat(parts) + part
  {
  }

  /** The line that ends with `piece` is complete. */
  method EndLine(v: TranscriptValidator, piece: string, ghost read: string)
    requires v.Sound() && !v.failed && Scanned(v, read) && IndexOf(piece, NEWLINE, 0).None?
    modifies v
    ensures v.Sound() && Scanned(v, read + piece + NEWLINE)
  {
    hide Split, Concat, Closed, Last;
    ConcatNext(v.lineParts, piece);
    SplitNewline(read, piece);
    v.lineParts := v.lineParts + [piece];
    v.ValidateLine();
    EmptyConcat(v.lineParts);
  }

  /** The current line goes on after `piece`. */
  method KeepOpen(v: TranscriptValidator, piece: string, ghost read: string)
    requires v.Sound() && Scanned(v, read) && IndexOf(piece, NEWLINE, 0).None?
    modifies v`lineParts
    ensures v.Sound() && v.failed == old(v.failed) && Scanned(v, read + piece)
  {
    hide Split, Concat, Closed, Last;
    ConcatNext(v.lineParts, piece);
    SplitOpen(read, piece);
    v.lineParts := v.lineParts + [piece];
  }

  /** One decoded chunk: complete lines are validated, the rest is kept. It stops at a refused row. */
  method ScanChunk(v: TranscriptValidator, decoded: string, ghost read: string) returns (ghost now: string)
    requires v.Sound() && !v.failed && Scanned(v, read)
    modifies v
    ensures v.Sound() && Scanned(v, now)
    ensures if v.failed then now <= read + decoded else now == read + decoded
  {
    hide Scanned;
    var start, newline := 0, IndexOf(decoded, NEWLINE, 0);
    now := read;
    while newline.Some? && !v.failed
      invariant start <= |decoded| && v.Sound() && Scanned(v, now) && now == read + decoded[..start]
      invariant newline == IndexOf(decoded, NEWLINE, start)
      decreases |decoded| - start
    {
      PieceIsOpen(decoded, start, newline);
      EndLine(v, decoded[start..newline.value], now);
      ReadOn(read, decoded, start, newline.value);
      now := now + decoded[start..newline.value] + NEWLINE;
      start := newline.value + 1;
      newline := IndexOf(decoded, NEWLINE, start);
    }
    if !v.failed {
      PieceIsOpen(decoded, start, newline);
      KeepOpen(v, decoded[start..], now);
      now := now + decoded[start..];
      assert now == read + decoded;
    }
  }

  lemma ReadOn(read: string, decoded: string, start: nat, newline: nat)
    requires start <= newline < |decoded| && decoded[newline..newline + 1] == NEWLINE
    ensures (read + decoded[..start]) + decoded[start..newline] + NEWLINE == read + decoded[..newline + 1]
  {
  }

  lemma EmptyConcat(parts: seq<string>)
    ensures parts == [] ==> Concat(parts) == ""
  {
  }

  lemma NewlineAt(t: string, i: nat)
    ensures OccursAt(t, NEWLINE, i) <==> i < |t| && t[i] == '\n'
  {
  }

  lemma PieceIsOpen(decoded: string, start: nat, newline: Option<nat>)
    requires start <= |decoded| && newline == IndexOf(decoded, NEWLINE, start)
    ensures var piece := if newline.Some? then decoded[start..newline.value] else decoded[start..];
      IndexOf(piece, NEWLINE, 0).None?
    ensures newline.Some? ==> newline.value < |decoded| && decoded[newline.value..newline.value + 1] == NEWLINE
  {
    var piece := if newline.Some? then decoded[start..newline.value] else decoded[start..];
    forall i: nat ensures !OccursAt(piece, NEWLINE, i) {
      if i < |piece| {
        NewlineAt(decoded, start + i);
        NewlineAt(piece, i);
        assert piece[i] == decoded[start + i];
      }
    }
  }

  lemma RefusedWhole(read: string, rest: string, parse: string -> Option<Row>)
    requires Refused(Rows(Closed(Split(read, NEWLINE))), parse)
    ensures !ValidTranscript(Rows(Split(read + rest, NEWLINE)), parse)
  {
    SplitAgain(read, rest, NEWLINE);
    RowsConcat(Closed(Split(read, NEWLINE)), Split(Last(Split(read, NEWLINE)) + rest, NEWLINE));
  }

  lemma GatheredAll(rows: seq<string>, parse: string -> Option<Row>, header: string, assistant: bool)
    requires Gathered(rows, parse, header, assistant)
    ensures ValidTranscript(rows, parse) <==> header != "" && assistant
  {
  }

  lemma {:induction false} ConcatStep(chunks: seq<string>, i: nat)
    requires i < |chunks|
    ensures Concat(chunks[..i + 1]) == Concat(chunks[..i]) + chunks[i] && Concat(chunks[..i + 1]) <= Concat(chunks)
    decreases |chunks| - i
  {
    assert chunks[..i + 1][..i] == chunks[..i];
    if i + 1 < |chunks| { ConcatStep(chunks, i + 1); } else { assert chunks[..i + 1] == chunks; }
  }

  /** After the last chunk: what the decoder still holds ends the last line. */
  method EndText(v: TranscriptValidator, tail: string, ghost read: string)
    requires v.Sound() && !v.failed && Scanned(v, read) && IndexOf(tail, NEWLINE, 0).None?
    modifies v
    ensures v.Sound() && v.lines == Split(read + tail, NEWLINE)
  {
    hide Split, Concat;
    ConcatNext(v.lineParts, tail);
    SplitOpen(read, tail);
    v.lineParts := v.lineParts + [tail];
    v.ValidateLine();
    ghost var all := Split(read + tail, NEWLINE);
    assert all == Closed(all) + [Last(all)];
  }

  /**
   `validateTranscript` on the decoded chunks of a file and what the decoder still holds at its end:
   it accepts exactly the texts whose non-blank lines are a valid transcript, however they were cut.
   */
  method ValidateTranscript(chunks: seq<string>, tail: string, parse: string -> Option<Row>) returns (r: Option<Validated>)
    requires IndexOf(tail, NEWLINE, 0).None?
    ensures var rows := Rows(Split(Concat(chunks) + tail, NEWLINE));
      && (r.Some? <==> ValidTranscript(rows, parse))
      && (r.Some? ==> parse(rows[0]) == Some(Header(r.value.headerId)) && r.value.rows == |rows|)
  {
    var v := new TranscriptValidator(parse);
    ghost var read := "";
    var i := 0;
    assert Split("", NEWLINE) == [""];
    while i < |chunks| && !v.failed
      invariant i <= |chunks| && v.parse == parse && fresh(v) && v.Sound() && Scanned(v, read)
      invariant if v.failed then read <= Concat(chunks) else read == Concat(chunks[..i])
    {
      hide Split, Scanned, Concat;
      ConcatStep(chunks, i);
      read := ScanChunk(v, chunks[i], read);
      i := i + 1;
    }
    if v.failed {
      ghost var rest := Concat(chunks)[|read|..] + tail;
      assert read + rest == Concat(chunks) + tail;
      RefusedWhole(read, rest, parse);
      return None;
    }
    assert chunks[..|chunks|] == chunks;
    EndText(v, tail, read);
    r := Conclude(v);
  }

  /** The checks after the last line. */
  method Conclude(v: TranscriptValidator) returns (r: Option<Validated>)
    requires v.Sound()
    ensures var rows := Rows(v.lines);
      && (r.Some? <==> ValidTranscript(rows, v.parse))
      && (r.Some? ==> v.parse(rows[0]) == Some(Header(r.value.headerId)) && r.value.rows == |rows|)
  {
    if v.failed {
      assert Rows(v.lines) + [] == Rows(v.lines);
      return None;
    }
    GatheredAll(Rows(v.lines), v.parse, v.headerId, v.hasAssistant);
    r := if v.headerId == "" || !v.hasAssistant then None else Some(Validated(v.headerId, v.rows));
  }
}
