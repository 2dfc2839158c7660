/** The mailbox as the object the callers, the loop and the audit share (subagent-lifecycle.ts). */
module SubagentMailboxes {
  import opened Wrappers
  import opened JsText
  import opened GuidanceRace
  import opened GuidanceProofs

  datatype SendError = Finishing | LimitReached

  /** One `combinedGuidance` entry: a prompt made of several texts. */
  datatype Batch = Batch(prompt: Text, messages: seq<Text>)

  const HEADING: Text := "\n\nCaller guidance:\n"

  predicate EndsWith(text: Text, suffix: Text) {
    |suffix| <= |text| && text[|text| - |suffix|..] == suffix
  }

  /** The prompt is the batch itself, or had the batch attached to it. */
  predicate Carries(prompt: Text, batch: Text) { prompt == batch || EndsWith(prompt, HEADING + batch) }

  /** The oldest batch the message carries. */
  function FindBatch(batches: seq<Batch>, prompt: Text): (r: Option<nat>)
    ensures r.Some? ==> r.value < |batches| && Carries(prompt, batches[r.value].prompt)
    ensures forall i | 0 <= i < (if r.Some? then r.value else |batches|) :: !Carries(prompt, batches[i].prompt)
  {
    if batches == [] then None
    else if Carries(prompt, batches[0].prompt) then Some(0)
    else
      var r := FindBatch(batches[1..], prompt);
      if r.None? then None else Some(r.value + 1)
  }

  /** `Map.set`: a known prompt keeps its place. */
  function PutBatch(batches: seq<Batch>, b: Batch): seq<Batch> {
    if batches == [] then [b]
    else if batches[0].prompt == b.prompt then [b] + batches[1..]
    else [batches[0]] + PutBatch(batches[1..], b)
  }

  /** A message carries a batch if it is the batch, or ends with it as caller guidance. */
  lemma CarriesIff(prompt: Text, batch: Text)
    ensures Carries(prompt, batch) <==> prompt == batch || exists before: Text :: prompt == before + "\n\nCaller guidance:\n" + batch
  {
    var tail := HEADING + batch;
    if EndsWith(prompt, tail) { assert prompt == prompt[..|prompt| - |tail|] + HEADING + batch; }
    if before: Text :| prompt == before + "\n\nCaller guidance:\n" + batch { assert prompt == before + tail; }
  }

  /** Remembering a batch replaces the one with the same prompt, if there is one, and keeps every other. */
  lemma {:induction false} PutBatchIs(batches: seq<Batch>, b: Batch) returns (i: nat)
    ensures var r := PutBatch(batches, b);
      && i <= |batches| && (forall j | 0 <= j < i :: batches[j].prompt != b.prompt) && (i < |batches| ==> batches[i].prompt == b.prompt)
      && r == batches[..i] + [b] + batches[if i < |batches| then i + 1 else i..]
  {
    if batches == [] || batches[0].prompt == b.prompt {
      i := 0;
    } else {
      var j := PutBatchIs(batches[1..], b);
      i := j + 1;
      assert batches[..i] == [batches[0]] + batches[1..][..j];
    }
  }

  lemma TakeOneBag(s: seq<Text>, text: Text)
    ensures text in s ==> multiset(s) == multiset(RemoveFirst(s, text)) + multiset{text}
  {
    RemoveFirstBag(s, text);
  }

  class SubagentMailbox {
    var brainAttached: bool
    var reviewing: bool
    var accepting: bool
    var pending: seq<Text>
    var updates: seq<Text>
    var unrecorded: seq<Text>
    var combinedGuidance: seq<Batch>
    var delivery: seq<Text>
    var flying: Option<Flight>
    /** The brain's queue, as `clearQueue` empties it. */
    var queue: seq<Text>
    ghost var audited: multiset<Text>

    ghost function View(): Mail
      reads this
    {
      Mail(brainAttached, reviewing, accepting, pending, updates, delivery, flying, queue)
    }

    /** Every accepted text is audited or still to be audited, and never both. */
    ghost predicate Valid()
      reads this
    {
      audited + multiset(unrecorded) == multiset(updates)
    }

    constructor ()
      ensures View() == START.mail && Valid()
    {
      brainAttached, reviewing, accepting := false, false, true;
      pending, updates, unrecorded, combinedGuidance, delivery, flying, queue := [], [], [], [], [], None, [];
      audited := multiset{};
    }

    /** The synchronous part of `send`: refused, or recorded, pending, and chained for delivery. */
    method Send(text: Text) returns (r: Result<(), SendError>)
      requires Valid()
      modifies this`updates, this`unrecorded, this`pending, this`delivery
      ensures Valid() && unrecorded == if r.Ok? then old(unrecorded) + [text] else old(unrecorded)
      ensures r.Ok? <==> old(Admits(View()))
      ensures View() == if r.Ok? then GuidanceRace.Send(old(View()), text) else old(View())
    {
      if !accepting { return Err(Finishing); }
      if |updates| >= 32 { return Err(LimitReached); }
      updates, unrecorded, pending, delivery := updates + [text], unrecorded + [text], pending + [text], delivery + [text];
      r := Ok(());
    }

    /** A delivery callback, up to its `await brain.steer`. */
    method StartDelivery()
      requires Valid() && delivery != [] && flying.None?
      modifies this`delivery, this`flying
      ensures Valid() && View() == RunDelivery(old(View()))
    {
      var text := delivery[0];
      delivery := delivery[1..];
      if !brainAttached || reviewing || !accepting { return; }
      flying := Some(Flight(text, false));
    }

    /** The callback after its await: a delivered text leaves `pending`. */
    method SteerSettled()
      requires Valid() && flying.Some?
      modifies this`pending, this`flying
      ensures Valid() && View() == SettleSteer(old(View()))
    {
      if flying.value.queued { pending := RemoveFirst(pending, flying.value.text); }
      flying := None;
    }

    /** `takePending` after its await: queued and pending texts together, in that order. */
    method TakePending() returns (prompt: Option<Text>, ghost messages: seq<Text>)
      requires Valid()
      modifies this`queue, this`pending, this`combinedGuidance
      ensures Valid() && View() == Taken(old(View()))
      ensures messages == old(Messages(View())) && (prompt.None? <==> messages == [])
      ensures prompt.Some? ==> prompt.value == Join(messages, "\n\n") && forall k | 0 <= k < |messages| :: Contains(prompt.value, messages[k])
      ensures combinedGuidance == if prompt.Some? then PutBatch(old(combinedGuidance), Batch(Combined(messages), messages)) else old(combinedGuidance)
    {
      var all := queue + pending;
      queue, pending := [], [];
      messages := all;
      if |all| == 0 { return None, messages; }
      prompt := Some(Combined(all));
      forall k | 0 <= k < |all| ensures Contains(prompt.value, all[k]) { var i := JoinContains(all, "\n\n", k); }
      combinedGuidance := PutBatch(combinedGuidance, Batch(prompt.value, all));
    }

    /** Refuses while guidance is pending; once sealed, no `send` is accepted any more. */
    method Seal() returns (sealed: bool)
      requires Valid()
      modifies this`accepting
      ensures Valid() && sealed == (pending == [])
      ensures sealed ==> Some(View()) == GuidanceRace.Seal(old(View())) && !Admits(View())
      ensures !sealed ==> View() == old(View())
    {
      if |pending| > 0 { return false; }
      accepting := false;
      sealed := true;
    }

    /**
     `consumeGuidance`: the texts a consumed user message delivers are audited, each of them as often
     as it was accepted and not audited before, and no more. A batch found is forgotten.
     */
    method ConsumeGuidance(prompt: Text) returns (consumed: seq<Text>, ghost delivered: seq<Text>)
      requires Valid()
      modifies this`combinedGuidance, this`unrecorded, this`audited
      ensures Valid() && audited == old(audited) + multiset(consumed)
      ensures var at := FindBatch(old(combinedGuidance), prompt);
        && delivered == (if at.None? then [prompt] else old(combinedGuidance)[at.value].messages)
        && combinedGuidance == if at.None? then old(combinedGuidance)
                               else old(combinedGuidance)[..at.value] + old(combinedGuidance)[at.value + 1..]
      ensures multiset(consumed) == multiset(delivered) * multiset(old(unrecorded))
      ensures multiset(unrecorded) == multiset(old(unrecorded)) - multiset(consumed)
    {
      var texts := LookUp(prompt);
      delivered := texts;
      consumed := Consume(texts);
      audited := audited + multiset(consumed);
    }

    /** The batch the message carries, which is then forgotten; else the message itself. */
    method LookUp(prompt: Text) returns (texts: seq<Text>)
      modifies this`combinedGuidance
      ensures var at, was := FindBatch(old(combinedGuidance), prompt), old(combinedGuidance);
        && texts == (if at.None? then [prompt] else was[at.value].messages)
        && combinedGuidance == if at.None? then was else was[..at.value] + was[at.value + 1..]
    {
      hide Carries;
      var i := FindIndex(prompt);
      if i == |combinedGuidance| { return [prompt]; }
      texts := combinedGuidance[i].messages;
      combinedGuidance := combinedGuidance[..i] + combinedGuidance[i + 1..];
    }

    method FindIndex(prompt: Text) returns (i: nat)
      ensures i <= |combinedGuidance| && FindBatch(combinedGuidance, prompt) == if i < |combinedGuidance| then Some(i) else None
    {
      hide Carries;
      i := 0;
      while i < |combinedGuidance| && !Carries(prompt, combinedGuidance[i].prompt)
        invariant i <= |combinedGuidance| && forall j | 0 <= j < i :: !Carries(prompt, combinedGuidance[j].prompt)
      {
        i := i + 1;
      }
    }

    method Consume(texts: seq<Text>) returns (consumed: seq<Text>)
      modifies this`unrecorded
      ensures multiset(consumed) + multiset(unrecorded) == multiset(old(unrecorded))
      ensures multiset(consumed) == multiset(texts) * multiset(old(unrecorded))
    {
      consumed := [];
      ghost var was := multiset(unrecorded);
      for i := 0 to |texts|
        invariant multiset(consumed) + multiset(unrecorded) == was
        invariant multiset(consumed) == multiset(texts[..i]) * was
      {
        assert texts[..i + 1] == texts[..i] + [texts[i]];
        if texts[i] in unrecorded {
          TakeOneBag(unrecorded, texts[i]);
          unrecorded := RemoveFirst(unrecorded, texts[i]);
          consumed := consumed + [texts[i]];
        }
      }
      assert texts[..|texts|] == texts;
    }
  }
}
