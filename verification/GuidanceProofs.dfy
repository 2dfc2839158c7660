/** The bound on turns, and that no accepted guidance is missed. */
module GuidanceProofs {
  import opened Wrappers
  import opened GuidanceRace

  // ---------------------------------------------------------------- counting

  /** The size of the union of two bags that keeps the larger count of each text. */
  ghost function Cover(a: multiset<Text>, b: multiset<Text>): nat { |a| + |b - a| }

  lemma SubBag(a: multiset<Text>, b: multiset<Text>)
    requires a <= b
    ensures |a| <= |b|
  {
    assert b == a + (b - a);
  }

  lemma CoverBoth(a: multiset<Text>, b: multiset<Text>, x: Text)
    ensures Cover(a + multiset{x}, b + multiset{x}) == Cover(a, b) + 1
  {
    assert (b + multiset{x}) - (a + multiset{x}) == b - a;
  }

  lemma CoverLess(a: multiset<Text>, b: multiset<Text>, c: multiset<Text>)
    requires c <= b
    ensures Cover(a, c) <= Cover(a, b) && |c| <= Cover(a, c)
  {
    assert c - a <= b - a;
    SubBag(c - a, b - a);
    assert c <= a + (c - a);
    SubBag(c, a + (c - a));
  }

  lemma CoverMove(a: multiset<Text>, b: multiset<Text>, x: Text)
    ensures Cover(a - multiset{x}, b) + 1 == Cover(a, b + multiset{x})
  {
    if x in a {
      assert a == (a - multiset{x}) + multiset{x};
      assert (b + multiset{x}) - a == b - (a - multiset{x});
    } else {
      assert a - multiset{x} == a;
      assert (b + multiset{x}) - a == (b - a) + multiset{x};
    }
  }

  // ---------------------------------------------------------------- the invariant

  ghost function Queued(m: Mail): multiset<Text> {
    if m.flying.Some? && m.flying.value.queued then multiset{m.flying.value.text} else multiset{}
  }

  /** Pending texts, without the one a queued steer is about to remove. */
  ghost function Pending(m: Mail): multiset<Text> {
    if m.flying.Some? && m.flying.value.queued then multiset(m.pending) - multiset{m.flying.value.text} else multiset(m.pending)
  }

  /** Callbacks that can start after the review is over, and so may still steer. */
  function Later(m: Mail, pc: Pc): seq<Text> {
    if !m.reviewing || pc.Armed? then m.chain
    else if pc.TopTaking? && pc.mustRun <= |m.chain| then m.chain[pc.mustRun..]
    else []
  }

  ghost function Open(m: Mail, pc: Pc): multiset<Text> {
    if m.flying.Some? && !m.flying.value.queued then multiset(Later(m, pc)) + multiset{m.flying.value.text} else multiset(Later(m, pc))
  }

  /** Turns that guidance can still cause. */
  ghost function Chances(m: Mail, pc: Pc): nat { |m.queue| + Cover(Pending(m), Open(m, pc)) }

  predicate HasOwed(pc: Pc) { (pc.Top? || pc.TopTaking?) && pc.owed }

  /** A refused seal is paid for: something is pending that no callback will steer again. */
  ghost predicate Owed(m: Mail, pc: Pc) {
    var n := |Later(m, pc)|;
    m.reviewing && m.flying.None? && |m.pending| > n && m.pending[|m.pending| - n..] == Later(m, pc)
  }

  predicate InReview(pc: Pc) { pc.PostTaking? || pc.Judging? || pc.Assessing? || pc.FollowTaking? || pc.Deciding? }

  predicate BeforePrompt(pc: Pc) { pc.Top? || pc.TopTaking? || pc.Armed? }

  ghost predicate Flow(m: Mail, l: Loop) {
    && (InReview(l.pc) ==> m.reviewing) && (l.pc.Prompting? ==> !m.reviewing)
    && (m.reviewing && !l.pc.PostTaking? ==> m.flying.None? && m.queue == [])
    && (IsTaking(l.pc) ==> l.pc.mustRun <= |m.chain|)
    && l.prompts <= l.turn + 1 && (BeforePrompt(l.pc) ==> l.prompts == l.turn)
    && (l.pc.Prompting? || InReview(l.pc) ==> l.prompts == l.turn + 1 && l.carried == [])
    && (l.pc == Ended(Accepted) ==> !m.accepting && m.pending == [] && m.queue == [] && m.flying.None? && l.carried == [])
  }

  ghost predicate Counts(m: Mail, l: Loop) {
    && |m.updates| <= MAX_GUIDANCE && l.repairs <= 2 && l.pc != Ended(Exhausted)
    && l.turn == l.repairs + l.guided + (if HasOwed(l.pc) then 1 else 0)
    && (HasOwed(l.pc) ==> Owed(m, l.pc))
    && l.guided + Chances(m, l.pc) <= |m.updates|
  }

  /** A take that finds nothing but one empty text passes it over: the prompt made of it is empty. */
  function PassedOver(s: State, e: Event): nat { if e.TakeDone? && Messages(s.mail) == [""] then 1 else 0 }

  /** How often that happens in a run. */
  function EmptyTakes(s: State, events: seq<Event>): nat
    decreases |events|
  {
    if events == [] || Step(s, events[0]).None? then 0
    else PassedOver(s, events[0]) + EmptyTakes(Step(s, events[0]).value, events[1..])
  }

  /**
   Every text sent, and a queued steer's on top, is reached, carried by the next prompt, pending,
   queued, or one of the `passed` empty texts that were passed over.
   */
  ghost predicate Safe(sent: multiset<Text>, steered: multiset<Text>, reached: multiset<Text>, carried: multiset<Text>,
                       pending: multiset<Text>, queue: multiset<Text>, passed: nat)
  {
    forall x :: sent[x] + steered[x] <= reached[x] + carried[x] + pending[x] + queue[x] + if x == "" then passed else 0
  }

  ghost predicate NothingLost(m: Mail, l: Loop, passed: nat) {
    Safe(multiset(m.updates), Queued(m), l.reached, multiset(l.carried), multiset(m.pending), multiset(m.queue), passed)
  }

  ghost predicate Inv(s: State, passed: nat) {
    Flow(s.mail, s.loop) && Counts(s.mail, s.loop) && NothingLost(s.mail, s.loop, passed)
  }

  lemma StartInv()
    ensures Inv(START, 0)
  {
  }

  // ---------------------------------------------------------------- control flow

  predicate IsMailStep(e: Event) {
    e.Attached? || e.Sent? || e.DeliveryRun? || e.SteerQueued? || e.SteerSettled? || e.BrainReads? || e.Closed?
  }

  lemma MailFlow(s: State, e: Event)
    requires Flow(s.mail, s.loop) && IsMailStep(e)
    ensures Step(s, e).Some? ==> Flow(Step(s, e).value.mail, Step(s, e).value.loop)
  {
  }

  lemma TakeFlow(s: State)
    requires Flow(s.mail, s.loop) && Take(s).Some?
    ensures Flow(Take(s).value.mail, Take(s).value.loop)
  {
    hide Kept;
  }

  lemma DecideFlow(s: State)
    requires Flow(s.mail, s.loop) && Decide(s).Some?
    ensures Flow(Decide(s).value.mail, Decide(s).value.loop)
  {
  }

  lemma LoopFlow(s: State, e: Event)
    requires Flow(s.mail, s.loop) && !IsMailStep(e)
    ensures Step(s, e).Some? ==> Flow(Step(s, e).value.mail, Step(s, e).value.loop)
  {
    hide Take, Decide;
    if Step(s, e).Some? {
      if e.TakeDone? { TakeFlow(s); }
      if e.Decided? { DecideFlow(s); }
    }
  }

  lemma StepFlow(s: State, e: Event)
    requires Flow(s.mail, s.loop)
    ensures Step(s, e).Some? ==> Flow(Step(s, e).value.mail, Step(s, e).value.loop)
  {
    hide Flow, Step;
    if IsMailStep(e) { MailFlow(s, e); } else { LoopFlow(s, e); }
  }

  // ---------------------------------------------------------------- bags of texts

  lemma AppendBag(s: seq<Text>, x: Text)
    ensures multiset(s + [x]) == multiset(s) + multiset{x}
  {
  }

  lemma FirstBag(s: seq<Text>)
    requires s != []
    ensures multiset(s) == multiset{s[0]} + multiset(s[1..])
  {
    assert s == [s[0]] + s[1..];
  }

  lemma {:induction false} RemoveFirstBag(s: seq<Text>, text: Text)
    ensures multiset(RemoveFirst(s, text)) == multiset(s) - multiset{text}
  {
    if s != [] {
      FirstBag(s);
      if s[0] != text {
        RemoveFirstBag(s[1..], text);
        assert RemoveFirst(s, text)[1..] == RemoveFirst(s[1..], text);
        FirstBag(RemoveFirst(s, text));
      }
    }
  }

  // ---------------------------------------------------------------- each step against the count

  lemma SendOpens(m: Mail, pc: Pc, text: Text)
    requires IsTaking(pc) ==> pc.mustRun <= |m.chain|
    ensures Later(Send(m, text), pc) == Later(m, pc) || Later(Send(m, text), pc) == Later(m, pc) + [text]
  {
  }

  lemma SendPends(m: Mail, text: Text)
    ensures Pending(Send(m, text)) == Pending(m) || Pending(Send(m, text)) == Pending(m) + multiset{text}
  {
  }

  /** A new text adds one chance at most, however many equal texts are under way. */
  lemma SendCovers(a: multiset<Text>, a2: multiset<Text>, b: multiset<Text>, b2: multiset<Text>, x: Text)
    requires (a2 == a || a2 == a + multiset{x}) && (b2 == b || b2 == b + multiset{x})
    ensures Cover(a2, b2) <= Cover(a, b) + 1
  {
    CoverBoth(a, b, x);
    var all := b + multiset{x};
    CoverLess(a2, all, b2);
    if a2 == a { CoverUnder(a, all, x); }
  }

  lemma CoverUnder(a: multiset<Text>, b: multiset<Text>, x: Text)
    ensures Cover(a, b) <= Cover(a + multiset{x}, b)
  {
    assert a + (b - a) <= (a + multiset{x}) + (b - (a + multiset{x}));
    SubBag(a + (b - a), (a + multiset{x}) + (b - (a + multiset{x})));
  }

  lemma SendOwes(m: Mail, pc: Pc, text: Text)
    requires Owed(m, pc) && HasOwed(pc) && (IsTaking(pc) ==> pc.mustRun <= |m.chain|)
    ensures Owed(Send(m, text), pc)
  {
  }

  lemma SendCounts(s: State, text: Text)
    requires Flow(s.mail, s.loop) && Counts(s.mail, s.loop) && Admits(s.mail)
    ensures Counts(Send(s.mail, text), s.loop)
  {
    hide Cover, Pending, Later, Owed;
    var m, n, pc := s.mail, Send(s.mail, text), s.loop.pc;
    if HasOwed(pc) { SendOwes(m, pc, text); }
    SendOpens(m, pc, text);
    SendPends(m, text);
    AppendBag(Later(m, pc), text);
    SendCovers(Pending(m), Pending(n), Open(m, pc), Open(n, pc), text);
  }

  /** Fewer callbacks left to steer, everything else the same. */
  lemma FewerChances(m: Mail, pc: Pc, n: Mail, pc2: Pc)
    requires Open(n, pc2) <= Open(m, pc) && Pending(n) == Pending(m) && |n.queue| <= |m.queue|
    ensures Chances(n, pc2) <= Chances(m, pc)
  {
    hide Open, Pending;
    CoverLess(Pending(m), Open(m, pc), Open(n, pc2));
  }

  lemma DeliverOpens(s: State)
    requires Flow(s.mail, s.loop) && Deliver(s).Some?
    ensures var t := Deliver(s).value;
      Open(t.mail, t.loop.pc) <= Open(s.mail, s.loop.pc) && (HasOwed(s.loop.pc) && s.mail.reviewing ==> Later(t.mail, t.loop.pc) == Later(s.mail, s.loop.pc))
  {
    FirstBag(s.mail.chain);
    if s.loop.pc.TopTaking? {
      assert s.mail.chain[1..][s.loop.pc.mustRun - 1..] == s.mail.chain[s.loop.pc.mustRun..];
    }
  }

  lemma DeliverCounts(s: State)
    requires Flow(s.mail, s.loop) && Counts(s.mail, s.loop) && Deliver(s).Some?
    ensures Counts(Deliver(s).value.mail, Deliver(s).value.loop)
  {
    hide Cover, Later, Open, Chances;
    var t := Deliver(s).value;
    DeliverOpens(s);
    FewerChances(s.mail, s.loop.pc, t.mail, t.loop.pc);
  }

  lemma QueueSteerMoves(s: State)
    requires QueueSteer(s).Some?
    ensures var m, n, x := s.mail, QueueSteer(s).value.mail, s.mail.flying.value.text;
      && Open(m, s.loop.pc) == Open(n, s.loop.pc) + multiset{x} && Pending(n) == Pending(m) - multiset{x}
      && |n.queue| == |m.queue| + 1
  {
  }

  lemma QueueSteerCounts(s: State)
    requires Flow(s.mail, s.loop) && Counts(s.mail, s.loop) && QueueSteer(s).Some?
    ensures Counts(QueueSteer(s).value.mail, QueueSteer(s).value.loop)
  {
    hide Cover, Open, Pending;
    var m, n := s.mail, QueueSteer(s).value.mail;
    QueueSteerMoves(s);
    CoverMove(Pending(m), Open(n, s.loop.pc), s.mail.flying.value.text);
  }

  lemma SettleSteerPends(m: Mail)
    requires m.flying.Some?
    ensures Pending(SettleSteer(m)) == Pending(m)
  {
    hide RemoveFirst;
    var x, n := m.flying.value.text, SettleSteer(m);
    if m.flying.value.queued {
      RemoveFirstBag(m.pending, x);
      assert n.pending == RemoveFirst(m.pending, x) && n.flying.None?;
      assert Pending(n) == multiset(n.pending);
      assert Pending(m) == multiset(m.pending) - multiset{x};
    }
  }

  lemma SettleSteerOpens(m: Mail, pc: Pc)
    requires m.flying.Some?
    ensures Open(SettleSteer(m), pc) <= Open(m, pc)
  {
  }

  lemma SettleSteerCounts(s: State)
    requires Flow(s.mail, s.loop) && Counts(s.mail, s.loop) && s.mail.flying.Some?
    ensures Counts(SettleSteer(s.mail), s.loop)
  {
    hide Cover, Open, Pending, Chances;
    SettleSteerPends(s.mail);
    SettleSteerOpens(s.mail, s.loop.pc);
    FewerChances(s.mail, s.loop.pc, SettleSteer(s.mail), s.loop.pc);
  }

  lemma NoChances(m: Mail, pc: Pc)
    requires m.flying.None?
    ensures Chances(m, pc) >= |m.queue| + |m.pending| && (Later(m, pc) == [] ==> Chances(m, pc) == |m.queue| + |m.pending|)
    ensures m.queue == [] && m.pending == [] ==> Chances(m, pc) == |Later(m, pc)|
    ensures Chances(m, pc) >= |Later(m, pc)|
  {
  }

  /** A take after a prompt or an assessment: every message is one chance used up. */
  lemma TakeCountsReview(s: State)
    requires Flow(s.mail, s.loop) && Counts(s.mail, s.loop) && Take(s).Some? && !s.loop.pc.TopTaking?
    ensures Counts(Take(s).value.mail, Take(s).value.loop)
  {
    hide Chances;
    NoChances(s.mail, s.loop.pc);
    NoChances(Take(s).value.mail, Take(s).value.loop.pc);
  }

  /** The take at the top: callbacks sent meanwhile may steer again, older texts are used up. */
  lemma TakeCountsTop(s: State)
    requires Flow(s.mail, s.loop) && Counts(s.mail, s.loop) && Take(s).Some? && s.loop.pc.TopTaking?
    ensures Counts(Take(s).value.mail, Take(s).value.loop)
  {
    hide Chances;
    NoChances(s.mail, s.loop.pc);
    NoChances(Take(s).value.mail, Take(s).value.loop.pc);
  }

  /** The remaining steps move the loop on; no callback gains the right to steer. */
  lemma LaterShrinks(s: State, e: Event)
    requires Flow(s.mail, s.loop) && Step(s, e).Some?
    requires e.TopCalled? || e.PromptBegun? || e.PromptEnded? || e.Judged? || e.Assessed? || e.Decided? || e.BrainReads? || e.Attached? || e.Closed?
    ensures var t := Step(s, e).value;
      && (Later(t.mail, t.loop.pc) == Later(s.mail, s.loop.pc) || Later(t.mail, t.loop.pc) == [])
      && t.mail.pending == s.mail.pending && t.mail.flying == s.mail.flying && |t.mail.queue| <= |s.mail.queue|
      && t.mail.updates == s.mail.updates
  {
  }

  lemma LoopCounts(s: State, e: Event)
    requires Flow(s.mail, s.loop) && Counts(s.mail, s.loop) && Step(s, e).Some?
    requires e.PromptBegun? || e.PromptEnded? || e.Judged? || e.Assessed? || e.BrainReads? || e.Attached? || e.Closed?
    ensures Counts(Step(s, e).value.mail, Step(s, e).value.loop)
  {
    hide Chances, Later, Flow;
    var t := Step(s, e).value;
    LaterShrinks(s, e);
    OpenShrinks(s.mail, s.loop.pc, t.mail, t.loop.pc);
    if e.Attached? || e.Closed? { LaterIsStable(s.mail, t.mail, s.loop.pc); }
  }

  lemma LaterIsStable(m: Mail, n: Mail, pc: Pc)
    requires n.reviewing == m.reviewing && n.chain == m.chain
    ensures Later(n, pc) == Later(m, pc)
  {
  }

  /** The turn budget is never used up. */
  lemma CallTopCounts(s: State)
    requires Flow(s.mail, s.loop) && Counts(s.mail, s.loop) && CallTop(s).Some?
    ensures Counts(CallTop(s).value.mail, CallTop(s).value.loop)
  {
    hide Chances;
    var t := CallTop(s).value;
    LaterShrinks(s, TopCalled);
    OpenShrinks(s.mail, s.loop.pc, t.mail, t.loop.pc);
    NoOwedBudget(s);
  }

  lemma NoOwedBudget(s: State)
    requires Counts(s.mail, s.loop)
    ensures s.loop.turn < MAX_TURNS
  {
  }

  lemma OpenShrinks(m: Mail, pc: Pc, n: Mail, pc2: Pc)
    requires Later(n, pc2) == Later(m, pc) || Later(n, pc2) == []
    requires n.pending == m.pending && n.flying == m.flying && |n.queue| <= |m.queue|
    ensures Chances(n, pc2) <= Chances(m, pc)
  {
  }

  lemma DecideCounts(s: State)
    requires Flow(s.mail, s.loop) && Counts(s.mail, s.loop) && Decide(s).Some?
    ensures Counts(Decide(s).value.mail, Decide(s).value.loop)
  {
    hide Chances;
    var t := Decide(s).value;
    OpenShrinks(s.mail, s.loop.pc, t.mail, t.loop.pc);
  }

  // ---------------------------------------------------------------- no text is lost on the way

  lemma SendLosesNothing(m: Mail, l: Loop, text: Text, passed: nat)
    requires NothingLost(m, l, passed)
    ensures NothingLost(Send(m, text), l, passed)
  {
  }

  lemma SteerLosesNothing(s: State, passed: nat)
    requires NothingLost(s.mail, s.loop, passed) && QueueSteer(s).Some?
    ensures NothingLost(QueueSteer(s).value.mail, QueueSteer(s).value.loop, passed)
  {
  }

  lemma SettleLosesNothing(m: Mail, l: Loop, passed: nat)
    requires NothingLost(m, l, passed) && m.flying.Some?
    ensures NothingLost(SettleSteer(m), l, passed)
  {
    hide Safe, RemoveFirst;
    var x, n := m.flying.value.text, SettleSteer(m);
    assert Queued(n) == multiset{};
    if m.flying.value.queued {
      RemoveFirstBag(m.pending, x);
      assert n.pending == RemoveFirst(m.pending, x) && Queued(m) == multiset{x};
      SafeSettle(multiset(m.updates), l.reached, multiset(l.carried), multiset(m.pending), multiset(m.queue), x, passed);
    }
  }

  lemma SafeSettle(u: multiset<Text>, r: multiset<Text>, c: multiset<Text>, p: multiset<Text>, b: multiset<Text>, x: Text, passed: nat)
    requires Safe(u, multiset{x}, r, c, p, b, passed)
    ensures Safe(u, multiset{}, r, c, p - multiset{x}, b, passed)
  {
  }

  lemma ReadLosesNothing(s: State, passed: nat)
    requires NothingLost(s.mail, s.loop, passed) && ReadSteer(s).Some?
    ensures NothingLost(ReadSteer(s).value.mail, ReadSteer(s).value.loop, passed)
  {
    hide Safe;
    var m, l := s.mail, s.loop;
    FirstBag(m.queue);
    SafeRead(multiset(m.updates), Queued(m), l.reached, multiset(l.carried), multiset(m.pending), multiset(m.queue[1..]), m.queue[0], passed);
  }

  lemma PromptLosesNothing(s: State, stopped: bool, passed: nat)
    requires NothingLost(s.mail, s.loop, passed) && BeginPrompt(s, stopped).Some?
    ensures NothingLost(BeginPrompt(s, stopped).value.mail, BeginPrompt(s, stopped).value.loop, passed)
  {
  }

  /** The other steps move no text; a decision starts the next turn with nothing to carry. */
  lemma OtherStepsMoveNoText(s: State, e: Event)
    requires Flow(s.mail, s.loop) && Step(s, e).Some?
    requires !(e.Sent? || e.SteerQueued? || e.SteerSettled? || e.BrainReads? || e.PromptBegun? || e.TakeDone?)
    ensures var t := Step(s, e).value;
      && t.mail.updates == s.mail.updates && t.mail.pending == s.mail.pending && t.mail.queue == s.mail.queue
      && t.loop.reached == s.loop.reached && t.loop.carried == s.loop.carried && Queued(t.mail) == Queued(s.mail)
  {
  }

  lemma SafeRead(u: multiset<Text>, q: multiset<Text>, r: multiset<Text>, c: multiset<Text>, p: multiset<Text>, b: multiset<Text>, x: Text, passed: nat)
    requires Safe(u, q, r, c, p, multiset{x} + b, passed)
    ensures Safe(u, q, r + multiset{x}, c, p, b, passed)
  {
  }

  lemma SafeTake(u: multiset<Text>, r: multiset<Text>, c: multiset<Text>, p: multiset<Text>, b: multiset<Text>, kept: multiset<Text>,
                 passed: nat, more: nat)
    requires Safe(u, multiset{}, r, c, p, b, passed) && forall x :: b[x] + p[x] <= kept[x] + if x == "" then more else 0
    ensures Safe(u, multiset{}, r, c + kept, multiset{}, multiset{}, passed + more)
  {
  }

  /** A take keeps every message it finds, unless all it finds is one empty text. */
  lemma TakeLosesIff(m: Mail)
    ensures multiset(Kept(m)) == multiset(Messages(m)) <==> Messages(m) != [""]
    ensures Messages(m) == [""] ==> multiset(Messages(m)) == multiset(Kept(m)) + multiset{""}
  {
    if Messages(m) == [""] { assert "" in multiset(Messages(m)); }
  }

  lemma TakeCarries(s: State)
    requires Flow(s.mail, s.loop) && Take(s).Some?
    ensures var t := Take(s).value;
      && t.loop.carried == s.loop.carried + Kept(s.mail) && t.loop.reached == s.loop.reached
      && t.mail == Taken(s.mail) && Queued(s.mail) == multiset{} == Queued(t.mail)
  {
  }

  lemma TakeLosesNothing(s: State, passed: nat)
    requires Flow(s.mail, s.loop) && NothingLost(s.mail, s.loop, passed) && Take(s).Some?
    ensures NothingLost(Take(s).value.mail, Take(s).value.loop, passed + PassedOver(s, TakeDone))
  {
    hide Kept, Safe, Flow, Take, Queued;
    var m, l, t := s.mail, s.loop, Take(s).value;
    TakeCarries(s);
    TakeLosesIff(m);
    assert multiset(Messages(m)) == multiset(m.queue) + multiset(m.pending);
    SafeTake(multiset(m.updates), l.reached, multiset(l.carried), multiset(m.pending), multiset(m.queue), multiset(Kept(m)),
             passed, PassedOver(s, TakeDone));
    assert multiset(t.loop.carried) == multiset(l.carried) + multiset(Kept(m));
  }

  // ---------------------------------------------------------------- what each event does

  /** A text is recorded, pending and chained for delivery, unless the mailbox is closed or has taken 32 already. */
  lemma SendEffect(s: State, text: Text)
    ensures var t, m := Step(s, Sent(text)), s.mail;
      && (t.Some? <==> m.accepting && |m.updates| < 32)
      && (t.Some? ==> t.value == s.(mail := m.(updates := m.updates + [text], pending := m.pending + [text], chain := m.chain + [text])))
  {
  }

  /** The run begins once the brain is attached; a closed mailbox takes no text. */
  lemma OpenEffect(s: State)
    ensures Step(s, Attached) == Some(s.(mail := s.mail.(attached := true)))
    ensures var t := Step(s, Closed); t.Some? && !t.value.mail.accepting && t.value.loop == s.loop && t.value.mail.pending == s.mail.pending
    ensures var t := Step(s, TopCalled);
      && (t.Some? <==> s.loop.pc.Top? && s.mail.attached)
      && (t.Some? && s.loop.turn < 36 ==> t.value.loop.pc == TopTaking(|s.mail.chain|, s.loop.pc.owed) && t.value.mail == s.mail)
  {
  }

  /** The oldest chained text is steered if the brain is there, open and at work; the steer then queues it, and settles. */
  lemma DeliveryEffect(s: State)
    requires Flow(s.mail, s.loop)
    ensures var t, m := Step(s, DeliveryRun), s.mail;
      && (m.chain != [] && m.flying.None? && !IsTaking(s.loop.pc) ==> t.Some?)
      && (t.Some? ==>
            && t.value.mail.chain == m.chain[1..] && t.value.mail.pending == m.pending && t.value.mail.queue == m.queue
            && t.value.mail.flying == (if m.attached && !m.reviewing && m.accepting then Some(Flight(m.chain[0], false)) else None))
    ensures var t, m := Step(s, SteerQueued), s.mail;
      && (t.Some? <==> m.flying.Some? && !m.flying.value.queued)
      && (t.Some? ==> t.value == s.(mail := m.(queue := m.queue + [m.flying.value.text], flying := Some(Flight(m.flying.value.text, true)))))
    ensures var t, m := Step(s, SteerSettled), s.mail;
      && (t.Some? <==> m.flying.Some?)
      && (t.Some? ==>
            && t.value.mail.flying.None? && t.value.mail.queue == m.queue && t.value.mail.chain == m.chain
            && multiset(t.value.mail.pending) == multiset(m.pending) - if m.flying.value.queued then multiset{m.flying.value.text} else multiset{})
    ensures var t, m := Step(s, BrainReads), s.mail;
      && (t.Some? <==> s.loop.pc.Prompting? && m.queue != [])
      && (t.Some? ==> t.value.mail.queue == m.queue[1..] && t.value.loop.reached == s.loop.reached + multiset{m.queue[0]})
  {
    if s.mail.flying.Some? { RemoveFirstBag(s.mail.pending, s.mail.flying.value.text); }
  }

  /** A take empties queue and pending, queue first, and what it found starts another turn, or goes with the next prompt. */
  lemma TakeEffect(s: State)
    requires TakeReady(s.mail, s.loop.pc)
    ensures var t := Step(s, TakeDone).value; var found := s.mail.queue + s.mail.pending; var kept := if found == [""] then [] else found;
      && t.mail == s.mail.(queue := [], pending := [])
      && t.loop.carried == if s.loop.pc.TopTaking? then s.loop.carried + kept else if kept == [] then s.loop.carried else kept
    ensures var t := Step(s, TakeDone).value; var found := s.mail.queue + s.mail.pending; var kept := if found == [""] then [] else found;
      match s.loop.pc
      case TopTaking(_, _) => t.loop.pc == Armed
      case PostTaking(_) => t.loop.pc == (if kept == [] then Judging else Top(false)) && t.loop.turn == s.loop.turn + (if kept == [] then 0 else 1)
      case FollowTaking(_, v) => t.loop.pc == (if kept == [] then Deciding(v) else Top(false)) && t.loop.turn == s.loop.turn + (if kept == [] then 0 else 1)
      case _ => false
  {
    TakeLosesIff(s.mail);
  }

  /** A prompt reaches the brain with all it carries; its end opens the review. */
  lemma PromptEffect(s: State, stopped: bool)
    ensures var t := Step(s, PromptBegun(stopped));
      && (t.Some? <==> s.loop.pc.Armed?)
      && (t.Some? ==> !t.value.mail.reviewing && t.value.loop.pc == if stopped then Ended(Stopped) else Prompting)
      && (t.Some? && !stopped ==>
            t.value.loop.reached == s.loop.reached + multiset(s.loop.carried) && t.value.loop.carried == [] && t.value.loop.prompts == s.loop.prompts + 1)
    ensures var t := Step(s, PromptEnded(stopped));
      && (t.Some? <==> s.loop.pc.Prompting?)
      && (t.Some? ==> t.value.loop.pc == if stopped then Ended(Stopped) else PostTaking(|s.mail.chain|))
      && (t.Some? && !stopped ==> t.value.mail == s.mail.(reviewing := true))
  {
  }

  /** The review: an error fails the run, an output limit counts as incomplete, otherwise the assessor decides. */
  lemma ReviewEffect(s: State, stop: Stop, verdict: Option<Verdict>, stopped: bool)
    ensures var t := Step(s, Judged(stop, stopped));
      && (t.Some? <==> s.loop.pc.Judging?)
      && (t.Some? ==> t.value.mail == s.mail)
      && (t.Some? && stop.Aborted? ==> t.value.loop.pc == Ended(Failed))
      && (t.Some? && stop.Length? ==> t.value.loop.pc == if stopped then Ended(Stopped) else FollowTaking(|s.mail.chain|, Incomplete))
      && (t.Some? && stop.Normal? ==> t.value.loop.pc == if stop.assessor then Assessing else Ended(Failed))
    ensures var t := Step(s, Assessed(verdict, stopped));
      && (t.Some? <==> s.loop.pc.Assessing?)
      && (t.Some? ==> t.value.mail == s.mail)
      && (t.Some? && verdict.None? ==> t.value.loop.pc == Ended(Failed))
      && (t.Some? && verdict.Some? ==> t.value.loop.pc == if stopped then Ended(Stopped) else FollowTaking(|s.mail.chain|, verdict.value))
  {
  }

  /** The decision: final verdicts and a third failure seal the mailbox, unless something is pending, which gets a turn; others get a repair. */
  lemma DecideEffect(s: State, v: Verdict)
    requires s.loop.pc == Deciding(v)
    ensures var t := Step(s, Decided).value; var final := v == Complete || v == Blocked || s.loop.repairs == 2;
      && (final && s.mail.pending == [] ==>
            t.mail == s.mail.(accepting := false) && t.loop.pc == Ended(if v == Complete then Accepted else Declined) && t.loop.repairs == s.loop.repairs)
      && (final && s.mail.pending != [] ==>
            t.mail == s.mail && t.loop.pc == Top(true) && t.loop.turn == s.loop.turn + 1 && t.loop.repairs == s.loop.repairs)
      && (!final ==>
            t.mail == s.mail && t.loop.pc == Top(false) && t.loop.turn == s.loop.turn + 1 && t.loop.repairs == s.loop.repairs + 1)
  {
  }

  // ---------------------------------------------------------------- every run

  lemma StepCounts(s: State, e: Event)
    requires Flow(s.mail, s.loop) && Counts(s.mail, s.loop)
    ensures Step(s, e).Some? ==> Counts(Step(s, e).value.mail, Step(s, e).value.loop)
  {
    hide Flow, Counts, Deliver, QueueSteer, SettleSteer, ReadSteer, CallTop, Take, BeginPrompt, EndPrompt, Judge, Assess, Decide, Send;
    if Step(s, e).Some? {
      match e {
        case Sent(text) => SendCounts(s, text);
        case DeliveryRun => DeliverCounts(s);
        case SteerQueued => QueueSteerCounts(s);
        case SteerSettled => SettleSteerCounts(s);
        case TakeDone => if s.loop.pc.TopTaking? { TakeCountsTop(s); } else { TakeCountsReview(s); }
        case Decided => DecideCounts(s);
        case TopCalled => CallTopCounts(s);
        case _ => LoopCounts(s, e);
      }
    }
  }

  lemma StepLosesNothing(s: State, e: Event, passed: nat)
    requires Flow(s.mail, s.loop) && NothingLost(s.mail, s.loop, passed)
    ensures Step(s, e).Some? ==> NothingLost(Step(s, e).value.mail, Step(s, e).value.loop, passed + PassedOver(s, e))
  {
    hide Flow, Safe, Queued, Deliver, QueueSteer, SettleSteer, ReadSteer, CallTop, Take, BeginPrompt, EndPrompt, Judge, Assess, Decide, Send;
    if Step(s, e).Some? {
      match e {
        case Sent(text) => SendLosesNothing(s.mail, s.loop, text, passed);
        case SteerQueued => SteerLosesNothing(s, passed);
        case SteerSettled => SettleLosesNothing(s.mail, s.loop, passed);
        case BrainReads => ReadLosesNothing(s, passed);
        case PromptBegun(stopped) => PromptLosesNothing(s, stopped, passed);
        case TakeDone => TakeLosesNothing(s, passed);
        case _ => OtherStepsMoveNoText(s, e);
      }
    }
  }

  lemma StepKeeps(s: State, e: Event, passed: nat)
    requires Inv(s, passed)
    ensures Step(s, e).Some? ==> Inv(Step(s, e).value, passed + PassedOver(s, e))
  {
    hide Flow, Counts, NothingLost, Step, PassedOver;
    StepFlow(s, e);
    StepCounts(s, e);
    StepLosesNothing(s, e, passed);
  }

  lemma {:induction false} RunKeeps(s: State, events: seq<Event>, passed: nat)
    requires Inv(s, passed)
    ensures Run(s, events).Some? ==> Inv(Run(s, events).value, passed + EmptyTakes(s, events))
    decreases |events|
  {
    hide Inv, Step, PassedOver;
    if events != [] && Step(s, events[0]).Some? {
      StepKeeps(s, events[0], passed);
      RunKeeps(Step(s, events[0]).value, events[1..], passed + PassedOver(s, events[0]));
    }
  }

  /** At most 35 prompts: one, two repairs, and one for each of 32 texts; the turn budget is never used up. */
  lemma AtMost35Prompts(events: seq<Event>)
    requires Run(START, events).Some?
    ensures var l := Run(START, events).value.loop;
      l.prompts <= 35 && l.turn < 36 && l.pc != Ended(Exhausted)
  {
    StartInv();
    RunKeeps(START, events, 0);
    var s := Run(START, events).value;
    NoOwedBudget(s);
  }

  /**
   An accepted run is sealed with nothing pending, and every text a caller got in has reached the
   brain as often as it was sent, but for one empty text per take that found nothing else. So all of
   it was read in every run in which no take finds exactly one empty text.
   */
  lemma AcceptedMeansEverythingWasRead(events: seq<Event>)
    requires Run(START, events).Some? && Run(START, events).value.loop.pc == Ended(Accepted)
    ensures var s := Run(START, events).value;
      && !s.mail.accepting && s.mail.pending == [] && s.mail.queue == []
      && (forall x :: multiset(s.mail.updates)[x] <= s.loop.reached[x] + if x == "" then EmptyTakes(START, events) else 0)
      && (EmptyTakes(START, events) == 0 ==> multiset(s.mail.updates) <= s.loop.reached)
  {
    StartInv();
    RunKeeps(START, events, 0);
  }

  /** Only texts that were sent are in `updates`. */
  lemma {:induction false} UpdatesWereSent(s: State, events: seq<Event>, x: Text)
    requires Run(s, events).Some? && Sent(x) !in events
    ensures multiset(Run(s, events).value.mail.updates)[x] == multiset(s.mail.updates)[x]
    decreases |events|
  {
    if events != [] {
      var t := Step(s, events[0]).value;
      assert multiset(t.mail.updates)[x] == multiset(s.mail.updates)[x];
      UpdatesWereSent(t, events[1..], x);
    }
  }

  /** The caller refuses blank texts, so in the program an accepted run has brought every text to the brain, as often as it was sent. */
  lemma AcceptedMeansAllGuidanceWasRead(events: seq<Event>)
    requires Run(START, events).Some? && Run(START, events).value.loop.pc == Ended(Accepted) && Sent("") !in events
    ensures multiset(Run(START, events).value.mail.updates) <= Run(START, events).value.loop.reached
  {
    AcceptedMeansEverythingWasRead(events);
    UpdatesWereSent(START, events, "");
  }

  lemma {:induction false} Extend(s: State, events: seq<Event>, mid: State, e: Event)
    requires Run(s, events) == Some(mid)
    ensures Run(s, events + [e]) == Step(mid, e)
    ensures Step(mid, e).Some? ==> EmptyTakes(s, events + [e]) == EmptyTakes(s, events) + PassedOver(mid, e)
    decreases |events|
  {
    if events == [] {
      assert [e][1..] == [];
    } else {
      assert (events + [e])[1..] == events[1..] + [e];
      Extend(Step(s, events[0]).value, events[1..], mid, e);
    }
  }

  lemma Then(events: seq<Event>, s: State, e: Event) returns (longer: seq<Event>, t: State)
    requires Run(START, events) == Some(s) && Step(s, e).Some?
    ensures t == Step(s, e).value && Run(START, longer) == Some(t)
    ensures EmptyTakes(START, longer) == EmptyTakes(START, events) + PassedOver(s, e)
  {
    Extend(START, events, s, e);
    longer, t := events + [e], Step(s, e).value;
  }

  lemma NoEvents()
    ensures Run(START, []) == Some(START) && EmptyTakes(START, []) == 0
  {
  }

  lemma EmptyTextTaken() returns (events: seq<Event>, s: State)
    ensures Run(START, events) == Some(s)
    ensures s.loop.pc == Armed && s.loop.carried == [] && s.loop.reached == multiset{} && s.loop.repairs == 0
    ensures s.mail == Mail(true, false, true, [], [""], [], None, [])
  {
    hide Run, EmptyTakes;
    NoEvents();
    events, s := Then([], START, Sent(""));
    events, s := Then(events, s, DeliveryRun);
    events, s := Then(events, s, Attached);
    events, s := Then(events, s, TopCalled);
    assert Messages(s.mail) == [""];
    events, s := Then(events, s, TakeDone);
  }

  lemma EmptyTextPrompted() returns (events: seq<Event>, s: State)
    ensures Run(START, events) == Some(s)
    ensures s.loop.pc == Judging && "" !in s.loop.reached && s.loop.repairs == 0
    ensures s.mail == Mail(true, true, true, [], [""], [], None, [])
  {
    hide Run, EmptyTakes;
    events, s := EmptyTextTaken();
    events, s := Then(events, s, PromptBegun(false));
    events, s := Then(events, s, PromptEnded(false));
    assert Messages(s.mail) == [];
    events, s := Then(events, s, TakeDone);
  }

  /** An empty text is accepted, and the run is accepted without the brain ever getting it. */
  lemma EmptyTextIsPassedOver() returns (events: seq<Event>, s: State)
    ensures Run(START, events) == Some(s)
    ensures s.loop.pc == Ended(Accepted) && s.mail.updates == [""] && "" !in s.loop.reached
  {
    hide Run, EmptyTakes;
    events, s := EmptyTextPrompted();
    events, s := Then(events, s, Judged(Normal(true), false));
    events, s := Then(events, s, Assessed(Some(Complete), false));
    assert Messages(s.mail) == [];
    events, s := Then(events, s, TakeDone);
    events, s := Then(events, s, Decided);
  }

  /** An empty text sent while the first take waits is passed over by that take, and steered afterwards. */
  lemma EmptyTextSteeredLater() returns (events: seq<Event>, s: State)
    ensures Run(START, events) == Some(s) && EmptyTakes(START, events) == 1
    ensures s.loop.pc == Prompting && s.loop.carried == [] && s.loop.reached == multiset{} && s.loop.repairs == 0
    ensures s.mail == Mail(true, false, true, [], [""], [], Some(Flight("", true)), [""])
  {
    hide Run, EmptyTakes;
    NoEvents();
    events, s := Then([], START, Attached);
    events, s := Then(events, s, TopCalled);
    events, s := Then(events, s, Sent(""));
    assert Messages(s.mail) == [""];
    events, s := Then(events, s, TakeDone);
    events, s := Then(events, s, PromptBegun(false));
    events, s := Then(events, s, DeliveryRun);
    events, s := Then(events, s, SteerQueued);
  }

  /**
   Being passed over is not yet being missed: the callback of a text that was sent during the take can
   still deliver it. So what a take passes over decides what that take loses, not what the run misses.
   */
  lemma PassedOverYetRead() returns (events: seq<Event>, s: State)
    ensures Run(START, events) == Some(s) && EmptyTakes(START, events) == 1
    ensures s.mail.updates == [""] && s.loop.reached == multiset{""}
  {
    hide Run, EmptyTakes;
    events, s := EmptyTextSteeredLater();
    events, s := Then(events, s, BrainReads);
  }
}
