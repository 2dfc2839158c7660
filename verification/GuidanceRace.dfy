/**
 A sub-agent run to acceptance (subagent-completion.ts) racing with its guidance mailbox
 (subagent-lifecycle.ts): one step per synchronous stretch of the loop, of a delivery callback, of a
 steer settling, or of a caller sending.
 */
module GuidanceRace {
  import opened Wrappers
  import opened JsText

  type Text = string

  /** A steer that was started; `queued` once the brain holds the message. */
  datatype Flight = Flight(text: Text, queued: bool)

  /** The mailbox, its chain of delivery callbacks not yet started, and the brain's own queue. */
  datatype Mail = Mail(
    attached: bool, reviewing: bool, accepting: bool, pending: seq<Text>, updates: seq<Text>,
    chain: seq<Text>, flying: Option<Flight>, queue: seq<Text>)

  datatype Verdict = Complete | Blocked | Incomplete

  datatype Outcome = Accepted | Declined | Stopped | Failed | Exhausted

  /**
   Where the loop is. A `Taking` awaits the delivery chain as of its call: `mustRun` callbacks have
   still to start. `owed`: the last turn ended because sealing found new guidance.
   */
  datatype Pc =
    | Top(owed: bool) | TopTaking(mustRun: nat, owed: bool) | Armed | Prompting
    | PostTaking(mustRun: nat) | Judging | Assessing | FollowTaking(mustRun: nat, verdict: Verdict) | Deciding(verdict: Verdict)
    | Ended(outcome: Outcome)

  datatype Loop = Loop(
    pc: Pc, turn: nat, repairs: nat, guided: nat, prompts: nat, carried: seq<Text>, reached: multiset<Text>)

  datatype State = State(mail: Mail, loop: Loop)

  const MAX_TURNS: nat := 36
  const MAX_GUIDANCE: nat := 32

  const START := State(
    Mail(false, false, true, [], [], [], None, []),
    Loop(Top(false), 0, 0, 0, 0, [], multiset{}))

  predicate IsTaking(pc: Pc) { pc.TopTaking? || pc.PostTaking? || pc.FollowTaking? }

  // ---------------------------------------------------------------- the mailbox

  predicate Admits(m: Mail) { m.accepting && |m.updates| < MAX_GUIDANCE }

  function Send(m: Mail, text: Text): Mail {
    m.(updates := m.updates + [text], pending := m.pending + [text], chain := m.chain + [text])
  }

  /** The next delivery callback: it steers unless the run is reviewed, not started or closed. */
  function RunDelivery(m: Mail): Mail
    requires m.chain != []
  {
    m.(chain := m.chain[1..],
       flying := if !m.attached || m.reviewing || !m.accepting then m.flying else Some(Flight(m.chain[0], false)))
  }

  function RemoveFirst(s: seq<Text>, text: Text): seq<Text> {
    if s == [] then [] else if s[0] == text then s[1..] else [s[0]] + RemoveFirst(s[1..], text)
  }

  /** The steer settles; a delivered text leaves `pending`, if an equal one is still there. */
  function SettleSteer(m: Mail): Mail {
    if m.flying.None? then m
    else m.(flying := None, pending := if m.flying.value.queued then RemoveFirst(m.pending, m.flying.value.text) else m.pending)
  }

  /** The stretch of `takePending` after its await. */
  function Messages(m: Mail): seq<Text> { m.queue + m.pending }

  function Combined(messages: seq<Text>): Text { if messages == [] then "" else Join(messages, "\n\n") }

  /** The prompt `takePending` returns counts as guidance unless it is empty, as a single empty text is. */
  predicate IsGuidance(messages: seq<Text>) { Combined(messages) != "" }

  function Kept(m: Mail): seq<Text> { if IsGuidance(Messages(m)) then Messages(m) else [] }

  function Taken(m: Mail): Mail { m.(queue := [], pending := []) }

  /** `seal`: refuses while anything is pending. */
  function Seal(m: Mail): Option<Mail> {
    if m.pending != [] then None else Some(m.(accepting := false))
  }

  // ---------------------------------------------------------------- the loop

  /** The awaited prefix has run. Later callbacks were registered later and start later. */
  predicate TakeReady(m: Mail, pc: Pc) { IsTaking(pc) && pc.mustRun == 0 && m.flying.None? }

  function NextTurn(l: Loop, owed: bool, carried: seq<Text>): Loop {
    l.(pc := Top(owed), turn := l.turn + 1, carried := carried)
  }

  function Guided(l: Loop, messages: seq<Text>): Loop {
    NextTurn(l, false, messages).(guided := l.guided + 1)
  }

  function CallTop(s: State): Option<State> {
    if !s.loop.pc.Top? || !s.mail.attached then None
    else if s.loop.turn >= MAX_TURNS then Some(s.(loop := s.loop.(pc := Ended(Exhausted))))
    else Some(s.(loop := s.loop.(pc := TopTaking(|s.mail.chain|, s.loop.pc.owed))))
  }

  /** A take resolves. Guidance found after a prompt or an assessment starts another turn. */
  function Take(s: State): Option<State> {
    if !TakeReady(s.mail, s.loop.pc) then None
    else
      var messages := Kept(s.mail);
      Some(State(Taken(s.mail),
        match s.loop.pc
        case TopTaking(_, owed) =>
          s.loop.(pc := Armed, carried := s.loop.carried + messages, guided := s.loop.guided + if owed then 1 else 0)
        case PostTaking(_) => if messages != [] then Guided(s.loop, messages) else s.loop.(pc := Judging)
        case FollowTaking(_, v) => if messages != [] then Guided(s.loop, messages) else s.loop.(pc := Deciding(v))
        case _ => s.loop))
  }

  function BeginPrompt(s: State, stopped: bool): Option<State> {
    if !s.loop.pc.Armed? then None
    else
      Some(State(s.mail.(reviewing := false),
        if stopped then s.loop.(pc := Ended(Stopped))
        else s.loop.(pc := Prompting, prompts := s.loop.prompts + 1, carried := [], reached := s.loop.reached + multiset(s.loop.carried))))
  }

  function EndPrompt(s: State, stopped: bool): Option<State> {
    if !s.loop.pc.Prompting? then None
    else if stopped then Some(s.(loop := s.loop.(pc := Ended(Stopped))))
    else Some(State(s.mail.(reviewing := true), s.loop.(pc := PostTaking(|s.mail.chain|))))
  }

  datatype Stop = Aborted | Length | Normal(assessor: bool)

  /** The stop reason: an error ends the run, an output limit needs no assessment. */
  function Judge(s: State, stop: Stop, stopped: bool): Option<State> {
    if !s.loop.pc.Judging? then None
    else Some(s.(loop := s.loop.(pc :=
      match stop
      case Aborted => Ended(Failed)
      case Length => if stopped then Ended(Stopped) else FollowTaking(|s.mail.chain|, Incomplete)
      case Normal(assessor) => if assessor then Assessing else Ended(Failed))))
  }

  /** The assessment returns, or throws (`None`). */
  function Assess(s: State, verdict: Option<Verdict>, stopped: bool): Option<State> {
    if !s.loop.pc.Assessing? then None
    else Some(s.(loop := s.loop.(pc :=
      if verdict.None? then Ended(Failed)
      else if stopped then Ended(Stopped)
      else FollowTaking(|s.mail.chain|, verdict.value))))
  }

  /** The last synchronous stretch: seal first if the run is about to be over, then decide. */
  function Decide(s: State): Option<State> {
    if !s.loop.pc.Deciding? then None
    else
      var v := s.loop.pc.verdict;
      var final := v.Complete? || v.Blocked? || s.loop.repairs == 2;
      if final && Seal(s.mail).None? then Some(s.(loop := NextTurn(s.loop, true, [])))
      else if final then
        Some(State(Seal(s.mail).value, s.loop.(pc := Ended(if v.Complete? then Accepted else Declined))))
      else Some(s.(loop := NextTurn(s.loop, false, []).(repairs := s.loop.repairs + 1)))
  }

  // ---------------------------------------------------------------- the machine

  datatype Event =
    | Attached | Sent(text: Text) | DeliveryRun | SteerQueued | SteerSettled | BrainReads | Closed
    | TopCalled | TakeDone | PromptBegun(stopped: bool) | PromptEnded(stopped: bool)
    | Judged(stop: Stop, stopped: bool) | Assessed(verdict: Option<Verdict>, stopped: bool) | Decided

  /** A callback may start when none is running; a take that awaits lets only its prefix start. */
  function Deliver(s: State): Option<State> {
    if s.mail.chain == [] || s.mail.flying.Some? || (IsTaking(s.loop.pc) && s.loop.pc.mustRun == 0) then None
    else Some(State(RunDelivery(s.mail), if IsTaking(s.loop.pc) then s.loop.(pc := s.loop.pc.(mustRun := s.loop.pc.mustRun - 1)) else s.loop))
  }

  function QueueSteer(s: State): Option<State> {
    if s.mail.flying.None? || s.mail.flying.value.queued then None
    else
      var text := s.mail.flying.value.text;
      Some(s.(mail := s.mail.(flying := Some(Flight(text, true)), queue := s.mail.queue + [text])))
  }

  /** The running prompt reads the oldest steered message. */
  function ReadSteer(s: State): Option<State> {
    if !s.loop.pc.Prompting? || s.mail.queue == [] then None
    else Some(State(s.mail.(queue := s.mail.queue[1..]), s.loop.(reached := s.loop.reached + multiset{s.mail.queue[0]})))
  }

  function Step(s: State, e: Event): Option<State> {
    match e
    case Attached => Some(s.(mail := s.mail.(attached := true)))
    case Sent(text) => if Admits(s.mail) then Some(s.(mail := Send(s.mail, text))) else None
    case DeliveryRun => Deliver(s)
    case SteerQueued => QueueSteer(s)
    case SteerSettled => if s.mail.flying.Some? then Some(s.(mail := SettleSteer(s.mail))) else None
    case BrainReads => ReadSteer(s)
    case Closed => Some(s.(mail := s.mail.(accepting := false)))
    case TopCalled => CallTop(s)
    case TakeDone => Take(s)
    case PromptBegun(stopped) => BeginPrompt(s, stopped)
    case PromptEnded(stopped) => EndPrompt(s, stopped)
    case Judged(stop, stopped) => Judge(s, stop, stopped)
    case Assessed(verdict, stopped) => Assess(s, verdict, stopped)
    case Decided => Decide(s)
  }

  function Run(s: State, events: seq<Event>): Option<State>
    decreases |events|
  {
    if events == [] then Some(s)
    else
      var t := Step(s, events[0]);
      if t.None? then None else Run(t.value, events[1..])
  }
}
