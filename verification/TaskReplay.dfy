/**
 The plan rebuilt from its event log (task-ledger-recovery.ts): a left-to-right fold over a map,
 against what a reader of the log expects the plan to be.
 */
module TaskReplay {
  import opened Wrappers
  import opened JsText

  datatype Status = Pending | InProgress | Completed

  datatype Task = Task(id: string, subject: string, description: string, status: Status, blockedBy: seq<string>)

  datatype Action = Reset | Delete(id: Option<string>) | Upsert(task: Option<Task>) | Unknown

  /**
   One message: its metadata is no JSON object or no task event, or it is a task event of some list.
   An upsert without a task, or a delete without an id, is one whose fields are malformed.
   */
  datatype Message = Other | TaskEvent(list: string, action: Action)

  datatype Effect = Cleared | Removed(id: string) | Put(task: Task)

  /** What one message means for the plan of `session`, if anything. */
  function EffectOf(session: string, m: Message): Option<Effect> {
    if m.Other? || m.list != session then None
    else match m.action
      case Reset => Some(Cleared)
      case Delete(id) => if id.Some? then Some(Removed(id.value)) else None
      case Upsert(task) => if task.Some? then Some(Put(task.value)) else None
      case Unknown => None
  }

  function Effects(session: string, messages: seq<Message>): seq<Effect> {
    if messages == [] then []
    else
      var e := EffectOf(session, messages[|messages| - 1]);
      Effects(session, messages[..|messages| - 1]) + if e.Some? then [e.value] else []
  }

  // ---------------------------------------------------------------- the map, in insertion order

  predicate Known(tasks: seq<Task>, id: string) { exists i :: 0 <= i < |tasks| && tasks[i].id == id }

  function Find(tasks: seq<Task>, id: string): (r: Option<nat>)
    ensures r.Some? ==> r.value < |tasks| && tasks[r.value].id == id
    ensures r.None? ==> !Known(tasks, id)
  {
    if tasks == [] then None
    else if tasks[|tasks| - 1].id == id then Some(|tasks| - 1)
    else Find(tasks[..|tasks| - 1], id)
  }

  function Drop(tasks: seq<Task>, id: string): seq<Task> {
    var at := Find(tasks, id);
    if at.None? then tasks else tasks[..at.value] + tasks[at.value + 1..]
  }

  /** The subject kept for an upsert: its own unless that is blank, else the one it replaces. */
  function Named(tasks: seq<Task>, t: Task): Task {
    var at := Find(tasks, t.id);
    if !Blank(t.subject) then t else t.(subject := if at.Some? then tasks[at.value].subject else "")
  }

  function Insert(tasks: seq<Task>, t: Task): seq<Task> {
    var at := Find(tasks, t.id);
    if at.None? then tasks + [t] else tasks[at.value := t]
  }

  function Apply(tasks: seq<Task>, e: Effect): seq<Task> {
    match e
    case Cleared => []
    case Removed(id) => Drop(tasks, id)
    case Put(t) => Insert(tasks, Named(tasks, t))
  }

  // ---------------------------------------------------------------- what the log says

  /** Event `i` upserts `id`, and nothing after it deletes or resets it away. */
  predicate Lives(log: seq<Effect>, id: string, i: nat) {
    && i < |log| && log[i].Put? && log[i].task.id == id
    && forall j | i < j < |log| :: log[j] != Cleared && log[j] != Removed(id)
  }

  predicate LastPut(log: seq<Effect>, id: string, i: nat) {
    Lives(log, id, i) && forall j | i < j < |log| :: !(log[j].Put? && log[j].task.id == id)
  }

  predicate NamesIt(log: seq<Effect>, id: string, i: nat) { Lives(log, id, i) && !Blank(log[i].task.subject) }

  /** The last subject given to `id` in its present lifetime, or none. */
  ghost predicate SubjectIs(log: seq<Effect>, id: string, subject: string) {
    || (exists i: nat :: NamesIt(log, id, i) && log[i].task.subject == subject && forall j: nat | NamesIt(log, id, j) :: j <= i)
    || (subject == "" && forall j: nat :: !NamesIt(log, id, j))
  }

  /** `t` is what the log says about its id: the fields of the last upsert, and the last subject given. */
  ghost predicate Says(log: seq<Effect>, t: Task) {
    && (exists i: nat :: LastPut(log, t.id, i) && log[i].task.(subject := t.subject) == t)
    && SubjectIs(log, t.id, t.subject)
  }

  /** `id` came into the plan at event `i`. */
  predicate BornAt(log: seq<Effect>, id: string, i: nat) {
    Lives(log, id, i) && forall j | 0 <= j < i :: !Lives(log, id, j)
  }

  ghost predicate AllSaid(log: seq<Effect>, tasks: seq<Task>) { forall k | 0 <= k < |tasks| :: Says(log, tasks[k]) }

  ghost predicate AllListed(log: seq<Effect>, tasks: seq<Task>) { forall id, i: nat | Lives(log, id, i) :: Known(tasks, id) }

  predicate Unique(tasks: seq<Task>) { forall k, l | 0 <= k < l < |tasks| :: tasks[k].id != tasks[l].id }

  ghost predicate InBirthOrder(log: seq<Effect>, tasks: seq<Task>) {
    forall k: nat, l: nat, i: nat, j: nat | k < l < |tasks| && BornAt(log, tasks[k].id, i) && BornAt(log, tasks[l].id, j) :: i < j
  }

  /** `tasks` are exactly the living tasks of the log, each once and as the log says, in order of birth. */
  ghost predicate IsPlan(log: seq<Effect>, tasks: seq<Task>) {
    AllSaid(log, tasks) && AllListed(log, tasks) && Unique(tasks) && InBirthOrder(log, tasks)
  }

  // ---------------------------------------------------------------- one more event

  lemma LivesSnoc(log: seq<Effect>, e: Effect, id: string, i: nat)
    ensures Lives(log + [e], id, i) <==>
      (Lives(log, id, i) && e != Cleared && e != Removed(id)) || (i == |log| && e.Put? && e.task.id == id)
  {
    var longer := log + [e];
    assert longer[|log|] == e;
    if Lives(log, id, i) && e != Cleared && e != Removed(id) {
      forall j | i < j < |longer| ensures longer[j] != Cleared && longer[j] != Removed(id) {
        if j < |log| { assert longer[j] == log[j]; }
      }
    }
    if Lives(longer, id, i) && i < |log| {
      forall j | i < j < |log| ensures log[j] != Cleared && log[j] != Removed(id) { assert longer[j] == log[j]; }
    }
  }

  predicate About(e: Effect, id: string) { e == Cleared || e == Removed(id) || (e.Put? && e.task.id == id) }

  lemma SaysOther(log: seq<Effect>, e: Effect, t: Task)
    requires Says(log, t) && !About(e, t.id)
    ensures Says(log + [e], t)
  {
    var longer := log + [e];
    forall i: nat ensures NamesIt(longer, t.id, i) <==> NamesIt(log, t.id, i) { LivesSnoc(log, e, t.id, i); }
    var i: nat :| LastPut(log, t.id, i) && log[i].task.(subject := t.subject) == t;
    LivesSnoc(log, e, t.id, i);
    assert LastPut(longer, t.id, i);
    if j: nat :| NamesIt(log, t.id, j) && log[j].task.subject == t.subject && forall k: nat | NamesIt(log, t.id, k) :: k <= j {
      assert NamesIt(longer, t.id, j) && longer[j].task.subject == t.subject;
    }
  }

  lemma SubjectNext(log: seq<Effect>, t: Task, before: string)
    requires SubjectIs(log, t.id, before)
    ensures SubjectIs(log + [Put(t)], t.id, if Blank(t.subject) then before else t.subject)
  {
    var longer := log + [Put(t)];
    forall i: nat ensures NamesIt(longer, t.id, i) <==> NamesIt(log, t.id, i) || (i == |log| && !Blank(t.subject)) {
      LivesSnoc(log, Put(t), t.id, i);
    }
    if !Blank(t.subject) {
      assert NamesIt(longer, t.id, |log|) && longer[|log|].task.subject == t.subject;
    } else if j: nat :| NamesIt(log, t.id, j) && log[j].task.subject == before && forall k: nat | NamesIt(log, t.id, k) :: k <= j {
      assert NamesIt(longer, t.id, j) && longer[j].task.subject == before;
    }
  }

  /** The subject the map holds for an id is the last one given, if any. */
  lemma SubjectKept(log: seq<Effect>, tasks: seq<Task>, id: string)
    requires IsPlan(log, tasks)
    ensures var at := Find(tasks, id); SubjectIs(log, id, if at.Some? then tasks[at.value].subject else "")
  {
  }

  lemma SaysPut(log: seq<Effect>, tasks: seq<Task>, t: Task)
    requires IsPlan(log, tasks)
    ensures Says(log + [Put(t)], Named(tasks, t))
  {
    var longer := log + [Put(t)];
    LivesSnoc(log, Put(t), t.id, |log|);
    assert LastPut(longer, t.id, |log|);
    SubjectKept(log, tasks, t.id);
    var at := Find(tasks, t.id);
    SubjectNext(log, t, if at.Some? then tasks[at.value].subject else "");
  }

  lemma BornEarlier(log: seq<Effect>, e: Effect, id: string, i: nat)
    requires BornAt(log + [e], id, i) && i < |log|
    ensures BornAt(log, id, i)
  {
    LivesSnoc(log, e, id, i);
    forall j: nat | j < i ensures !Lives(log, id, j) { LivesSnoc(log, e, id, j); }
  }

  /** An id that was in the plan already was born before this event. */
  lemma BornBefore(log: seq<Effect>, e: Effect, t: Task, i: nat)
    requires Says(log, t) && !(e == Cleared || e == Removed(t.id)) && BornAt(log + [e], t.id, i)
    ensures i < |log| && BornAt(log, t.id, i)
  {
    var k: nat :| LastPut(log, t.id, k) && log[k].task.(subject := t.subject) == t;
    LivesSnoc(log, e, t.id, k);
    assert i <= k;
    BornEarlier(log, e, t.id, i);
  }

  /** Where a task of `Drop(tasks, id)` was. */
  function Up(tasks: seq<Task>, id: string, k: nat): nat {
    var at := Find(tasks, id);
    if at.Some? && at.value <= k then k + 1 else k
  }

  lemma DropIs(tasks: seq<Task>, id: string)
    requires Unique(tasks)
    ensures forall k: nat | k < |Drop(tasks, id)| ::
      Up(tasks, id, k) < |tasks| && Drop(tasks, id)[k] == tasks[Up(tasks, id, k)] && Drop(tasks, id)[k].id != id
    ensures forall x | x != id && Known(tasks, x) :: Known(Drop(tasks, id), x)
  {
    var at, rest := Find(tasks, id), Drop(tasks, id);
    forall x | x != id && Known(tasks, x) ensures Known(rest, x) {
      var k :| 0 <= k < |tasks| && tasks[k].id == x;
      assert rest[if at.Some? && at.value < k then k - 1 else k].id == x;
    }
  }

  lemma DropKeeps(log: seq<Effect>, tasks: seq<Task>, id: string)
    requires IsPlan(log, tasks)
    ensures IsPlan(log + [Removed(id)], Drop(tasks, id))
  {
    hide Says, Drop, Up, Lives, BornAt;
    DropIs(tasks, id);
    DropSaid(log, tasks, id);
    DropOrder(log, tasks, id);
    forall x, i: nat | Lives(log + [Removed(id)], x, i) ensures Known(Drop(tasks, id), x) {
      LivesSnoc(log, Removed(id), x, i);
    }
  }

  lemma DropSaid(log: seq<Effect>, tasks: seq<Task>, id: string)
    requires IsPlan(log, tasks)
    ensures AllSaid(log + [Removed(id)], Drop(tasks, id)) && Unique(Drop(tasks, id))
  {
    hide Says, Drop;
    DropIs(tasks, id);
    forall k: nat | k < |Drop(tasks, id)| ensures Says(log + [Removed(id)], Drop(tasks, id)[k]) {
      SaysOther(log, Removed(id), tasks[Up(tasks, id, k)]);
    }
  }

  lemma DropOrder(log: seq<Effect>, tasks: seq<Task>, id: string)
    requires IsPlan(log, tasks)
    ensures InBirthOrder(log + [Removed(id)], Drop(tasks, id))
  {
    hide Says, Drop, BornAt;
    var rest, longer := Drop(tasks, id), log + [Removed(id)];
    DropIs(tasks, id);
    forall k: nat, l: nat, i: nat, j: nat | k < l < |rest| && BornAt(longer, rest[k].id, i) && BornAt(longer, rest[l].id, j) ensures i < j {
      BornBefore(log, Removed(id), tasks[Up(tasks, id, k)], i);
      BornBefore(log, Removed(id), tasks[Up(tasks, id, l)], j);
    }
  }

  lemma PutSaid(log: seq<Effect>, tasks: seq<Task>, t: Task)
    requires IsPlan(log, tasks)
    ensures AllSaid(log + [Put(t)], Insert(tasks, Named(tasks, t))) && Unique(Insert(tasks, Named(tasks, t)))
  {
    hide Says;
    var longer, next := log + [Put(t)], Insert(tasks, Named(tasks, t));
    SaysPut(log, tasks, t);
    forall k: nat | k < |next| ensures Says(longer, next[k]) {
      if next[k].id != t.id { SaysOther(log, Put(t), tasks[k]); }
    }
  }

  lemma PutListed(log: seq<Effect>, tasks: seq<Task>, t: Task)
    requires IsPlan(log, tasks)
    ensures AllListed(log + [Put(t)], Insert(tasks, Named(tasks, t)))
  {
    var next, at := Insert(tasks, Named(tasks, t)), Find(tasks, t.id);
    forall x, i: nat | Lives(log + [Put(t)], x, i) ensures Known(next, x) {
      LivesSnoc(log, Put(t), x, i);
      if x == t.id {
        assert next[if at.Some? then at.value else |tasks|].id == x;
      } else {
        var k :| 0 <= k < |tasks| && tasks[k].id == x;
        assert next[k].id == x;
      }
    }
  }

  /** A new task is born last; a replaced one keeps its place and its birth. */
  lemma PutOrder(log: seq<Effect>, tasks: seq<Task>, t: Task)
    requires IsPlan(log, tasks)
    ensures InBirthOrder(log + [Put(t)], Insert(tasks, Named(tasks, t)))
  {
    hide Says, BornAt;
    var longer, next := log + [Put(t)], Insert(tasks, Named(tasks, t));
    forall k: nat, l: nat, i: nat, j: nat | k < l < |next| && BornAt(longer, next[k].id, i) && BornAt(longer, next[l].id, j) ensures i < j {
      BornBefore(log, Put(t), tasks[k], i);
      if l < |tasks| {
        BornBefore(log, Put(t), tasks[l], j);
      } else {
        NewIsBornLast(log, t, tasks, j);
      }
    }
  }

  lemma NewIsBornLast(log: seq<Effect>, t: Task, tasks: seq<Task>, j: nat)
    requires AllListed(log, tasks) && !Known(tasks, t.id) && BornAt(log + [Put(t)], t.id, j)
    ensures j == |log|
  {
    LivesSnoc(log, Put(t), t.id, j);
  }

  lemma ClearKeeps(log: seq<Effect>)
    ensures IsPlan(log + [Cleared], [])
  {
    forall x, i: nat ensures !Lives(log + [Cleared], x, i) { LivesSnoc(log, Cleared, x, i); }
  }

  lemma ApplyKeeps(log: seq<Effect>, tasks: seq<Task>, e: Effect)
    requires IsPlan(log, tasks)
    ensures IsPlan(log + [e], Apply(tasks, e))
  {
    hide AllSaid, AllListed, InBirthOrder, Drop, Insert, Named, Unique;
    match e {
      case Cleared => ClearKeeps(log);
      case Removed(id) => DropKeeps(log, tasks, id);
      case Put(t) =>
        PutSaid(log, tasks, t);
        PutListed(log, tasks, t);
        PutOrder(log, tasks, t);
    }
  }

  // ---------------------------------------------------------------- the replay

  /** `high` is at least every number an upsert ever used, also before a reset, and no more. */
  ghost predicate IsHighWater(log: seq<Effect>, numeric: string -> real, high: real) {
    && high >= 0.0 && (forall i | 0 <= i < |log| && log[i].Put? :: numeric(log[i].task.id) <= high)
    && (high == 0.0 || exists i :: 0 <= i < |log| && log[i].Put? && numeric(log[i].task.id) == high)
  }

  lemma HighWaterNext(log: seq<Effect>, e: Effect, numeric: string -> real, high: real)
    requires IsHighWater(log, numeric, high)
    ensures IsHighWater(log + [e], numeric, if e.Put? && numeric(e.task.id) > high then numeric(e.task.id) else high)
  {
    var longer := log + [e];
    assert longer[|log|] == e;
    if i :| 0 <= i < |log| && log[i].Put? && numeric(log[i].task.id) == high {
      assert longer[i] == log[i];
    }
  }

  lemma EffectsNext(session: string, messages: seq<Message>, n: nat)
    requires n < |messages|
    ensures var e := EffectOf(session, messages[n]);
      Effects(session, messages[..n + 1]) == if e.Some? then Effects(session, messages[..n]) + [e.value] else Effects(session, messages[..n])
  {
    assert messages[..n + 1][..n] == messages[..n];
  }

  lemma EmptyPlan(session: string, numeric: string -> real)
    ensures Effects(session, []) == [] && IsPlan([], []) && IsHighWater([], numeric, 0.0)
  {
  }

  // ---------------------------------------------------------------- the plan, told from the messages

  /** The task a message gives to the plan of this list, if it is a well-formed upsert. */
  function Given(session: string, m: Message): Option<Task> {
    if m.TaskEvent? && m.list == session && m.action.Upsert? then m.action.task else None
  }

  predicate Gives(session: string, m: Message, id: string) { Given(session, m).Some? && Given(session, m).value.id == id }

  predicate Takes(session: string, m: Message, id: string) {
    m == TaskEvent(session, Reset) || m == TaskEvent(session, Delete(Some(id)))
  }

  /** Message `k` gives `id`, and no later message of this list deletes it or resets the plan. */
  predicate Stays(session: string, messages: seq<Message>, k: nat, id: string) {
    k < |messages| && Gives(session, messages[k], id) && forall j | k < j < |messages| :: !Takes(session, messages[j], id)
  }

  lemma StaysNext(session: string, before: seq<Message>, m: Message, id: string, k: nat)
    ensures Stays(session, before + [m], k, id) <==>
      (Stays(session, before, k, id) && !Takes(session, m, id)) || (k == |before| && Gives(session, m, id))
  {
    var all, n := before + [m], |before|;
    assert all[n] == m && forall j | 0 <= j < n :: all[j] == before[j];
  }

  lemma EffectIs(session: string, m: Message, id: string)
    ensures Gives(session, m, id) <==> exists t: Task :: t.id == id && EffectOf(session, m) == Some(Put(t)) && Given(session, m) == Some(t)
    ensures Takes(session, m, id) <==> EffectOf(session, m) == Some(Cleared) || EffectOf(session, m) == Some(Removed(id))
  {
    if Gives(session, m, id) { assert EffectOf(session, m) == Some(Put(Given(session, m).value)); }
  }

  /** A message that stays gives an event of the log that lives. */
  lemma {:induction false} StaysLives(session: string, messages: seq<Message>, id: string, k: nat) returns (i: nat)
    requires Stays(session, messages, k, id)
    ensures Lives(Effects(session, messages), id, i)
  {
    var n := |messages| - 1;
    var before, m := messages[..n], messages[n];
    var log := Effects(session, before);
    assert messages == before + [m];
    EffectIs(session, m, id);
    StaysNext(session, before, m, id, k);
    if k == n {
      i := |log|;
      LivesSnoc(log, EffectOf(session, m).value, id, i);
    } else {
      i := StaysLives(session, before, id, k);
      if EffectOf(session, m).Some? { LivesSnoc(log, EffectOf(session, m).value, id, i); }
    }
  }

  /** And the other way round, with the task that the event gives. */
  lemma {:induction false} LivesStays(session: string, messages: seq<Message>, id: string, i: nat) returns (k: nat)
    requires Lives(Effects(session, messages), id, i)
    ensures Stays(session, messages, k, id) && Given(session, messages[k]) == Some(Effects(session, messages)[i].task)
    ensures LastPut(Effects(session, messages), id, i) ==> forall j | k < j < |messages| :: !Gives(session, messages[j], id)
  {
    var n := |messages| - 1;
    var before, m := messages[..n], messages[n];
    var log := Effects(session, before);
    assert messages == before + [m];
    EffectIs(session, m, id);
    if EffectOf(session, m).Some? && i == |log| {
      k := n;
      LivesSnoc(log, EffectOf(session, m).value, id, i);
    } else {
      if EffectOf(session, m).Some? {
        LivesSnoc(log, EffectOf(session, m).value, id, i);
        LastPutBefore(log, EffectOf(session, m).value, id, i);
      } else {
        assert Effects(session, messages) == log;
      }
      k := LivesStays(session, before, id, i);
    }
    StaysNext(session, before, m, id, k);
  }

  lemma LastPutBefore(log: seq<Effect>, e: Effect, id: string, i: nat)
    requires Lives(log, id, i)
    ensures LastPut(log + [e], id, i) ==> LastPut(log, id, i) && !(e.Put? && e.task.id == id)
  {
    var longer := log + [e];
    assert longer[|log|] == e && forall j | 0 <= j < |log| :: longer[j] == log[j];
  }

  /** Message `k` is where the fields of `t` in the plan come from, but for the subject. */
  ghost predicate ComesFrom(session: string, messages: seq<Message>, t: Task, k: nat) {
    && Stays(session, messages, k, t.id) && Given(session, messages[k]).value.(subject := t.subject) == t
    && forall j | k < j < |messages| :: !Gives(session, messages[j], t.id)
  }

  lemma FieldsComeFrom(session: string, messages: seq<Message>, t: Task) returns (k: nat)
    requires Says(Effects(session, messages), t)
    ensures ComesFrom(session, messages, t, k)
  {
    var log := Effects(session, messages);
    var i: nat :| LastPut(log, t.id, i) && log[i].task.(subject := t.subject) == t;
    k := LivesStays(session, messages, t.id, i);
  }

  /** The plan told from the messages: it has an id exactly if some message of this list gives it and no later one takes it away. */
  lemma PlanHasIff(session: string, messages: seq<Message>, tasks: seq<Task>, id: string)
    requires IsPlan(Effects(session, messages), tasks)
    ensures Known(tasks, id) <==> exists k: nat :: Stays(session, messages, k, id)
  {
    if Known(tasks, id) {
      var l :| 0 <= l < |tasks| && tasks[l].id == id;
      var k := PlanFields(session, messages, tasks, l);
    }
    if k: nat :| Stays(session, messages, k, id) {
      var i := StaysLives(session, messages, id, k);
    }
  }

  /** The fields of a task in the plan are those of the last message that gives it, but for the subject. */
  lemma PlanFields(session: string, messages: seq<Message>, tasks: seq<Task>, l: nat) returns (k: nat)
    requires IsPlan(Effects(session, messages), tasks) && l < |tasks|
    ensures ComesFrom(session, messages, tasks[l], k)
  {
    assert Says(Effects(session, messages), tasks[l]);
    k := FieldsComeFrom(session, messages, tasks[l]);
  }

  /**
   `restoreTaskLedgerFromHistory`, for any way `numeric` of reading an id as a number (0 if it is none):
   the plan the log describes and the id counter to go on from, or nothing if no event is about it.
   */
  method RestoreTaskLedger(session: string, messages: seq<Message>, numeric: string -> real)
    returns (found: bool, tasks: seq<Task>, highWater: real)
    ensures found <==> Effects(session, messages) != []
    ensures IsPlan(Effects(session, messages), tasks)
    ensures IsHighWater(Effects(session, messages), numeric, highWater)
  {
    hide IsPlan, IsHighWater, Effects, Drop, Insert, Named;
    EmptyPlan(session, numeric);
    assert messages[..0] == [];
    tasks, found, highWater := [], false, 0.0;
    for n := 0 to |messages|
      invariant found <==> Effects(session, messages[..n]) != []
      invariant IsPlan(Effects(session, messages[..n]), tasks)
      invariant IsHighWater(Effects(session, messages[..n]), numeric, highWater)
    {
      EffectsNext(session, messages, n);
      var effect := EffectOf(session, messages[n]);
      if effect.Some? {
        ApplyKeeps(Effects(session, messages[..n]), tasks, effect.value);
        HighWaterNext(Effects(session, messages[..n]), effect.value, numeric, highWater);
        found := true;
        match effect.value {
          case Cleared => tasks := [];
          case Removed(id) => tasks := Drop(tasks, id);
          case Put(t) =>
            tasks := Insert(tasks, Named(tasks, t));
            if numeric(t.id) > highWater { highWater := numeric(t.id); }
        }
      }
    }
    assert messages[..|messages|] == messages;
  }
}
