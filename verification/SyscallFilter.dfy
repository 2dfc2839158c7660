/**
 The syscall filter of the script launcher (launcher.c): a classic BPF program, its interpreter, and
 the decision it is meant to take.
 */
module SyscallFilter {
  import opened Wrappers

  type Word = bv32

  /** A 64-bit argument as its two halves. */
  datatype Arg = Arg(lo: Word, hi: Word)

  /** `struct seccomp_data` on a little-endian machine. */
  datatype Data = Data(nr: Word, arch: Word, ip: Arg, args: seq<Arg>)

  predicate ValidData(d: Data) { |d.args| == 6 }

  datatype Action = Allow | KillProcess | Errno(code: nat)

  const EPERM: nat := 1
  const ENOSYS: nat := 38

  datatype Instruction = LoadAbs(offset: nat) | JumpEq(k: Word, jt: nat, jf: nat) | JumpSet(k: Word, jt: nat, jf: nat) | Ret(action: Action)

  type Program = seq<Instruction>

  // ---------------------------------------------------------------- the interpreter

  /** The 32-bit word at a byte offset of the data. */
  function WordAt(d: Data, offset: nat): Option<Word>
    requires ValidData(d)
  {
    if offset == 0 then Some(d.nr)
    else if offset == 4 then Some(d.arch)
    else if offset == 8 then Some(d.ip.lo)
    else if offset == 12 then Some(d.ip.hi)
    else if 16 <= offset < 64 && offset % 4 == 0 then
      var a := d.args[(offset - 16) / 8];
      Some(if offset % 8 == 0 then a.lo else a.hi)
    else None
  }

  /** The layout of the data: number, architecture, instruction pointer, and six arguments of two words, the low one first. */
  lemma LayoutIs(d: Data, k: nat)
    requires ValidData(d) && k < 6
    ensures WordAt(d, 0) == Some(d.nr) && WordAt(d, 4) == Some(d.arch) && WordAt(d, 8) == Some(d.ip.lo) && WordAt(d, 12) == Some(d.ip.hi)
    ensures WordAt(d, 16 + 8 * k) == Some(d.args[k].lo) && WordAt(d, 20 + 8 * k) == Some(d.args[k].hi)
    ensures forall offset: nat | offset >= 64 || offset % 4 != 0 :: WordAt(d, offset).None?
  {
  }

  /** Runs from `pc` with accumulator `a`; `None` if it leaves the program or the data. */
  function Exec(p: Program, d: Data, pc: nat, a: Word): Option<Action>
    requires ValidData(d)
    decreases if pc < |p| then |p| - pc else 0
  {
    if pc >= |p| then None
    else match p[pc]
      case LoadAbs(offset) =>
        var w := WordAt(d, offset);
        if w.None? then None else Exec(p, d, pc + 1, w.value)
      case JumpEq(k, jt, jf) => Exec(p, d, pc + 1 + (if a == k then jt else jf), a)
      case JumpSet(k, jt, jf) => Exec(p, d, pc + 1 + (if a & k != 0 then jt else jf), a)
      case Ret(action) => Some(action)
  }

  /** An instruction with `room` instructions after it stays inside the data and the program. */
  predicate StaysInside(x: Instruction, room: nat) {
    match x
    case LoadAbs(offset) => offset < 64 && offset % 4 == 0
    case JumpEq(_, jt, jf) => jt <= 255 && jf <= 255 && jt < room && jf < room
    case JumpSet(_, jt, jf) => jt <= 255 && jf <= 255 && jt < room && jf < room
    case Ret(_) => true
  }

  predicate AllInside(p: Program, lo: nat, hi: nat)
    requires hi <= |p|
  {
    forall i | lo <= i < hi :: StaysInside(p[i], |p| - 1 - i)
  }

  /** What the kernel checks before it accepts a program: every path stays inside and returns. */
  predicate Accepted(p: Program) {
    0 < |p| <= 4096 && p[|p| - 1].Ret? && AllInside(p, 0, |p|)
  }

  // ---------------------------------------------------------------- the filter

  /** The numbers the headers of the build machine supply; `clone3` may be unknown there. */
  datatype Numbers = Numbers(arch: Word, allowed: seq<Word>, clone3: Option<Word>, clone: Word, ioctl: Word)

  const NAMESPACE_FLAGS: Word := 0x7e020000
  const TCGETS: Word := 0x5401
  const TIOCGWINSZ: Word := 0x5413
  const FIOCLEX: Word := 0x5451

  function AllowEach(numbers: seq<Word>): Program {
    if numbers == [] then [] else [JumpEq(numbers[0], 0, 1), Ret(Allow)] + AllowEach(numbers[1..])
  }

  /** libc falls back to `clone`, whose flags a filter can see. */
  function Clone3Rule(clone3: Option<Word>): Program {
    if clone3.Some? then [JumpEq(clone3.value, 0, 1), Ret(Errno(ENOSYS))] else []
  }

  function CloneRule(clone: Word): Program {
    [JumpEq(clone, 0, 4), LoadAbs(16), JumpSet(NAMESPACE_FLAGS, 1, 0), Ret(Allow), Ret(Errno(EPERM))]
  }

  function IoctlRule(ioctl: Word): Program {
    [JumpEq(ioctl, 0, 6), LoadAbs(24), JumpEq(TCGETS, 3, 0), JumpEq(TIOCGWINSZ, 2, 0), JumpEq(FIOCLEX, 1, 0),
     Ret(Errno(EPERM)), Ret(Allow)]
  }

  function AfterAllowed(n: Numbers): Program {
    Clone3Rule(n.clone3) + CloneRule(n.clone) + IoctlRule(n.ioctl) + [Ret(Errno(EPERM))]
  }

  function Prologue(arch: Word): Program { [LoadAbs(4), JumpEq(arch, 1, 0), Ret(KillProcess), LoadAbs(0)] }

  function Filter(n: Numbers): Program {
    Prologue(n.arch) + AllowEach(n.allowed) + AfterAllowed(n)
  }

  // ---------------------------------------------------------------- the decision

  const CLONE_NEWNS: Word := 0x00020000
  const CLONE_NEWCGROUP: Word := 0x02000000
  const CLONE_NEWUTS: Word := 0x04000000
  const CLONE_NEWIPC: Word := 0x08000000
  const CLONE_NEWUSER: Word := 0x10000000
  const CLONE_NEWPID: Word := 0x20000000
  const CLONE_NEWNET: Word := 0x40000000

  predicate AsksForNamespace(flags: Word) {
    || flags & CLONE_NEWNS != 0 || flags & CLONE_NEWCGROUP != 0 || flags & CLONE_NEWUTS != 0 || flags & CLONE_NEWIPC != 0
    || flags & CLONE_NEWUSER != 0 || flags & CLONE_NEWPID != 0 || flags & CLONE_NEWNET != 0
  }

  /** In the order of the rules: a number listed twice is decided by the first rule that names it. */
  function Decision(n: Numbers, d: Data): Action
    requires ValidData(d)
  {
    if d.arch != n.arch then KillProcess
    else if d.nr in n.allowed then Allow
    else if n.clone3 == Some(d.nr) then Errno(ENOSYS)
    else if d.nr == n.clone then (if AsksForNamespace(d.args[0].lo) then Errno(EPERM) else Allow)
    else if d.nr == n.ioctl && d.args[1].lo in {TCGETS, TIOCGWINSZ, FIOCLEX} then Allow
    else Errno(EPERM)
  }

  // ---------------------------------------------------------------- the program takes the decision

  lemma MaskCoversNamespaces(flags: Word)
    ensures flags & NAMESPACE_FLAGS != 0 <==> AsksForNamespace(flags)
  {
  }

  lemma {:induction false} AllowEachLength(numbers: seq<Word>)
    ensures |AllowEach(numbers)| == 2 * |numbers|
    ensures forall i | 0 <= i < |numbers| :: AllowEach(numbers)[2 * i] == JumpEq(numbers[i], 0, 1) && AllowEach(numbers)[2 * i + 1] == Ret(Allow)
  {
    if numbers != [] {
      AllowEachLength(numbers[1..]);
      forall i | 0 <= i < |numbers|
        ensures AllowEach(numbers)[2 * i] == JumpEq(numbers[i], 0, 1) && AllowEach(numbers)[2 * i + 1] == Ret(Allow)
      {
        if i > 0 { assert numbers[1..][i - 1] == numbers[i]; }
      }
    }
  }

  lemma Loads(p: Program, d: Data, pc: nat, a: Word)
    requires ValidData(d) && pc < |p| && p[pc].LoadAbs? && WordAt(d, p[pc].offset).Some?
    ensures Exec(p, d, pc, a) == Exec(p, d, pc + 1, WordAt(d, p[pc].offset).value)
  {
  }

  lemma Jumps(p: Program, d: Data, pc: nat, a: Word)
    requires ValidData(d) && pc < |p| && (p[pc].JumpEq? || p[pc].JumpSet?)
    ensures var taken := if p[pc].JumpEq? then a == p[pc].k else a & p[pc].k != 0;
      Exec(p, d, pc, a) == Exec(p, d, pc + 1 + (if taken then p[pc].jt else p[pc].jf), a)
  {
  }

  lemma Returns(p: Program, d: Data, pc: nat, a: Word)
    requires ValidData(d) && pc < |p| && p[pc].Ret?
    ensures Exec(p, d, pc, a) == Some(p[pc].action)
  {
  }

  /** `rule` stands in `p` from position `at`. */
  predicate StandsAt(p: Program, at: nat, rule: Program) {
    at + |rule| <= |p| && forall i | 0 <= i < |rule| :: p[at + i] == rule[i]
  }

  lemma InFront(numbers: seq<Word>, nr: Word)
    requires numbers != []
    ensures nr in numbers <==> nr == numbers[0] || nr in numbers[1..]
  {
  }

  /** The allow-list part, wherever it stands in a program: listed numbers return, others fall through. */
  lemma {:induction false} AllowEachRuns(p: Program, d: Data, at: nat, numbers: seq<Word>, nr: Word)
    requires ValidData(d) && StandsAt(p, at, AllowEach(numbers))
    ensures Exec(p, d, at, nr) == if nr in numbers then Some(Allow) else Exec(p, d, at + |AllowEach(numbers)|, nr)
    decreases |numbers|
  {
    hide Exec;
    if numbers != [] {
      var rule := [JumpEq(numbers[0], 0, 1), Ret(Allow)];
      RulesStand(p, at, rule, AllowEach(numbers[1..]));
      assert p[at + 0] == rule[0] && p[at + 1] == rule[1];
      Jumps(p, d, at, nr);
      Returns(p, d, at + 1, nr);
      AllowEachRuns(p, d, at + 2, numbers[1..], nr);
      InFront(numbers, nr);
    }
  }

  lemma Clone3Runs(p: Program, d: Data, at: nat, clone3: Option<Word>, nr: Word)
    requires ValidData(d) && StandsAt(p, at, Clone3Rule(clone3))
    ensures Exec(p, d, at, nr) == if clone3 == Some(nr) then Some(Errno(ENOSYS)) else Exec(p, d, at + |Clone3Rule(clone3)|, nr)
  {
    hide Exec;
    if clone3.Some? {
      assert p[at + 0] == Clone3Rule(clone3)[0] && p[at + 1] == Clone3Rule(clone3)[1];
      Jumps(p, d, at, nr);
      Returns(p, d, at + 1, nr);
    }
  }

  /** The clone rule: only the flag word's low half is looked at. */
  lemma CloneRuns(p: Program, d: Data, at: nat, clone: Word, nr: Word)
    requires ValidData(d) && StandsAt(p, at, CloneRule(clone))
    ensures Exec(p, d, at, nr) ==
      if nr != clone then Exec(p, d, at + 5, nr) else Some(if AsksForNamespace(d.args[0].lo) then Errno(EPERM) else Allow)
  {
    hide Exec, AsksForNamespace;
    var rule, flags := CloneRule(clone), d.args[0].lo;
    assert p[at + 0] == rule[0] && p[at + 1] == rule[1] && p[at + 2] == rule[2] && p[at + 3] == rule[3] && p[at + 4] == rule[4];
    MaskCoversNamespaces(flags);
    Jumps(p, d, at, nr);
    Loads(p, d, at + 1, nr);
    Jumps(p, d, at + 2, flags);
    Returns(p, d, at + 3, flags);
    Returns(p, d, at + 4, flags);
  }

  lemma IoctlRuns(p: Program, d: Data, at: nat, ioctl: Word, nr: Word)
    requires ValidData(d) && StandsAt(p, at, IoctlRule(ioctl))
    ensures Exec(p, d, at, nr) ==
      if nr != ioctl then Exec(p, d, at + 7, nr)
      else Some(if d.args[1].lo in {TCGETS, TIOCGWINSZ, FIOCLEX} then Allow else Errno(EPERM))
  {
    hide Exec;
    var rule, request := IoctlRule(ioctl), d.args[1].lo;
    assert p[at + 0] == rule[0] && p[at + 1] == rule[1] && p[at + 2] == rule[2] && p[at + 3] == rule[3];
    assert p[at + 4] == rule[4] && p[at + 5] == rule[5] && p[at + 6] == rule[6];
    Jumps(p, d, at, nr);
    Loads(p, d, at + 1, nr);
    Jumps(p, d, at + 2, request);
    Jumps(p, d, at + 3, request);
    Jumps(p, d, at + 4, request);
    Returns(p, d, at + 5, request);
    Returns(p, d, at + 6, request);
  }

  lemma RulesStand(p: Program, at: nat, rule: Program, rest: Program)
    requires StandsAt(p, at, rule + rest)
    ensures StandsAt(p, at, rule) && StandsAt(p, at + |rule|, rest)
  {
    var both := rule + rest;
    forall i | 0 <= i < |rule| ensures p[at + i] == rule[i] { assert both[i] == rule[i]; }
    forall i | 0 <= i < |rest| ensures p[at + |rule| + i] == rest[i] { assert both[|rule| + i] == rest[i]; }
  }

  /** The rules after the allow-list. */
  lemma TailRuns(n: Numbers, p: Program, d: Data, at: nat)
    requires ValidData(d) && StandsAt(p, at, AfterAllowed(n))
    requires d.arch == n.arch && d.nr !in n.allowed
    ensures Exec(p, d, at, d.nr) == Some(Decision(n, d))
  {
    hide Exec, AsksForNamespace, StandsAt;
    var clone3, clone, ioctl, last := Clone3Rule(n.clone3), CloneRule(n.clone), IoctlRule(n.ioctl), [Ret(Errno(EPERM))];
    var c := at + |clone3|;
    assert AfterAllowed(n) == clone3 + (clone + (ioctl + last));
    RulesStand(p, at, clone3, clone + (ioctl + last));
    RulesStand(p, c, clone, ioctl + last);
    RulesStand(p, c + 5, ioctl, last);
    Clone3Runs(p, d, at, n.clone3, d.nr);
    CloneRuns(p, d, c, n.clone, d.nr);
    IoctlRuns(p, d, c + 5, n.ioctl, d.nr);
    LastReturns(p, d, c + 12, d.nr);
  }

  lemma LastReturns(p: Program, d: Data, at: nat, nr: Word)
    requires ValidData(d) && StandsAt(p, at, [Ret(Errno(EPERM))])
    ensures Exec(p, d, at, nr) == Some(Errno(EPERM))
  {
    var rule := [Ret(Errno(EPERM))];
    assert p[at + 0] == rule[0];
    Returns(p, d, at, nr);
  }

  lemma PartsStand(n: Numbers)
    ensures StandsAt(Filter(n), 0, Prologue(n.arch)) && StandsAt(Filter(n), 4, AllowEach(n.allowed))
    ensures StandsAt(Filter(n), 4 + |AllowEach(n.allowed)|, AfterAllowed(n))
  {
  }

  /** On every architecture word, number and arguments the filter returns, and returns the decision. */
  lemma FilterDecides(n: Numbers, d: Data)
    requires ValidData(d)
    ensures Exec(Filter(n), d, 0, 0) == Some(Decision(n, d))
  {
    hide Exec, AfterAllowed, AllowEach;
    var p, start := Filter(n), Prologue(n.arch);
    PartsStand(n);
    assert p[0] == start[0] && p[1] == start[1] && p[2] == start[2] && p[3] == start[3];
    Loads(p, d, 0, 0);
    Jumps(p, d, 1, d.arch);
    Returns(p, d, 2, d.arch);
    Loads(p, d, 3, d.arch);
    AllowEachRuns(p, d, 4, n.allowed, d.nr);
    if d.arch == n.arch && d.nr !in n.allowed { TailRuns(n, p, d, 4 + |AllowEach(n.allowed)|); }
  }

  /** The same rule by rule, in the numbers of the kernel: 1 is EPERM, 38 is ENOSYS. */
  lemma FilterReturns(n: Numbers, d: Data)
    requires ValidData(d)
    ensures var r := Exec(Filter(n), d, 0, 0);
      if d.arch != n.arch then r == Some(KillProcess)
      else if exists i :: 0 <= i < |n.allowed| && n.allowed[i] == d.nr then r == Some(Allow)
      else if n.clone3 == Some(d.nr) then r == Some(Errno(38))
      else if d.nr == n.clone then r == Some(if d.args[0].lo & 0x7e020000 == 0 then Allow else Errno(1))
      else if d.nr == n.ioctl && (d.args[1].lo == 0x5401 || d.args[1].lo == 0x5413 || d.args[1].lo == 0x5451) then r == Some(Allow)
      else r == Some(Errno(1))
  {
    hide Exec, Filter;
    FilterDecides(n, d);
    MaskCoversNamespaces(d.args[0].lo);
  }

  lemma AllowEachInside(p: Program, at: nat, numbers: seq<Word>)
    requires StandsAt(p, at, AllowEach(numbers)) && at + |AllowEach(numbers)| < |p|
    ensures AllInside(p, at, at + |AllowEach(numbers)|)
  {
    AllowEachLength(numbers);
    forall i | at <= i < at + |AllowEach(numbers)| ensures StaysInside(p[i], |p| - 1 - i) {
      var k := (i - at) / 2;
      assert p[at + (i - at)] == AllowEach(numbers)[i - at];
      assert i - at == 2 * k || i - at == 2 * k + 1;
    }
  }

  lemma RuleInside(p: Program, at: nat, rule: Program)
    requires StandsAt(p, at, rule) && at + |rule| <= |p|
    requires forall i | 0 <= i < |rule| :: StaysInside(rule[i], |p| - 1 - (at + i))
    ensures AllInside(p, at, at + |rule|)
  {
    forall i | at <= i < at + |rule| ensures StaysInside(p[i], |p| - 1 - i) {
      assert p[at + (i - at)] == rule[i - at];
    }
  }

  lemma TailInside(n: Numbers, i: nat)
    requires i < |AfterAllowed(n)|
    ensures StaysInside(AfterAllowed(n)[i], |AfterAllowed(n)| - 1 - i)
  {
  }

  lemma FilterSize(n: Numbers)
    ensures |Filter(n)| == 2 * |n.allowed| + |Clone3Rule(n.clone3)| + 17 && Filter(n)[|Filter(n)| - 1].Ret?
    ensures |Prologue(n.arch)| == 4 && |AllowEach(n.allowed)| == 2 * |n.allowed| && |AfterAllowed(n)| == |Clone3Rule(n.clone3)| + 13
  {
    AllowEachLength(n.allowed);
    assert AfterAllowed(n)[|AfterAllowed(n)| - 1].Ret?;
  }

  lemma PrologueStays(p: Program, arch: Word)
    requires StandsAt(p, 0, Prologue(arch)) && |p| > 4
    ensures AllInside(p, 0, 4)
  {
    RuleInside(p, 0, Prologue(arch));
  }

  lemma TailStays(p: Program, n: Numbers, at: nat)
    requires StandsAt(p, at, AfterAllowed(n)) && at + |AfterAllowed(n)| == |p|
    ensures AllInside(p, at, |p|)
  {
    hide AfterAllowed, StandsAt, StaysInside, AllInside;
    var tail := AfterAllowed(n);
    forall i | 0 <= i < |tail| ensures StaysInside(tail[i], |p| - 1 - (at + i)) { TailInside(n, i); }
    RuleInside(p, at, tail);
  }

  lemma Joined(p: Program, a: nat, b: nat)
    requires a <= b <= |p| && AllInside(p, 0, a) && AllInside(p, a, b) && AllInside(p, b, |p|)
    ensures AllInside(p, 0, |p|)
  {
  }

  /** Every jump of the filter lands in the filter, every load in the data. */
  lemma FilterStaysInside(n: Numbers)
    ensures AllInside(Filter(n), 0, |Filter(n)|)
  {
    hide AllowEach, AfterAllowed, Clone3Rule, StandsAt, StaysInside, Prologue, AllInside, Filter;
    var p, listed := Filter(n), AllowEach(n.allowed);
    FilterSize(n);
    PartsStand(n);
    PrologueStays(p, n.arch);
    AllowEachInside(p, 4, n.allowed);
    TailStays(p, n, 4 + |listed|);
    Joined(p, 4, 4 + |listed|);
  }

  /** The kernel accepts the filter exactly when the allow-list leaves room in 4096 instructions. */
  lemma FilterIsAcceptedIff(n: Numbers)
    ensures Accepted(Filter(n)) <==> 2 * |n.allowed| + (if n.clone3.Some? then 2 else 0) + 17 <= 4096
  {
    hide AllInside, Filter;
    FilterSize(n);
    FilterStaysInside(n);
  }
}
