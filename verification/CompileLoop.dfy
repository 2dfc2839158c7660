/**
 The resumable compile loop (compile_loop.py): its ledger, its run between saves, and what a crash
 followed by a resume gives. Compiling and triage are arbitrary deterministic oracles.
 */
module CompileLoop {
  import opened Wrappers

  type Fingerprint = string

  datatype SourceStatus = Pending | Compiled

  datatype Source = Source(id: string, file: string, status: SourceStatus)

  datatype Claim = Claim(text: string, source: string)

  /** What the compiler reports about a document. */
  datatype Report = Report(kind: string, summary: string, evidence: seq<string>)

  datatype FindingStatus = AutoResolved | Parked | Ruled

  datatype Finding = Finding(fp: Fingerprint, report: Report, status: FindingStatus, resolution: string)

  datatype Phase = Init | Running | WaitHuman | Converged

  datatype Ledger = Ledger(state: Phase, sources: seq<Source>, claims: seq<Claim>, findings: seq<Finding>, dry: nat)

  /** `triage` answers with a resolution, or `None` to park; `baseName` is the last part of a path. */
  datatype Oracles = Oracles(
    compile: (Source, seq<Claim>) -> (seq<string>, seq<Report>), baseName: string -> string, fingerprint: Report -> Fingerprint, triage: Report -> Option<string>)

  datatype Outcome = PARK | CONVERGED

  const DRY_K: nat := 2

  // ---------------------------------------------------------------- one batch

  function FirstPending(sources: seq<Source>, from: nat): (r: Option<nat>)
    requires from <= |sources|
    ensures r.Some? ==> from <= r.value < |sources| && sources[r.value].status.Pending?
    ensures r.Some? ==> forall i | from <= i < r.value :: !sources[i].status.Pending?
    ensures r.None? ==> forall i | from <= i < |sources| :: !sources[i].status.Pending?
    decreases |sources| - from
  {
    if from == |sources| then None
    else if sources[from].status.Pending? then Some(from)
    else FirstPending(sources, from + 1)
  }

  function PendingCount(sources: seq<Source>): nat {
    if sources == [] then 0
    else (if sources[0].status.Pending? then 1 else 0) + PendingCount(sources[1..])
  }

  predicate HasFp(findings: seq<Finding>, fp: Fingerprint) { exists i :: 0 <= i < |findings| && findings[i].fp == fp }

  predicate HasParked(findings: seq<Finding>) { exists i :: 0 <= i < |findings| && findings[i].status.Parked? }

  function Judge(o: Oracles, r: Report): Finding {
    var resolution := o.triage(r);
    if resolution.Some? then Finding(o.fingerprint(r), r, AutoResolved, resolution.value)
    else Finding(o.fingerprint(r), r, Parked, "")
  }

  /** The findings after triage: a known fingerprint is not judged again. */
  function TriageAll(o: Oracles, findings: seq<Finding>, reports: seq<Report>): seq<Finding> {
    if reports == [] then findings
    else
      var before := TriageAll(o, findings, reports[..|reports| - 1]);
      var r := reports[|reports| - 1];
      if HasFp(before, o.fingerprint(r)) then before else before + [Judge(o, r)]
  }

  function Attributed(texts: seq<string>, source: string): seq<Claim> {
    seq(|texts|, i requires 0 <= i < |texts| => Claim(texts[i], source))
  }

  /** COMPILE_BATCH and TRIAGE of source number `i`. */
  function CompileAt(o: Oracles, l: Ledger, i: nat): Ledger
    requires i < |l.sources|
  {
    var (texts, reports) := o.compile(l.sources[i], l.claims);
    l.(sources := l.sources[i := l.sources[i].(status := Compiled)], claims := l.claims + Attributed(texts, o.baseName(l.sources[i].file)),
       findings := TriageAll(o, l.findings, reports), dry := 0)
  }

  lemma {:induction false} OneLessPending(sources: seq<Source>, i: nat)
    requires i < |sources| && sources[i].status.Pending?
    ensures PendingCount(sources[i := sources[i].(status := Compiled)]) == PendingCount(sources) - 1
  {
    var after := sources[i := sources[i].(status := Compiled)];
    if i == 0 {
      assert after[1..] == sources[1..];
    } else {
      assert after[1..] == sources[1..][i - 1 := after[i]];
      OneLessPending(sources[1..], i - 1);
    }
  }

  ghost function DryLeft(l: Ledger): nat { if l.dry < DRY_K then DRY_K - l.dry else 0 }

  // ---------------------------------------------------------------- a whole run

  /** The last ledger a run saves, and its outcome. */
  function Finish(o: Oracles, l: Ledger): (Ledger, Outcome)
    decreases PendingCount(l.sources), DryLeft(l)
  {
    var next := FirstPending(l.sources, 0);
    if next.Some? then
      OneLessPending(l.sources, next.value);
      Finish(o, CompileAt(o, l, next.value))
    else if HasParked(l.findings) then (l.(state := WaitHuman), PARK)
    else if l.dry + 1 >= DRY_K then (l.(state := Converged, dry := l.dry + 1), CONVERGED)
    else Finish(o, l.(dry := l.dry + 1))
  }

  /** Everything a run saves, in order. */
  function Saves(o: Oracles, l: Ledger): (r: seq<Ledger>)
    ensures r != [] && r[|r| - 1] == Finish(o, l).0
    decreases PendingCount(l.sources), DryLeft(l)
  {
    var next := FirstPending(l.sources, 0);
    if next.Some? then
      OneLessPending(l.sources, next.value);
      [CompileAt(o, l, next.value)] + Saves(o, CompileAt(o, l, next.value))
    else if HasParked(l.findings) then [l.(state := WaitHuman)]
    else if l.dry + 1 >= DRY_K then [l.(state := Converged, dry := l.dry + 1)]
    else Saves(o, l.(dry := l.dry + 1))
  }

  function RunOf(o: Oracles, l: Ledger): (Ledger, Outcome) { Finish(o, l.(state := Running)) }

  function SavesOf(o: Oracles, l: Ledger): seq<Ledger> { Saves(o, l.(state := Running)) }

  /** Converged means nothing pending and nothing parked; parked means nothing pending and a question open. */
  lemma {:induction false} OutcomeMeans(o: Oracles, l: Ledger)
    ensures var (final, outcome) := Finish(o, l);
      && PendingNone(final) && final.state == (if outcome == CONVERGED then Converged else WaitHuman)
      && (outcome == CONVERGED <==> !HasParked(final.findings))
    decreases PendingCount(l.sources), DryLeft(l)
  {
    var next := FirstPending(l.sources, 0);
    if next.Some? {
      OneLessPending(l.sources, next.value);
      OutcomeMeans(o, CompileAt(o, l, next.value));
    } else if !HasParked(l.findings) && l.dry + 1 < DRY_K {
      OutcomeMeans(o, l.(dry := l.dry + 1));
    }
  }

  predicate PendingNone(l: Ledger) { forall i | 0 <= i < |l.sources| :: l.sources[i].status.Compiled? }

  // ---------------------------------------------------------------- findings

  predicate Unique(findings: seq<Finding>) { forall i, j | 0 <= i < j < |findings| :: findings[i].fp != findings[j].fp }

  function Fps(findings: seq<Finding>): seq<Fingerprint> { seq(|findings|, i requires 0 <= i < |findings| => findings[i].fp) }

  lemma {:induction false} TriageAppends(o: Oracles, findings: seq<Finding>, reports: seq<Report>)
    requires Unique(findings)
    ensures findings <= TriageAll(o, findings, reports) && Unique(TriageAll(o, findings, reports))
  {
    if reports != [] {
      TriageAppends(o, findings, reports[..|reports| - 1]);
    }
  }

  /** A run only adds findings, each fingerprint once; what was there, settled or not, stays as it was. */
  lemma {:induction false} RunOnlyAddsFindings(o: Oracles, l: Ledger)
    requires Unique(l.findings)
    ensures var final := Finish(o, l).0;
      l.findings <= final.findings && Unique(final.findings)
    decreases PendingCount(l.sources), DryLeft(l)
  {
    var next := FirstPending(l.sources, 0);
    if next.Some? {
      OneLessPending(l.sources, next.value);
      var c := CompileAt(o, l, next.value);
      TriageAppends(o, l.findings, o.compile(l.sources[next.value], l.claims).1);
      RunOnlyAddsFindings(o, c);
    } else if !HasParked(l.findings) && l.dry + 1 < DRY_K {
      RunOnlyAddsFindings(o, l.(dry := l.dry + 1));
    }
  }

  /** Every claim a run adds names a source of the ledger. */
  ghost predicate NamesASource(o: Oracles, sources: seq<Source>, c: Claim) {
    exists i :: 0 <= i < |sources| && c.source == o.baseName(sources[i].file)
  }

  lemma SameFilesSameNames(o: Oracles, a: seq<Source>, b: seq<Source>, c: Claim)
    requires |a| == |b| && (forall i | 0 <= i < |a| :: a[i].file == b[i].file) && NamesASource(o, a, c)
    ensures NamesASource(o, b, c)
  {
    var i :| 0 <= i < |a| && c.source == o.baseName(a[i].file);
    assert c.source == o.baseName(b[i].file);
  }

  lemma {:induction false} NothingCompiled(o: Oracles, l: Ledger)
    requires FirstPending(l.sources, 0).None?
    ensures Finish(o, l).0.claims == l.claims && Finish(o, l).0.findings == l.findings
    decreases DryLeft(l)
  {
    if !HasParked(l.findings) && l.dry + 1 < DRY_K { NothingCompiled(o, l.(dry := l.dry + 1)); }
  }

  lemma {:induction false} AddedClaimsNameASource(o: Oracles, l: Ledger, k: nat)
    requires |l.claims| <= k < |Finish(o, l).0.claims|
    ensures NamesASource(o, l.sources, Finish(o, l).0.claims[k])
    decreases PendingCount(l.sources), DryLeft(l)
  {
    var next := FirstPending(l.sources, 0);
    if next.Some? {
      OneLessPending(l.sources, next.value);
      var c := CompileAt(o, l, next.value);
      if k < |c.claims| {
        ClaimsStay(o, c);
        assert c.claims[k].source == o.baseName(l.sources[next.value].file);
      } else {
        AddedClaimsNameASource(o, c, k);
        SameFilesSameNames(o, c.sources, l.sources, Finish(o, l).0.claims[k]);
      }
    } else {
      NothingCompiled(o, l);
    }
  }

  lemma {:induction false} ClaimsStay(o: Oracles, l: Ledger)
    ensures l.claims <= Finish(o, l).0.claims && |Finish(o, l).0.sources| == |l.sources|
    decreases PendingCount(l.sources), DryLeft(l)
  {
    var next := FirstPending(l.sources, 0);
    if next.Some? {
      OneLessPending(l.sources, next.value);
      ClaimsStay(o, CompileAt(o, l, next.value));
    } else if !HasParked(l.findings) && l.dry + 1 < DRY_K {
      ClaimsStay(o, l.(dry := l.dry + 1));
    }
  }

  /** A finding as triage leaves it: resolved if it has an answer, else parked for a human. */
  ghost predicate IsTriaged(o: Oracles, f: Finding) {
    exists r: Report ::
      f == match o.triage(r)
           case Some(answer) => Finding(o.fingerprint(r), r, AutoResolved, answer)
           case None => Finding(o.fingerprint(r), r, Parked, "")
  }

  /** What triage makes of one batch: every report is on record, and whatever is new is a triaged report. */
  lemma {:induction false} BatchIsTriaged(o: Oracles, findings: seq<Finding>, reports: seq<Report>)
    requires Unique(findings)
    ensures var after := TriageAll(o, findings, reports);
      && findings <= after
      && (forall k | 0 <= k < |reports| :: exists i :: 0 <= i < |after| && after[i].fp == o.fingerprint(reports[k]))
      && (forall i | |findings| <= i < |after| :: IsTriaged(o, after[i]))
  {
    if reports != [] {
      var n := |reports| - 1;
      var before, after := TriageAll(o, findings, reports[..n]), TriageAll(o, findings, reports);
      BatchIsTriaged(o, findings, reports[..n]);
      forall k | 0 <= k < |reports| ensures exists i :: 0 <= i < |after| && after[i].fp == o.fingerprint(reports[k]) {
        if k < n {
          assert reports[..n][k] == reports[k];
          var i :| 0 <= i < |before| && before[i].fp == o.fingerprint(reports[k]);
          assert after[i].fp == o.fingerprint(reports[k]);
        } else if !HasFp(before, o.fingerprint(reports[n])) {
          assert after[|before|].fp == o.fingerprint(reports[k]);
        }
      }
      if !HasFp(before, o.fingerprint(reports[n])) { assert IsTriaged(o, after[|before|]); }
    }
  }

  /** Every finding a run adds is a triaged report. */
  lemma {:induction false} AddedFindingsAreTriaged(o: Oracles, l: Ledger, k: nat)
    requires Unique(l.findings) && |l.findings| <= k < |Finish(o, l).0.findings|
    ensures IsTriaged(o, Finish(o, l).0.findings[k])
    decreases PendingCount(l.sources), DryLeft(l)
  {
    var next := FirstPending(l.sources, 0);
    if next.Some? {
      OneLessPending(l.sources, next.value);
      var c := CompileAt(o, l, next.value);
      var reports := o.compile(l.sources[next.value], l.claims).1;
      BatchIsTriaged(o, l.findings, reports);
      TriageAppends(o, l.findings, reports);
      RunOnlyAddsFindings(o, c);
      if k >= |c.findings| { AddedFindingsAreTriaged(o, c, k); }
    } else {
      NothingCompiled(o, l);
    }
  }

  /** One batch: the first pending source is compiled, its claims come behind the others under its own name, and the dry rounds start again. */
  lemma CompileEffect(o: Oracles, l: Ledger, i: nat)
    requires i < |l.sources| && l.sources[i].status.Pending? && forall j | 0 <= j < i :: l.sources[j].status.Compiled?
    ensures FirstPending(l.sources, 0) == Some(i)
    ensures var c := CompileAt(o, l, i); var texts := o.compile(l.sources[i], l.claims).0;
      && |c.sources| == |l.sources| && c.sources[i].status.Compiled? && c.sources[i].file == l.sources[i].file
      && (forall j | 0 <= j < |l.sources| && j != i :: c.sources[j] == l.sources[j])
      && |c.claims| == |l.claims| + |texts| && c.claims[..|l.claims|] == l.claims
      && (forall k | 0 <= k < |texts| :: c.claims[|l.claims| + k] == Claim(texts[k], o.baseName(l.sources[i].file)))
      && c.dry == 0 && c.state == l.state
  {
  }

  // ---------------------------------------------------------------- crash and resume

  lemma {:induction false} SavesAreRunning(o: Oracles, l: Ledger, k: nat)
    requires l.state == Running && k < |Saves(o, l)|
    ensures var s := Saves(o, l)[k]; k < |Saves(o, l)| - 1 ==> s.state == Running && Finish(o, s) == Finish(o, l)
    decreases PendingCount(l.sources), DryLeft(l)
  {
    var next := FirstPending(l.sources, 0);
    if next.Some? {
      OneLessPending(l.sources, next.value);
      if k > 0 { SavesAreRunning(o, CompileAt(o, l, next.value), k - 1); }
    } else if !HasParked(l.findings) && l.dry + 1 < DRY_K {
      SavesAreRunning(o, l.(dry := l.dry + 1), k);
    }
  }

  /** Running again from the last save: a parked ledger stays as it is, a converged one counts one more dry round. */
  lemma {:induction false} RunAgain(o: Oracles, l: Ledger)
    ensures var (final, outcome) := Finish(o, l);
      RunOf(o, final) == (if outcome == PARK then final else final.(dry := final.dry + 1), outcome)
    decreases PendingCount(l.sources), DryLeft(l)
  {
    var next := FirstPending(l.sources, 0);
    if next.Some? {
      OneLessPending(l.sources, next.value);
      RunAgain(o, CompileAt(o, l, next.value));
    } else if !HasParked(l.findings) && l.dry + 1 < DRY_K {
      RunAgain(o, l.(dry := l.dry + 1));
    } else {
      var final := Finish(o, l).0.(state := Running);
      assert final.sources == l.sources && final.findings == l.findings;
      assert FirstPending(final.sources, 0).None?;
    }
  }

  /**
   A crash after any save, resumed from it, ends with the same outcome; it ends with the same ledger if
   and only if the save was not the one that already said converged.
   */
  lemma ResumeIsTheSameRunIff(o: Oracles, l: Ledger, k: nat)
    requires k < |SavesOf(o, l)|
    ensures var s := SavesOf(o, l)[k];
      && RunOf(o, s).1 == RunOf(o, l).1
      && (RunOf(o, s).0 == RunOf(o, l).0 <==> s.state != Converged)
      && (s.state == Converged ==> RunOf(o, s).0 == RunOf(o, l).0.(dry := RunOf(o, l).0.dry + 1))
  {
    var start := l.(state := Running);
    var s := SavesOf(o, l)[k];
    if k < |SavesOf(o, l)| - 1 {
      SavesAreRunning(o, start, k);
      assert s.(state := Running) == s;
    } else {
      RunAgain(o, start);
      OutcomeMeans(o, start);
    }
  }

  /** A run without sources saves once, converged; resuming from that save ends with another ledger. */
  lemma ConvergedSaveCountsOneMore(o: Oracles)
    ensures var l := Ledger(Init, [], [], [], 0);
      && SavesOf(o, l) == [l.(state := Converged, dry := 2)]
      && RunOf(o, SavesOf(o, l)[0]).0 != RunOf(o, l).0
  {
    var l := Ledger(Init, [], [], [], 0);
    var once := l.(state := Running, dry := 1);
    assert Saves(o, l.(state := Running)) == Saves(o, once);
    ResumeIsTheSameRunIff(o, l, 0);
  }

  /** Any number of crashes, each after some save of the attempt before. */
  predicate CrashChain(o: Oracles, chain: seq<Ledger>)
    decreases |chain|
  {
    chain != [] &&
    (|chain| == 1 || (chain[1] in SavesOf(o, chain[0]) && chain[1].state != Converged && CrashChain(o, chain[1..])))
  }

  lemma {:induction false} ResumeAfterManyCrashes(o: Oracles, chain: seq<Ledger>)
    requires CrashChain(o, chain)
    ensures RunOf(o, chain[|chain| - 1]) == RunOf(o, chain[0])
    decreases |chain|
  {
    if |chain| > 1 {
      hide RunOf, SavesOf;
      var k :| 0 <= k < |SavesOf(o, chain[0])| && SavesOf(o, chain[0])[k] == chain[1];
      ResumeIsTheSameRunIff(o, chain[0], k);
      ResumeAfterManyCrashes(o, chain[1..]);
    }
  }

  // ---------------------------------------------------------------- backfill

  type AnswerSheet = seq<(Fingerprint, string)>

  function RulingFor(answers: AnswerSheet, fp: Fingerprint): Option<string> {
    if answers == [] then None
    else
      var n := |answers| - 1;
      var earlier := RulingFor(answers[..n], fp);
      if earlier.Some? then earlier else if answers[n].0 == fp then Some(answers[n].1) else None
  }

  /** What backfilling may do to a finding: a parked one that is answered is ruled, every other one stays. */
  function Answered(answers: AnswerSheet, f: Finding): Finding {
    var ruling := RulingFor(answers, f.fp);
    if f.status.Parked? && ruling.Some? then f.(status := Ruled, resolution := "human:" + ruling.value) else f
  }

  function Backfilled(answers: AnswerSheet, findings: seq<Finding>): seq<Finding> {
    seq(|findings|, i requires 0 <= i < |findings| => Answered(answers, findings[i]))
  }

  /** The first answer to a fingerprint counts; it rules a parked finding and leaves every other one alone. */
  lemma {:induction false} AnswerIs(answers: AnswerSheet, f: Finding) returns (k: nat)
    ensures k <= |answers| && (forall j | 0 <= j < k :: answers[j].0 != f.fp) && (k < |answers| ==> answers[k].0 == f.fp)
    ensures RulingFor(answers, f.fp) == if k < |answers| then Some(answers[k].1) else None
    ensures Answered(answers, f) ==
      if f.status == Parked && k < |answers| then Finding(f.fp, f.report, Ruled, "human:" + answers[k].1) else f
  {
    k := 0;
    if answers != [] {
      var n := |answers| - 1;
      k := AnswerIs(answers[..n], f);
      assert forall j | 0 <= j < n :: answers[..n][j] == answers[j];
      if k == n && answers[n].0 != f.fp { k := n + 1; }
    }
  }

  /** Backfilling answers only parked questions; once all are answered, the loop converges without asking again. */
  lemma AnsweredLoopConverges(o: Oracles, l: Ledger, answers: AnswerSheet)
    requires PendingNone(l)
    requires forall i | 0 <= i < |l.findings| && l.findings[i].status.Parked? :: RulingFor(answers, l.findings[i].fp).Some?
    ensures var after := l.(findings := Backfilled(answers, l.findings), dry := 0);
      RunOf(o, after) == (after.(dry := 2, state := Converged), CONVERGED)
  {
    var after := Backfilled(answers, l.findings);
    var start := l.(findings := after, dry := 0, state := Running);
    assert forall i | 0 <= i < |after| :: !after[i].status.Parked?;
    assert Finish(o, start) == Finish(o, start.(dry := 1));
  }

  lemma SettledFindingsStay(answers: AnswerSheet, findings: seq<Finding>, i: nat)
    requires i < |findings| && Unique(findings)
    ensures !findings[i].status.Parked? ==> Backfilled(answers, findings)[i] == findings[i]
    ensures Unique(Backfilled(answers, findings)) && Fps(Backfilled(answers, findings)) == Fps(findings)
  {
  }

  // ---------------------------------------------------------------- the object

  class CompileLedger {
    const oracles: Oracles
    var state: Phase
    var sources: seq<Source>
    var claims: seq<Claim>
    var findings: seq<Finding>
    var dry: nat
    /** What the file has held since this object was loaded, and the fingerprints triage was asked about. */
    ghost var saved: seq<Ledger>
    ghost var triaged: seq<Fingerprint>
    ghost const loaded: seq<Fingerprint>

    ghost function View(): Ledger
      reads this
    {
      Ledger(state, sources, claims, findings, dry)
    }

    /** Every recorded fingerprint was in the file or was triaged once, in this order. */
    ghost predicate Logged()
      reads this
    {
      Unique(findings) && Fps(findings) == loaded + triaged
    }

    constructor (oracles: Oracles, l: Ledger)
      requires Unique(l.findings)
      ensures this.oracles == oracles && View() == l && saved == [] && triaged == [] && Logged()
    {
      this.oracles, loaded := oracles, Fps(l.findings);
      state, sources, claims, findings, dry := l.state, l.sources, l.claims, l.findings, l.dry;
      saved, triaged := [], [];
    }

    method Save()
      modifies this`saved
      ensures saved == old(saved) + [View()]
    {
      saved := saved + [View()];
    }

    method Knows(fp: Fingerprint) returns (known: bool)
      ensures known == HasFp(findings, fp)
    {
      for i := 0 to |findings|
        invariant forall j | 0 <= j < i :: findings[j].fp != fp
      {
        if findings[i].fp == fp { return true; }
      }
      known := false;
    }

    /** `triage_finding`: asks only about a fingerprint it has never recorded. */
    method TriageFinding(r: Report)
      requires Logged()
      modifies this`findings, this`triaged
      ensures Logged()
      ensures var fp := oracles.fingerprint(r);
        if HasFp(old(findings), fp) then findings == old(findings) && triaged == old(triaged)
        else findings == old(findings) + [Judge(oracles, r)] && triaged == old(triaged) + [fp]
    {
      var fp := oracles.fingerprint(r);
      var known := Knows(fp);
      if known { return; }
      LogOne(findings, Judge(oracles, r), loaded, triaged);
      var resolution := oracles.triage(r);
      triaged := triaged + [fp];
      if resolution.Some? {
        findings := findings + [Finding(fp, r, AutoResolved, resolution.value)];
      } else {
        findings := findings + [Finding(fp, r, Parked, "")];
      }
    }

    method TriageReports(reports: seq<Report>)
      requires Logged()
      modifies this`findings, this`triaged
      ensures findings == TriageAll(oracles, old(findings), reports) && Logged()
    {
      for i := 0 to |reports|
        invariant findings == TriageAll(oracles, old(findings), reports[..i]) && Logged()
      {
        assert reports[..i + 1][..i] == reports[..i];
        TriageFinding(reports[i]);
      }
      assert reports[..|reports|] == reports;
    }

    method AddClaims(texts: seq<string>, source: string)
      modifies this`claims
      ensures claims == old(claims) + Attributed(texts, source)
    {
      for k := 0 to |texts|
        invariant claims == old(claims) + Attributed(texts[..k], source)
      {
        claims := claims + [Claim(texts[k], source)];
        assert Attributed(texts[..k + 1], source) == Attributed(texts[..k], source) + [Claim(texts[k], source)];
      }
      assert texts[..|texts|] == texts;
    }

    method CompileBatch(i: nat)
      requires i < |sources| && Logged()
      modifies this`sources, this`claims, this`findings, this`triaged, this`dry
      ensures View() == CompileAt(oracles, old(View()), i) && Logged()
    {
      var (texts, reports) := oracles.compile(sources[i], claims);
      AddClaims(texts, oracles.baseName(sources[i].file));
      sources := sources[i := sources[i].(status := Compiled)];
      TriageReports(reports);
      dry := 0;
    }

    /**
     `run`: saves after every batch and at its end, and asks triage about exactly the fingerprints it
     adds; the ledger it ends with and the saves on the way are those of the specification.
     */
    method Run() returns (outcome: Outcome)
      requires Logged()
      modifies this
      ensures (View(), outcome) == RunOf(oracles, old(View())) && saved == old(saved) + SavesOf(oracles, old(View()))
      ensures Logged()
    {
      state := Running;
      ghost var start := View();
      assert start == old(View()).(state := Running);
      while true
        invariant OnTrack(oracles, start, old(saved), View(), saved) && Logged()
        decreases PendingCount(sources), DryLeft(View())
      {
        hide CompileAt, HasParked, Logged, TriageAll, OnTrack, Finish, Saves;
        var next := FirstPending(sources, 0);
        TrackNext(oracles, start, old(saved), View(), saved);
        if next.Some? {
          OneLessPending(sources, next.value);
          CompiledSources(oracles, View(), next.value);
          CompileBatch(next.value);
          Save();
          continue;
        }
        var parked := AnyParked();
        if parked {
          state := WaitHuman;
          Save();
          return PARK;
        }
        dry := dry + 1;
        if dry >= DRY_K {
          state := Converged;
          Save();
          return CONVERGED;
        }
      }
    }

    method AnyParked() returns (parked: bool)
      ensures parked == HasParked(findings)
    {
      for i := 0 to |findings|
        invariant forall j | 0 <= j < i :: !findings[j].status.Parked?
      {
        if findings[i].status.Parked? { return true; }
      }
      parked := false;
    }

    /** `backfill`: each answer rules the parked finding it names, if there is one. */
    method Backfill(answers: AnswerSheet)
      requires Unique(findings)
      modifies this`findings, this`dry, this`saved
      ensures View() == old(View()).(findings := Backfilled(answers, old(findings)), dry := 0)
      ensures saved == old(saved) + [View()]
    {
      assert findings == Backfilled([], findings);
      assert answers[..0] == [];
      for i := 0 to |answers|
        invariant findings == Backfilled(answers[..i], old(findings)) && View() == old(View()).(findings := findings) && saved == old(saved)
      {
        SettledUnique(answers[..i], old(findings));
        Rule(answers[i].0, answers[i].1);
        RuleNext(answers, i, old(findings));
      }
      assert answers[..|answers|] == answers;
      dry := 0;
      Save();
    }

    method Rule(fp: Fingerprint, ruling: string)
      requires Unique(findings)
      modifies this`findings
      ensures findings == RuleOne(old(findings), fp, ruling)
    {
      var i := 0;
      while i < |findings| && findings[i].fp != fp
        invariant i <= |findings| && forall j | 0 <= j < i :: findings[j].fp != fp
      {
        i := i + 1;
      }
      if i < |findings| && findings[i].status.Parked? {
        findings := findings[i := findings[i].(status := Ruled, resolution := "human:" + ruling)];
      }
      assert findings == RuleOne(old(findings), fp, ruling);
    }
  }

  lemma LogOne(findings: seq<Finding>, f: Finding, loaded: seq<Fingerprint>, triaged: seq<Fingerprint>)
    requires Unique(findings) && Fps(findings) == loaded + triaged && !HasFp(findings, f.fp)
    ensures Unique(findings + [f]) && Fps(findings + [f]) == loaded + (triaged + [f.fp])
  {
    assert Fps(findings + [f]) == Fps(findings) + [f.fp];
  }

  /** In the middle of a run: the same end ahead, and the right saves behind. */
  ghost predicate OnTrack(o: Oracles, start: Ledger, before: seq<Ledger>, now: Ledger, saved: seq<Ledger>) {
    Finish(o, now) == Finish(o, start) && before + Saves(o, start) == saved + Saves(o, now)
  }

  lemma TrackNext(o: Oracles, start: Ledger, before: seq<Ledger>, now: Ledger, saved: seq<Ledger>)
    requires OnTrack(o, start, before, now, saved)
    ensures var next := FirstPending(now.sources, 0);
      if next.Some? then OnTrack(o, start, before, CompileAt(o, now, next.value), saved + [CompileAt(o, now, next.value)])
      else if HasParked(now.findings) then
        Finish(o, start) == (now.(state := WaitHuman), PARK) && before + Saves(o, start) == saved + [now.(state := WaitHuman)]
      else
        var dryer := now.(dry := now.dry + 1);
        if now.dry + 1 >= DRY_K then
          Finish(o, start) == (dryer.(state := Converged), CONVERGED) && before + Saves(o, start) == saved + [dryer.(state := Converged)]
        else OnTrack(o, start, before, dryer, saved)
  {
    var next := FirstPending(now.sources, 0);
    if next.Some? {
      var c := CompileAt(o, now, next.value);
      assert saved + ([c] + Saves(o, c)) == (saved + [c]) + Saves(o, c);
    }
  }

  lemma CompiledSources(o: Oracles, l: Ledger, i: nat)
    requires i < |l.sources|
    ensures CompileAt(o, l, i).sources == l.sources[i := l.sources[i].(status := Compiled)]
  {
  }

  function RuleOne(findings: seq<Finding>, fp: Fingerprint, ruling: string): seq<Finding> {
    seq(|findings|, i requires 0 <= i < |findings| =>
      if findings[i].fp == fp && findings[i].status.Parked? then findings[i].(status := Ruled, resolution := "human:" + ruling) else findings[i])
  }

  lemma SettledUnique(answers: AnswerSheet, findings: seq<Finding>)
    requires Unique(findings)
    ensures Unique(Backfilled(answers, findings))
  {
  }

  lemma RuleNext(answers: AnswerSheet, i: nat, findings: seq<Finding>)
    requires i < |answers|
    ensures RuleOne(Backfilled(answers[..i], findings), answers[i].0, answers[i].1) == Backfilled(answers[..i + 1], findings)
  {
    assert answers[..i + 1][..i] == answers[..i];
  }
}
