/**
 The critic's bounded review and revise loops, with a budget check before every guarded call.
 */
module CriticLoop {
  import opened Wrappers

  /******* Verdicts *******/

  datatype Severity = Info | Minor | Major | Blocking

  datatype Report = Report(
    target: string,
    passed: bool,
    score: real,
    findings: seq<Severity>,
    roleFindings: seq<seq<Severity>>,
    checklist: seq<bool>,
    budgetExhausted: bool)

  function Flatten(parts: seq<seq<Severity>>): seq<Severity> {
    if parts == [] then [] else parts[0] + Flatten(parts[1..])
  }

  function AllFindings(r: Report): seq<Severity> {
    r.findings + Flatten(r.roleFindings)
  }

  function MajorCount(r: Report): nat {
    multiset(AllFindings(r))[Major]
  }

  function PassRate(r: Report): real {
    if r.checklist == [] then 1.0
    else multiset(r.checklist)[true] as real / |r.checklist| as real
  }

  datatype Policy = Policy(
    minScore: real,
    minPassRate: real,
    maxRounds: int,
    cap: real,
    reviewEstimate: real,
    revisionEstimate: real,
    coderRevisionEstimate: real,
    minScoreFor: map<string, real>,
    minPassRateFor: map<string, real>,
    maxRoundsFor: map<string, int>)

  const DEFAULT_POLICY: Policy :=
    Policy(0.80, 0.85, 2, 1.00, 0.14, 0.30, 0.18,
           map["searcher" := 0.75],
           map["searcher" := 0.80],
           map["writer" := 1, "analyzer" := 1, "searcher" := 1])

  function Override<T>(m: map<string, T>, k: string, default: T): T {
    if k in m then m[k] else default
  }

  predicate RequiresRevision(r: Report, p: Policy) {
    if r.budgetExhausted then false
    else if Blocking in AllFindings(r) then true
    else if MajorCount(r) >= 2 then true
    else if r.score < Override(p.minScoreFor, r.target, p.minScore) then true
    else if PassRate(r) < Override(p.minPassRateFor, r.target, p.minPassRate) then true
    else if r.passed then false
    else MajorCount(r) > 0
  }

  predicate ShouldFailRun(r: Report) {
    Blocking in AllFindings(r) && (!r.passed || r.budgetExhausted)
  }

  lemma {:induction false} FlattenedMember(parts: seq<seq<Severity>>, f: Severity)
    ensures f in Flatten(parts) <==> exists k :: 0 <= k < |parts| && f in parts[k]
  {
    if parts != [] {
      FlattenedMember(parts[1..], f);
      assert parts == [parts[0]] + parts[1..];
      if k :| 0 <= k < |parts[1..]| && f in parts[1..][k] { assert f in parts[k + 1]; }
    }
  }

  /** A finding counts whether the critic or one of its roles made it. */
  lemma FindingsOfAll(r: Report, f: Severity)
    ensures f in AllFindings(r) <==> f in r.findings || exists k :: 0 <= k < |r.roleFindings| && f in r.roleFindings[k]
  {
    FlattenedMember(r.roleFindings, f);
  }

  /** The pass rate is the share of passed items, and 1 without a checklist. */
  lemma PassRateIsShare(r: Report, passed: nat)
    requires passed == multiset(r.checklist)[true]
    ensures r.checklist == [] ==> PassRate(r) == 1.0
    ensures r.checklist != [] ==> PassRate(r) * |r.checklist| as real == passed as real
  {
  }

  /** A report the critic passed without findings is sent back exactly for a score or a pass rate under its
      stage's threshold, under the default policy; only the searcher has its own. */
  lemma ThresholdsDecide(r: Report)
    requires !r.budgetExhausted && r.passed && AllFindings(r) == []
    ensures RequiresRevision(r, DEFAULT_POLICY) <==>
      if r.target == "searcher" then r.score < 0.75 || PassRate(r) < 0.80 else r.score < 0.80 || PassRate(r) < 0.85
  {
  }

  /** Over the thresholds the findings decide: a blocking one, two major ones, or one if the critic did not pass
      the report. */
  lemma FindingsDecide(r: Report)
    requires !r.budgetExhausted && r.score >= 0.80 && PassRate(r) >= 0.85
    ensures RequiresRevision(r, DEFAULT_POLICY) <==>
      Blocking in AllFindings(r) || multiset(AllFindings(r))[Major] >= (if r.passed then 2 else 1)
  {
  }

  /** b is at least as good a verdict on the same target as a. */
  predicate AtLeastAsGood(b: Report, a: Report) {
    && b.target == a.target && b.budgetExhausted == a.budgetExhausted
    && (Blocking in AllFindings(b) ==> Blocking in AllFindings(a))
    && MajorCount(b) <= MajorCount(a)
    && b.score >= a.score && PassRate(b) >= PassRate(a)
    && (a.passed ==> b.passed)
  }

  /** A better verdict never asks for a revision that a worse one would not, and a verdict that would have
      failed the run always asks for one while the budget lasts. */
  lemma VerdictsAreMonotone(a: Report, b: Report, p: Policy)
    requires AtLeastAsGood(b, a)
    ensures RequiresRevision(b, p) ==> RequiresRevision(a, p)
    ensures ShouldFailRun(b) ==> ShouldFailRun(a)
    ensures ShouldFailRun(a) && !a.budgetExhausted ==> RequiresRevision(a, p)
  {
  }

  /******* What the loop meets *******/

  type Artifact(==, !new)

  datatype Revised = Revised(a: Artifact) | AgentFailed | Crashed

  /** Everything outside the loop: verdicts, revisions and real costs round by round, and the tracker's
      reads in order, the baseline's first. A failed read gives 0. */
  datatype World = World(
    review: nat -> Option<Report>,
    revise: nat -> Revised,
    reviewCost: nat -> real,
    reviseCost: nat -> real,
    tracked: bool,
    upstream: real,
    readOk: nat -> bool)

  // The numbers one loop works with.
  datatype Limits = Limits(maxRounds: int, reviewEstimate: real, revisionEstimate: real, cap: real)

  function StageLimits(p: Policy, target: string): Limits {
    Limits(Override(p.maxRoundsFor, target, p.maxRounds), p.reviewEstimate, p.revisionEstimate, p.cap)
  }

  function CoderLimits(p: Policy): Limits {
    Limits(Override(p.maxRoundsFor, "coder", p.maxRounds), p.reviewEstimate, p.coderRevisionEstimate, p.cap)
  }

  /******* The loop as a function *******/

  datatype Exit = Accepted | BudgetBeforeRevision | RevisionFailed | BudgetAfterRevision | RoundsExhausted | Raised

  /** `judged` is the artifact the last review saw; `spent` is what the calls really cost, `estimated` what
      the loop added up; `looks` counts the tracker's reads, `revisions` the attempts, `revised` those that gave
      an artifact. */
  datatype State = State(
    current: Artifact,
    report: Report,
    judged: Artifact,
    estimated: real,
    spent: real,
    looks: nat,
    reviews: nat,
    revisions: nat,
    revised: nat)

  datatype Outcome = Outcome(exit: Exit, state: State)

  function Reading(w: World, k: nat, spent: real): real {
    if w.readOk(k) then w.upstream + spent else 0.0
  }

  function SpentSoFar(w: World, s: State): real {
    if w.tracked then Reading(w, s.looks, s.spent) - Reading(w, 0, 0.0) else s.estimated
  }

  predicate OverBudget(w: World, l: Limits, s: State, estimate: real) {
    SpentSoFar(w, s) + estimate > l.cap
  }

  function Attempted(w: World, s: State, r: nat): State {
    s.(spent := s.spent + w.reviseCost(r), looks := s.looks + 1, revisions := s.revisions + 1)
  }

  function Revise(w: World, l: Limits, s: State, r: nat, a: Artifact): State {
    Attempted(w, s, r).(current := a, estimated := s.estimated + l.revisionEstimate, revised := s.revised + 1)
  }

  function Asked(w: World, s: State, r: nat): State {
    s.(spent := s.spent + w.reviewCost(r), looks := s.looks + 1, reviews := s.reviews + 1)
  }

  function Judge(w: World, l: Limits, s: State, r: nat, report: Report): State {
    Asked(w, s, r).(report := report, judged := s.current, estimated := s.estimated + l.reviewEstimate)
  }

  function Exhaust(s: State): State {
    s.(report := s.report.(budgetExhausted := true), looks := s.looks + 1)
  }

  // One turn: an exit, or the state the next turn starts from.
  datatype Turn = Leave(o: Outcome) | Again(s: State)

  // The second half of a turn, after a revision that gave an artifact.
  function Reviewed(w: World, l: Limits, needsWork: Report -> bool, r: nat, s: State): Turn {
    if OverBudget(w, l, s, l.reviewEstimate) then Leave(Outcome(BudgetAfterRevision, Exhaust(s)))
    else
      match w.review(r)
      case None => Leave(Outcome(Raised, Asked(w, s, r)))
      case Some(report) =>
        var s' := Judge(w, l, s, r, report);
        if needsWork(report) then Again(s') else Leave(Outcome(Accepted, s'))
  }

  function Round(w: World, l: Limits, needsWork: Report -> bool, r: nat, s: State): Turn {
    if OverBudget(w, l, s, l.revisionEstimate) then Leave(Outcome(BudgetBeforeRevision, Exhaust(s)))
    else
      match w.revise(r)
      case AgentFailed => Leave(Outcome(RevisionFailed, Attempted(w, s, r)))
      case Crashed => Leave(Outcome(Raised, Attempted(w, s, r)))
      case Revised(a) => Reviewed(w, l, needsWork, r, Revise(w, l, s, r, a))
  }

  function Rounds(w: World, l: Limits, needsWork: Report -> bool, r: nat, s: State): Outcome
    decreases l.maxRounds - r
  {
    if r > l.maxRounds then Outcome(RoundsExhausted, s)
    else
      match Round(w, l, needsWork, r, s)
      case Leave(o) => o
      case Again(s') => Rounds(w, l, needsWork, r + 1, s')
  }

  // Before the first review nothing has been judged and no verdict exists.
  const NO_REPORT: Report := Report("", false, 0.0, [], [], [], false)

  function Start(w: World, output: Artifact): State {
    State(output, NO_REPORT, output, 0.0, 0.0, 0, 0, 0, 0)
  }

  function Run(w: World, l: Limits, needsWork: Report -> bool, output: Artifact): Outcome {
    match w.review(0)
    case None => Outcome(Raised, Asked(w, Start(w, output), 0))
    case Some(report) =>
      var s := Judge(w, l, Start(w, output), 0, report);
      if needsWork(report) then Rounds(w, l, needsWork, 1, s) else Outcome(Accepted, s)
  }

  /******* The loop itself *******/

  predicate Warns(o: Outcome) {
    o.exit !in {Accepted, Raised} && ShouldFailRun(o.state.report)
  }

  // The reminders after the loop: an early return or an exception writes none.
  function RemindersAfter(o: Outcome, before: map<string, string>, next: Option<string>, reminder: Report -> string): map<string, string> {
    if o.exit in {Accepted, Raised} || next.None? || reminder(o.state.report) == "" then before
    else before[next.value := reminder(o.state.report)]
  }

  method ReviewLoop(w: World, l: Limits, needsWork: Report -> bool, output: Artifact, before: map<string, string>, next: Option<string>, reminder: Report -> string)
    returns (result: Option<Artifact>, warned: bool, reminders: map<string, string>)
    ensures var o := Run(w, l, needsWork, output);
            && result == (if o.exit == Raised then None else Some(o.state.current))
            && warned == Warns(o)
            && reminders == RemindersAfter(o, before, next, reminder)
  {
    ghost var s := Start(w, output);
    reminders, warned := before, false;
    var current, loopCost, spent, looks := output, 0.0, 0.0, 1;
    var base := Reading(w, 0, 0.0);
    if w.review(0).None? { return None, warned, reminders; }
    var report := w.review(0).value;
    spent := spent + w.reviewCost(0);
    loopCost := loopCost + l.reviewEstimate;
    s := Judge(w, l, s, 0, report);
    if !needsWork(report) { return Some(current), warned, reminders; }
    var r := 1;
    while r <= l.maxRounds
      invariant r >= 1
      invariant s.current == current && s.report == report && s.estimated == loopCost && s.spent == spent && s.looks == looks
      invariant Rounds(w, l, needsWork, r, s) == Run(w, l, needsWork, output)
      decreases l.maxRounds - r
    {
      var actual := if w.tracked then Reading(w, looks, spent) - base else loopCost;
      looks := looks + 1;
      if actual + l.revisionEstimate > l.cap {
        report := report.(budgetExhausted := true);
        s := Exhaust(s);
        break;
      }
      spent := spent + w.reviseCost(r);
      var revised := w.revise(r);
      if revised == Crashed { return None, warned, reminders; }
      if revised == AgentFailed {
        s := Attempted(w, s, r);
        break;
      }
      current := revised.a;
      loopCost := loopCost + l.revisionEstimate;
      s := Revise(w, l, s, r, current);
      actual := if w.tracked then Reading(w, looks, spent) - base else loopCost;
      looks := looks + 1;
      if actual + l.reviewEstimate > l.cap {
        report := report.(budgetExhausted := true);
        s := Exhaust(s);
        break;
      }
      spent := spent + w.reviewCost(r);
      if w.review(r).None? { return None, warned, reminders; }
      report := w.review(r).value;
      loopCost := loopCost + l.reviewEstimate;
      s := Judge(w, l, s, r, report);
      if !needsWork(report) { return Some(current), warned, reminders; }
      r := r + 1;
    }
    warned := ShouldFailRun(report);
    if reminder(report) != "" && next.Some? {
      reminders := reminders[next.value := reminder(report)];
    }
    result := Some(current);
  }

  // The stage reviewer's loop; the estimates may be given by the caller.
  function StageRun(w: World, p: Policy, target: string, reviewEstimate: Option<real>, revisionEstimate: Option<real>, output: Artifact): Outcome {
    var l := StageLimits(p, target);
    var l := if reviewEstimate.Some? then l.(reviewEstimate := reviewEstimate.value) else l;
    var l := if revisionEstimate.Some? then l.(revisionEstimate := revisionEstimate.value) else l;
    Run(w, l, (r: Report) => RequiresRevision(r, p), output)
  }

  function CoderRun(w: World, p: Policy, output: Artifact): Outcome {
    Run(w, CoderLimits(p), (r: Report) => RequiresRevision(r, p), output)
  }

  function NextStage(stage: string): Option<string> {
    match stage
    case "analyzer" => Some("searcher")
    case "searcher" => Some("modeler")
    case "modeler" => Some("coder")
    case "coder" => Some("writer")
    case _ => None
  }

  /** The reminder of a stage is for the stage that runs right after it; after the last there is none. */
  lemma NextStageRunsNext(i: nat)
    requires i < 5
    ensures var stages := ["analyzer", "searcher", "modeler", "coder", "writer"];
            NextStage(stages[i]) == if i < 4 then Some(stages[i + 1]) else None
  {
  }

  method ReviewAndMaybeRevise(w: World, p: Policy, target: string, output: Artifact, reviewEstimate: Option<real>,
      revisionEstimate: Option<real>, before: map<string, string>, reminder: Report -> string)
    returns (result: Option<Artifact>, warned: bool, reminders: map<string, string>)
    ensures var o := StageRun(w, p, target, reviewEstimate, revisionEstimate, output);
            && result == (if o.exit == Raised then None else Some(o.state.current))
            && warned == Warns(o)
            && reminders == RemindersAfter(o, before, NextStage(target), reminder)
  {
    var l := StageLimits(p, target);
    if reviewEstimate.Some? { l := l.(reviewEstimate := reviewEstimate.value); }
    if revisionEstimate.Some? { l := l.(revisionEstimate := revisionEstimate.value); }
    result, warned, reminders := ReviewLoop(w, l, (r: Report) => RequiresRevision(r, p), output, before, NextStage(target), reminder);
  }

  method ReviewAndMaybeRerunCoder(w: World, p: Policy, output: Artifact, before: map<string, string>, reminder: Report -> string)
    returns (result: Option<Artifact>, warned: bool, reminders: map<string, string>)
    ensures var o := CoderRun(w, p, output);
            && result == (if o.exit == Raised then None else Some(o.state.current))
            && warned == Warns(o)
            && reminders == RemindersAfter(o, before, Some("writer"), reminder)
  {
    result, warned, reminders := ReviewLoop(w, CoderLimits(p), (r: Report) => RequiresRevision(r, p), output, before, Some("writer"), reminder);
  }

  /******* What every run keeps *******/

  // The artifact after n revisions.
  function Version(w: World, output: Artifact, n: nat): Artifact {
    if n > 0 && w.revise(n).Revised? then w.revise(n).a else output
  }

  // At the start of turn r everything so far has been judged, and the last verdict asks for more.
  predicate Ready(w: World, needsWork: Report -> bool, output: Artifact, r: nat, s: State) {
    && r >= 1
    && s.reviews == r && s.revisions == r - 1 && s.revised == r - 1
    && s.current == s.judged == Version(w, output, r - 1)
    && w.review(r - 1) == Some(s.report) && needsWork(s.report)
  }

  /** Where the returned artifact and the final verdict come from, exit by exit. */
  predicate Accounted(w: World, needsWork: Report -> bool, output: Artifact, o: Outcome) {
    var s := o.state;
    var last := if s.reviews >= 1 then w.review(s.reviews - 1) else None;
    match o.exit
    case Raised => true
    case Accepted =>
      && s.reviews == s.revised + 1 && s.revisions == s.revised
      && s.current == s.judged == Version(w, output, s.revised)
      && last == Some(s.report) && !needsWork(s.report)
    case RevisionFailed =>
      && s.reviews == s.revised + 1 && s.revisions == s.revised + 1 && w.revise(s.revisions) == AgentFailed
      && s.current == s.judged == Version(w, output, s.revised)
      && last == Some(s.report) && needsWork(s.report)
    case RoundsExhausted =>
      && s.reviews == s.revised + 1 && s.revisions == s.revised
      && s.current == s.judged == Version(w, output, s.revised)
      && last == Some(s.report) && needsWork(s.report)
    case BudgetBeforeRevision =>
      && s.reviews == s.revised + 1 && s.revisions == s.revised
      && s.current == s.judged == Version(w, output, s.revised)
      && last.Some? && s.report == last.value.(budgetExhausted := true) && needsWork(last.value)
    case BudgetAfterRevision =>
      && s.reviews == s.revised == s.revisions && s.revised >= 1
      && s.current == Version(w, output, s.revised) && s.judged == Version(w, output, s.revised - 1)
      && last.Some? && s.report == last.value.(budgetExhausted := true) && needsWork(last.value)
  }

  lemma RoundKeeps(w: World, l: Limits, needsWork: Report -> bool, output: Artifact, r: nat, s: State)
    requires Ready(w, needsWork, output, r, s)
    ensures match Round(w, l, needsWork, r, s)
            case Leave(o) => Accounted(w, needsWork, output, o) && o.exit != RoundsExhausted
            case Again(s') => Ready(w, needsWork, output, r + 1, s')
  {
  }

  lemma {:induction false} RoundsKeep(w: World, l: Limits, needsWork: Report -> bool, output: Artifact, r: nat, s: State)
    requires Ready(w, needsWork, output, r, s)
    ensures Accounted(w, needsWork, output, Rounds(w, l, needsWork, r, s))
    decreases l.maxRounds - r
  {
    if r <= l.maxRounds {
      RoundKeeps(w, l, needsWork, output, r, s);
      match Round(w, l, needsWork, r, s)
      case Leave(_) =>
      case Again(s') => RoundsKeep(w, l, needsWork, output, r + 1, s');
    }
  }

  lemma RunKeeps(w: World, l: Limits, needsWork: Report -> bool, output: Artifact)
    ensures Accounted(w, needsWork, output, Run(w, l, needsWork, output))
  {
    match w.review(0)
    case None =>
    case Some(report) =>
      if needsWork(report) {
        RoundsKeep(w, l, needsWork, output, 1, Judge(w, l, Start(w, output), 0, report));
      }
  }

  /** Whatever the verdicts, failures and costs: what comes back is the artifact the last review judged,
      except after the budget stop that follows a revision, which gives back exactly that one unreviewed revision. */
  lemma Provenance(w: World, l: Limits, needsWork: Report -> bool, output: Artifact)
    ensures var o := Run(w, l, needsWork, output);
            var s := o.state;
            o.exit != Raised ==>
              && s.current == Version(w, output, s.revised)
              && (o.exit != BudgetAfterRevision <==> s.reviews == s.revised + 1)
              && (o.exit != BudgetAfterRevision ==> s.judged == s.current)
              && (o.exit == BudgetAfterRevision ==> s.reviews == s.revised >= 1 && s.judged == Version(w, output, s.revised - 1))
              && (o.exit == Accepted <==> s.reviews >= 1 && w.review(s.reviews - 1).Some? && !needsWork(w.review(s.reviews - 1).value))
  {
    RunKeeps(w, l, needsWork, output);
  }

  /******* Bounds on calls and spend *******/

  function Rest(l: Limits): nat {
    if l.maxRounds < 0 then 0 else l.maxRounds
  }

  // The last guarded call of an outcome cost this much more than its estimate.
  function Overrun(w: World, l: Limits, s: State): real {
    if s.reviews == s.revisions + 1 then w.reviewCost(s.revisions) - l.reviewEstimate
    else w.reviseCost(s.revisions) - l.revisionEstimate
  }

  predicate Bounded(w: World, l: Limits, s: State) {
    && s.revisions <= Rest(l) && s.revisions <= s.reviews <= s.revisions + 1
    && (s.revisions == 0 ==> s.spent == w.reviewCost(0))
    && (s.revisions > 0 ==> s.spent <= l.cap + Overrun(w, l, s))
  }

  /** Every read that can guard a call succeeds; the baseline's need not. */
  ghost predicate GuardsRead(ok: nat -> bool, l: Limits) {
    forall k: nat :: 1 <= k <= 2 * Rest(l) ==> ok(k)
  }

  lemma RoundBounded(w: World, l: Limits, needsWork: Report -> bool, output: Artifact, r: nat, s: State)
    requires w.tracked && w.upstream >= 0.0 && GuardsRead(w.readOk, l)
    requires Ready(w, needsWork, output, r, s) && Bounded(w, l, s) && r <= l.maxRounds && s.looks == 2 * r - 1
    ensures match Round(w, l, needsWork, r, s)
            case Leave(o) => Bounded(w, l, o.state)
            case Again(s') => Bounded(w, l, s') && s'.looks == 2 * r + 1
  {
    assert w.readOk(2 * r - 1) && w.readOk(2 * r);
    assert SpentSoFar(w, s) >= s.spent;
  }

  lemma {:induction false} RoundsBounded(w: World, l: Limits, needsWork: Report -> bool, output: Artifact, r: nat, s: State)
    requires w.tracked && w.upstream >= 0.0 && GuardsRead(w.readOk, l)
    requires Ready(w, needsWork, output, r, s) && Bounded(w, l, s) && s.looks == 2 * r - 1
    ensures Bounded(w, l, Rounds(w, l, needsWork, r, s).state)
    decreases l.maxRounds - r
  {
    if r <= l.maxRounds {
      RoundBounded(w, l, needsWork, output, r, s);
      RoundKeeps(w, l, needsWork, output, r, s);
      match Round(w, l, needsWork, r, s)
      case Leave(_) =>
      case Again(s') => RoundsBounded(w, l, needsWork, output, r + 1, s');
    }
  }

  /** With a tracker whose guarding reads succeed, a run costs just its unguarded first review, or at most the cap
      plus what its last call cost beyond the estimate for it. */
  lemma SpendBound(w: World, l: Limits, needsWork: Report -> bool, output: Artifact)
    requires w.tracked && w.upstream >= 0.0 && GuardsRead(w.readOk, l)
    ensures Bounded(w, l, Run(w, l, needsWork, output).state)
  {
    match w.review(0)
    case None =>
    case Some(report) =>
      if needsWork(report) {
        RoundsBounded(w, l, needsWork, output, 1, Judge(w, l, Start(w, output), 0, report));
      }
  }

  /******* What the budget is measured against *******/

  /** The baseline and every read that can guard a call succeed. */
  ghost predicate AllReadsGood(w: World, l: Limits) {
    w.tracked && w.readOk(0) && GuardsRead(w.readOk, l)
  }

  // What the loop ought to know at a stop: the calls' real cost if it is tracked, else what it added up.
  function Known(w: World, s: State): real {
    if w.tracked then s.spent else s.estimated
  }

  /** A stop for the budget means that the call it prevents would not have fitted under the cap. */
  predicate StopsForCause(w: World, l: Limits, o: Outcome) {
    && (o.exit == BudgetBeforeRevision ==> Known(w, o.state) + l.revisionEstimate > l.cap)
    && (o.exit == BudgetAfterRevision ==> Known(w, o.state) + l.reviewEstimate > l.cap)
  }

  lemma RoundStopsForCause(w: World, l: Limits, needsWork: Report -> bool, r: nat, s: State)
    requires !w.tracked || AllReadsGood(w, l)
    requires 1 <= r <= l.maxRounds && s.looks == 2 * r - 1
    ensures match Round(w, l, needsWork, r, s)
            case Leave(o) => StopsForCause(w, l, o)
            case Again(s') => s'.looks == 2 * r + 1
  {
    if w.tracked { assert w.readOk(2 * r - 1) && w.readOk(2 * r); }
  }

  lemma {:induction false} RoundsStopForCause(w: World, l: Limits, needsWork: Report -> bool, r: nat, s: State)
    requires !w.tracked || AllReadsGood(w, l)
    requires r >= 1 && s.looks == 2 * r - 1
    ensures StopsForCause(w, l, Rounds(w, l, needsWork, r, s))
    decreases l.maxRounds - r
  {
    if r <= l.maxRounds {
      RoundStopsForCause(w, l, needsWork, r, s);
      match Round(w, l, needsWork, r, s)
      case Leave(_) =>
      case Again(s') => RoundsStopForCause(w, l, needsWork, r + 1, s');
    }
  }

  /** With good reads, or without a tracker, no call is refused that fits under the cap: a stop before a revision
      means that its estimate does not fit on top of what this loop has spent, and a stop after one that the
      review's does not. */
  lemma NoStopWhileItFits(w: World, l: Limits, needsWork: Report -> bool, output: Artifact)
    requires !w.tracked || AllReadsGood(w, l)
    ensures StopsForCause(w, l, Run(w, l, needsWork, output))
  {
    match w.review(0)
    case None =>
    case Some(report) =>
      if needsWork(report) {
        RoundsStopForCause(w, l, needsWork, 1, Judge(w, l, Start(w, output), 0, report));
      }
  }

  lemma RoundIgnoresUpstream(w: World, v: World, l: Limits, needsWork: Report -> bool, r: nat, s: State)
    requires AllReadsGood(w, l) && v == w.(upstream := v.upstream)
    requires 1 <= r <= l.maxRounds && s.looks == 2 * r - 1
    ensures Round(w, l, needsWork, r, s) == Round(v, l, needsWork, r, s)
    ensures match Round(w, l, needsWork, r, s) case Leave(_) => true case Again(s') => s'.looks == 2 * r + 1
  {
    assert w.readOk(2 * r - 1) && w.readOk(2 * r);
  }

  lemma {:induction false} RoundsIgnoreUpstream(w: World, v: World, l: Limits, needsWork: Report -> bool, r: nat, s: State)
    requires AllReadsGood(w, l) && v == w.(upstream := v.upstream)
    requires r >= 1 && s.looks == 2 * r - 1
    ensures Rounds(w, l, needsWork, r, s) == Rounds(v, l, needsWork, r, s)
    decreases l.maxRounds - r
  {
    if r <= l.maxRounds {
      RoundIgnoresUpstream(w, v, l, needsWork, r, s);
      match Round(w, l, needsWork, r, s)
      case Leave(_) =>
      case Again(s') => RoundsIgnoreUpstream(w, v, l, needsWork, r + 1, s');
    }
  }

  /** With good reads the loop is charged for nothing that came before it: what the run has cost so far makes no
      difference to any part of the outcome. */
  lemma UpstreamIsNotCharged(w: World, v: World, l: Limits, needsWork: Report -> bool, output: Artifact)
    requires AllReadsGood(w, l) && v == w.(upstream := v.upstream)
    ensures Run(w, l, needsWork, output) == Run(v, l, needsWork, output)
  {
    match w.review(0)
    case None =>
    case Some(report) =>
      if needsWork(report) {
        RoundsIgnoreUpstream(w, v, l, needsWork, 1, Judge(w, l, Start(w, output), 0, report));
      }
  }

  // The sum of the first n costs.
  function SumOf(cost: nat -> real, n: nat): real {
    if n == 0 then 0.0 else SumOf(cost, n - 1) + cost(n - 1)
  }

  function Times(n: nat, x: real): real {
    if n == 0 then 0.0 else Times(n - 1, x) + x
  }

  /** What was spent is what the calls that were made cost, and the estimate counts each of them once. */
  predicate AddsUp(w: World, l: Limits, s: State) {
    && s.spent == SumOf(w.reviewCost, s.reviews) + SumOf((i: nat) => w.reviseCost(i + 1), s.revisions)
    && s.estimated == Times(s.reviews, l.reviewEstimate) + Times(s.revised, l.revisionEstimate)
  }

  lemma RoundAddsUp(w: World, l: Limits, needsWork: Report -> bool, r: nat, s: State)
    requires AddsUp(w, l, s) && r >= 1 && s.reviews == r && s.revisions == r - 1
    ensures match Round(w, l, needsWork, r, s)
            case Leave(o) => o.exit != Raised ==> AddsUp(w, l, o.state)
            case Again(s') => AddsUp(w, l, s') && s'.reviews == r + 1 && s'.revisions == r
  {
  }

  lemma {:induction false} RoundsAddUp(w: World, l: Limits, needsWork: Report -> bool, r: nat, s: State)
    requires AddsUp(w, l, s) && r >= 1 && s.reviews == r && s.revisions == r - 1
    ensures var o := Rounds(w, l, needsWork, r, s); o.exit != Raised ==> AddsUp(w, l, o.state)
    decreases l.maxRounds - r
  {
    if r <= l.maxRounds {
      RoundAddsUp(w, l, needsWork, r, s);
      match Round(w, l, needsWork, r, s)
      case Leave(_) =>
      case Again(s') => RoundsAddUp(w, l, needsWork, r + 1, s');
    }
  }

  /** At every exit that returns an artifact, both amounts add up over exactly the calls that were made. */
  lemma SpendAddsUp(w: World, l: Limits, needsWork: Report -> bool, output: Artifact)
    ensures var o := Run(w, l, needsWork, output); o.exit != Raised ==> AddsUp(w, l, o.state)
  {
    match w.review(0)
    case None =>
    case Some(report) =>
      var s := Judge(w, l, Start(w, output), 0, report);
      assert SumOf(w.reviewCost, 1) == SumOf(w.reviewCost, 0) + w.reviewCost(0);
      assert Times(1, l.reviewEstimate) == Times(0, l.reviewEstimate) + l.reviewEstimate;
      assert AddsUp(w, l, s);
      if needsWork(report) { RoundsAddUp(w, l, needsWork, 1, s); }
  }

  /** So for a stage's loop with the estimates it was called with or the policy's. */
  lemma StageStopsForCause(w: World, p: Policy, target: string, reviewEstimate: Option<real>, revisionEstimate: Option<real>, output: Artifact)
    requires !w.tracked || AllReadsGood(w, StageLimits(p, target))
    ensures var o := StageRun(w, p, target, reviewEstimate, revisionEstimate, output);
            && (o.exit == BudgetBeforeRevision ==>
                  Known(w, o.state) + (if revisionEstimate.Some? then revisionEstimate.value else p.revisionEstimate) > p.cap)
            && (o.exit == BudgetAfterRevision ==>
                  Known(w, o.state) + (if reviewEstimate.Some? then reviewEstimate.value else p.reviewEstimate) > p.cap)
  {
    var l := StageLimits(p, target);
    if reviewEstimate.Some? { l := l.(reviewEstimate := reviewEstimate.value); }
    if revisionEstimate.Some? { l := l.(revisionEstimate := revisionEstimate.value); }
    NoStopWhileItFits(w, l, (r: Report) => RequiresRevision(r, p), output);
  }

  /** And for the coder's, whose reruns have an estimate of their own. */
  lemma CoderStopsForCause(w: World, p: Policy, output: Artifact)
    requires !w.tracked || AllReadsGood(w, CoderLimits(p))
    ensures var o := CoderRun(w, p, output);
            && (o.exit == BudgetBeforeRevision ==> Known(w, o.state) + p.coderRevisionEstimate > p.cap)
            && (o.exit == BudgetAfterRevision ==> Known(w, o.state) + p.reviewEstimate > p.cap)
  {
    NoStopWhileItFits(w, CoderLimits(p), (r: Report) => RequiresRevision(r, p), output);
  }

  /******* When the bound can be relied on *******/

  // A world in which nothing ever satisfies the critic, and only the k-th call, counted from 0, costs anything.
  function OneDearCall(ok: nat -> bool, l: Limits, bad: Report, a: Artifact, k: nat): World {
    World(_ => Some(bad), _ => Revised(a),
          (i: nat) => if 2 * i == k then l.cap + 1.0 else 0.0,
          (i: nat) => if 2 * i == k + 1 then l.cap + 1.0 else 0.0,
          true, 0.0, ok)
  }

  // At the start of turn r, calls 0 to 2r - 2 have been made.
  predicate DearState(l: Limits, k: nat, r: nat, s: State) {
    && r >= 1 && s.looks == 2 * r - 1 && s.reviews == r && s.revisions == r - 1
    && s.spent == (if k + 1 <= 2 * r - 1 then l.cap + 1.0 else 0.0)
  }

  lemma RoundOverspends(ok: nat -> bool, l: Limits, needsWork: Report -> bool, bad: Report, a: Artifact, k: nat, r: nat, s: State)
    requires 0.0 <= l.reviewEstimate <= l.cap && 0.0 <= l.revisionEstimate <= l.cap && needsWork(bad)
    requires !ok(k + 1) && r <= l.maxRounds && DearState(l, k, r, s)
    ensures var w := OneDearCall(ok, l, bad, a, k);
            match Round(w, l, needsWork, r, s)
            case Leave(o) => !Bounded(w, l, o.state)
            case Again(s') => DearState(l, k, r + 1, s')
  {
    var w := OneDearCall(ok, l, bad, a, k);
    if k + 1 >= 2 * r - 1 {
      assert SpentSoFar(w, s) == 0.0;
    }
    if k + 1 >= 2 * r {
      assert SpentSoFar(w, Revise(w, l, s, r, a)) == 0.0;
    }
  }

  lemma {:induction false} RoundsOverspend(ok: nat -> bool, l: Limits, needsWork: Report -> bool, bad: Report, a: Artifact, k: nat, r: nat, s: State)
    requires 0.0 <= l.reviewEstimate <= l.cap && 0.0 <= l.revisionEstimate <= l.cap && needsWork(bad)
    requires !ok(k + 1) && k + 1 <= 2 * Rest(l) && r <= Rest(l) + 1 && DearState(l, k, r, s)
    ensures var w := OneDearCall(ok, l, bad, a, k);
            !Bounded(w, l, Rounds(w, l, needsWork, r, s).state)
    decreases l.maxRounds - r
  {
    if r <= l.maxRounds {
      RoundOverspends(ok, l, needsWork, bad, a, k, r, s);
      match Round(OneDearCall(ok, l, bad, a, k), l, needsWork, r, s)
      case Leave(_) =>
      case Again(s') => RoundsOverspend(ok, l, needsWork, bad, a, k, r + 1, s');
    }
  }

  /** However the calls turn out and whatever they cost, a run with these reads keeps the bound. */
  ghost predicate AlwaysBounded(ok: nat -> bool, l: Limits, needsWork: Report -> bool, output: Artifact) {
    forall w: World ::
      w.tracked && w.readOk == ok && w.upstream >= 0.0 && (forall k :: w.reviewCost(k) >= 0.0 && w.reviseCost(k) >= 0.0) ==>
        Bounded(w, l, Run(w, l, needsWork, output).state)
  }

  /** For any pattern of successful and failing reads, the bound can be relied on exactly when each of the two
      reads of each turn succeeds: one that fails lets the call it guards follow any amount of spending. */
  lemma SpendBoundIff(ok: nat -> bool, l: Limits, needsWork: Report -> bool, output: Artifact, bad: Report)
    requires 0.0 <= l.reviewEstimate <= l.cap && 0.0 <= l.revisionEstimate <= l.cap && needsWork(bad)
    ensures AlwaysBounded(ok, l, needsWork, output) <==> GuardsRead(ok, l)
  {
    if GuardsRead(ok, l) {
      forall w: World | w.tracked && w.readOk == ok && w.upstream >= 0.0
        ensures Bounded(w, l, Run(w, l, needsWork, output).state)
      {
        SpendBound(w, l, needsWork, output);
      }
    } else {
      var n: nat :| 1 <= n <= 2 * Rest(l) && !ok(n);
      var w := OneDearCall(ok, l, bad, output, n - 1);
      RoundsOverspend(ok, l, needsWork, bad, output, n - 1, 1, Judge(w, l, Start(w, output), 0, bad));
    }
  }

  /** So it is for the critic's own test, under any policy whose estimates lie under its cap. */
  lemma PolicyBoundIff(ok: nat -> bool, l: Limits, p: Policy, output: Artifact)
    requires 0.0 <= l.reviewEstimate <= l.cap && 0.0 <= l.revisionEstimate <= l.cap
    ensures AlwaysBounded(ok, l, (r: Report) => RequiresRevision(r, p), output) <==> GuardsRead(ok, l)
  {
    var bad := NO_REPORT.(findings := [Blocking]);
    SpendBoundIff(ok, l, (r: Report) => RequiresRevision(r, p), output, bad);
  }

  predicate FewCalls(l: Limits, s: State) {
    s.revisions <= Rest(l) && s.revisions <= s.reviews <= s.revisions + 1
  }

  lemma {:induction false} RoundsFewCalls(w: World, l: Limits, needsWork: Report -> bool, output: Artifact, r: nat, s: State)
    requires Ready(w, needsWork, output, r, s) && FewCalls(l, s)
    ensures FewCalls(l, Rounds(w, l, needsWork, r, s).state)
    decreases l.maxRounds - r
  {
    if r <= l.maxRounds {
      RoundKeeps(w, l, needsWork, output, r, s);
      match Round(w, l, needsWork, r, s)
      case Leave(_) =>
      case Again(s') => RoundsFewCalls(w, l, needsWork, output, r + 1, s');
    }
  }

  /** Whatever the tracker says, at most maxRounds revisions and one review more than that are asked for. */
  lemma CallBound(w: World, l: Limits, needsWork: Report -> bool, output: Artifact)
    ensures var s := Run(w, l, needsWork, output).state;
            s.revisions <= Rest(l) && s.reviews <= Rest(l) + 1
  {
    match w.review(0)
    case None =>
    case Some(report) =>
      if needsWork(report) {
        RoundsFewCalls(w, l, needsWork, output, 1, Judge(w, l, Start(w, output), 0, report));
      }
  }

  /******* Without a tracker: the estimates decide *******/

  // The estimated cost of a run through n full turns.
  function Needed(l: Limits, n: nat): real {
    if n == 0 then l.reviewEstimate else Needed(l, n - 1) + l.revisionEstimate + l.reviewEstimate
  }

  lemma {:induction false} NeededGrows(l: Limits, m: nat, n: nat)
    requires m <= n && l.revisionEstimate >= 0.0 && l.reviewEstimate >= 0.0
    ensures Needed(l, m) <= Needed(l, n)
  {
    if m < n { NeededGrows(l, m, n - 1); }
  }

  predicate BudgetStop(o: Outcome) {
    o.exit in {BudgetBeforeRevision, BudgetAfterRevision}
  }

  // Every verdict asks for work and every revision gives an artifact.
  ghost predicate Stubborn(w: World, needsWork: Report -> bool) {
    && (forall k :: w.review(k).Some? && needsWork(w.review(k).value))
    && (forall k :: w.revise(k).Revised?)
  }

  lemma {:induction false} RoundsByEstimate(w: World, l: Limits, needsWork: Report -> bool, r: nat, s: State)
    requires !w.tracked && r >= 1 && l.revisionEstimate >= 0.0 && l.reviewEstimate >= 0.0
    requires s.estimated == Needed(l, r - 1)
    ensures BudgetStop(Rounds(w, l, needsWork, r, s)) ==> Needed(l, Rest(l)) > l.cap
    ensures Stubborn(w, needsWork) && r <= l.maxRounds && Needed(l, Rest(l)) > l.cap ==> BudgetStop(Rounds(w, l, needsWork, r, s))
    ensures Stubborn(w, needsWork) && !BudgetStop(Rounds(w, l, needsWork, r, s)) ==> Rounds(w, l, needsWork, r, s).exit == RoundsExhausted
    decreases l.maxRounds - r
  {
    if r <= l.maxRounds {
      NeededGrows(l, r, Rest(l));
      match Round(w, l, needsWork, r, s)
      case Leave(o) =>
      case Again(s') => RoundsByEstimate(w, l, needsWork, r + 1, s');
    }
  }

  /** On estimates alone the budget can stop a run only if the full number of turns would cost more than the cap. */
  lemma NoStopWithinEstimate(w: World, l: Limits, needsWork: Report -> bool, output: Artifact)
    requires !w.tracked && l.revisionEstimate >= 0.0 && l.reviewEstimate >= 0.0
    requires Needed(l, Rest(l)) <= l.cap
    ensures !BudgetStop(Run(w, l, needsWork, output))
  {
    match w.review(0)
    case None =>
    case Some(report) =>
      if needsWork(report) {
        RoundsByEstimate(w, l, needsWork, 1, Judge(w, l, Start(w, output), 0, report));
      }
  }

  /** And a run whose critic is never content uses all its rounds exactly when they fit under the cap. */
  lemma StubbornExit(w: World, l: Limits, needsWork: Report -> bool, output: Artifact)
    requires !w.tracked && l.revisionEstimate >= 0.0 && l.reviewEstimate >= 0.0 && l.maxRounds >= 1
    requires Stubborn(w, needsWork)
    ensures Run(w, l, needsWork, output).exit == RoundsExhausted <==> Needed(l, l.maxRounds) <= l.cap
    ensures Run(w, l, needsWork, output).exit != RoundsExhausted <==> BudgetStop(Run(w, l, needsWork, output))
  {
    RoundsByEstimate(w, l, needsWork, 1, Judge(w, l, Start(w, output), 0, w.review(0).value));
  }

  /******* The default policy *******/

  lemma DefaultNeeds(l: Limits)
    ensures l.maxRounds == 2 ==> Needed(l, Rest(l)) == 3.0 * l.reviewEstimate + 2.0 * l.revisionEstimate
    ensures l.maxRounds == 1 ==> Needed(l, Rest(l)) == 2.0 * l.reviewEstimate + l.revisionEstimate
  {
    if l.maxRounds == 2 {
      assert Needed(l, 1) == Needed(l, 0) + l.revisionEstimate + l.reviewEstimate;
    }
  }

  /** The default estimates never stop the coder's loop. */
  lemma CoderNeverStops(w: World, output: Artifact)
    requires !w.tracked
    ensures !BudgetStop(CoderRun(w, DEFAULT_POLICY, output))
  {
    var l := CoderLimits(DEFAULT_POLICY);
    DefaultNeeds(l);
    NoStopWithinEstimate(w, l, (r: Report) => RequiresRevision(r, DEFAULT_POLICY), output);
  }

  /** Nor the loops of the stages held to one revision. */
  lemma OneRoundStagesNeverStop(w: World, target: string, output: Artifact)
    requires !w.tracked && target in {"writer", "analyzer", "searcher"}
    ensures !BudgetStop(StageRun(w, DEFAULT_POLICY, target, None, None, output))
  {
    var l := StageLimits(DEFAULT_POLICY, target);
    DefaultNeeds(l);
    NoStopWithinEstimate(w, l, (r: Report) => RequiresRevision(r, DEFAULT_POLICY), output);
  }

  lemma TwoRounds(w: World, l: Limits, needsWork: Report -> bool, output: Artifact)
    requires !w.tracked && l.maxRounds == 2 && l.reviewEstimate >= 0.0 && l.revisionEstimate >= 0.0
    requires 2.0 * l.reviewEstimate + 2.0 * l.revisionEstimate <= l.cap < 3.0 * l.reviewEstimate + 2.0 * l.revisionEstimate
    ensures var o := Run(w, l, needsWork, output);
            && (o.exit == BudgetAfterRevision <==> o.state.revised == 2)
            && o.exit !in {RoundsExhausted, BudgetBeforeRevision}
  {
    match w.review(0)
    case None =>
    case Some(report) =>
      var s := Judge(w, l, Start(w, output), 0, report);
      if needsWork(report) && Round(w, l, needsWork, 1, s).Again? {
        var s' := Round(w, l, needsWork, 1, s).s;
        assert Rounds(w, l, needsWork, 1, s) == Rounds(w, l, needsWork, 2, s');
        assert Round(w, l, needsWork, 2, s').Leave?;
      }
  }

  /** A modeler revised twice under the default estimates always comes back with its second revision unreviewed,
      and its loop never runs out of rounds. */
  lemma ModelerSecondRevisionUnreviewed(w: World, output: Artifact)
    requires !w.tracked
    ensures var o := StageRun(w, DEFAULT_POLICY, "modeler", None, None, output);
            && (o.state.revised == 2 <==> o.exit == BudgetAfterRevision)
            && o.exit !in {RoundsExhausted, BudgetBeforeRevision}
  {
    TwoRounds(w, StageLimits(DEFAULT_POLICY, "modeler"), (r: Report) => RequiresRevision(r, DEFAULT_POLICY), output);
  }

  /******* When tracker reads fail *******/

  // After a good baseline every read fails.
  ghost predicate DeadReads(w: World) {
    w.tracked && w.readOk(0) && w.upstream >= 0.0 && forall k :: k > 0 ==> !w.readOk(k)
  }

  lemma {:induction false} DeadRoundsNeverStop(w: World, l: Limits, needsWork: Report -> bool, r: nat, s: State)
    requires DeadReads(w) && l.revisionEstimate <= l.cap && l.reviewEstimate <= l.cap && s.looks >= 1
    ensures !BudgetStop(Rounds(w, l, needsWork, r, s))
    decreases l.maxRounds - r
  {
    if r <= l.maxRounds {
      match Round(w, l, needsWork, r, s)
      case Leave(_) =>
      case Again(s') => DeadRoundsNeverStop(w, l, needsWork, r + 1, s');
    }
  }

  /** A read that fails counts as nothing spent: no budget then stops the run, whatever it costs. */
  lemma DeadReadsDisableTheCap(w: World, l: Limits, needsWork: Report -> bool, output: Artifact)
    requires DeadReads(w) && l.revisionEstimate <= l.cap && l.reviewEstimate <= l.cap
    ensures !BudgetStop(Run(w, l, needsWork, output))
  {
    match w.review(0)
    case None =>
    case Some(report) =>
      if needsWork(report) {
        DeadRoundsNeverStop(w, l, needsWork, 1, Judge(w, l, Start(w, output), 0, report));
      }
  }

  lemma {:induction false} DeadRoundsAll(w: World, l: Limits, needsWork: Report -> bool, output: Artifact, r: nat, s: State)
    requires DeadReads(w) && l.revisionEstimate <= l.cap && l.reviewEstimate <= l.cap && s.looks >= 1
    requires Stubborn(w, needsWork) && Ready(w, needsWork, output, r, s) && r <= l.maxRounds + 1
    ensures var o := Rounds(w, l, needsWork, r, s);
            o.exit == RoundsExhausted && o.state.revisions == l.maxRounds && o.state.reviews == l.maxRounds + 1
    decreases l.maxRounds - r
  {
    if r <= l.maxRounds {
      RoundKeeps(w, l, needsWork, output, r, s);
      assert SpentSoFar(w, s) <= 0.0;
      DeadRoundsAll(w, l, needsWork, output, r + 1, Round(w, l, needsWork, r, s).s);
    }
  }

  /** Then a critic that is never content gets every call the rounds allow, whatever the calls cost. */
  lemma DeadReadsMakeEveryCall(w: World, l: Limits, needsWork: Report -> bool, output: Artifact)
    requires DeadReads(w) && l.revisionEstimate <= l.cap && l.reviewEstimate <= l.cap && l.maxRounds >= 0
    requires Stubborn(w, needsWork)
    ensures var o := Run(w, l, needsWork, output);
            o.exit == RoundsExhausted && o.state.revisions == l.maxRounds && o.state.reviews == l.maxRounds + 1
  {
    DeadRoundsAll(w, l, needsWork, output, 1, Judge(w, l, Start(w, output), 0, w.review(0).value));
  }

  /** A baseline that failed to read charges the loop for all that came before it: if that alone is over the
      cap, an artifact that needs work is never revised. */
  lemma LostBaselineStopsAtOnce(w: World, l: Limits, needsWork: Report -> bool, output: Artifact)
    requires w.tracked && !w.readOk(0) && w.readOk(1) && l.maxRounds >= 1
    requires w.upstream + w.reviewCost(0) + l.revisionEstimate > l.cap
    requires w.review(0).Some? && needsWork(w.review(0).value)
    ensures var o := Run(w, l, needsWork, output);
            o.exit == BudgetBeforeRevision && o.state.revisions == 0 && o.state.current == output
  {
    var s := Judge(w, l, Start(w, output), 0, w.review(0).value);
    assert SpentSoFar(w, s) == w.upstream + w.reviewCost(0);
  }

  /******* Warnings and reminders *******/

  /** The warning goes out exactly on an unaccepted exit whose last verdict has a blocking finding and either
      failed the artifact or was cut short by the budget. */
  lemma WarnsIff(w: World, l: Limits, p: Policy, output: Artifact)
    ensures var o := Run(w, l, (r: Report) => RequiresRevision(r, p), output);
            var s := o.state;
            Warns(o) <==>
              && o.exit !in {Accepted, Raised}
              && s.reviews >= 1 && w.review(s.reviews - 1).Some?
              && Blocking in AllFindings(w.review(s.reviews - 1).value)
              && (!w.review(s.reviews - 1).value.passed || BudgetStop(o))
  {
    RunKeeps(w, l, (r: Report) => RequiresRevision(r, p), output);
  }

  // The reminders change at the next stage only, and only on an unaccepted exit with something to say.
  lemma ReminderWritten(o: Outcome, before: map<string, string>, next: Option<string>, reminder: Report -> string, stage: string)
    ensures var after := RemindersAfter(o, before, next, reminder);
            if o.exit !in {Accepted, Raised} && next == Some(stage) && reminder(o.state.report) != ""
            then stage in after && after[stage] == reminder(o.state.report)
            else (stage in after <==> stage in before) && (stage in before ==> after[stage] == before[stage])
  {
  }

  /** The verdict behind a reminder is the last one, with the budget flag as the loop left it. */
  lemma RemindedOfLastVerdict(w: World, l: Limits, p: Policy, output: Artifact)
    ensures var o := Run(w, l, (r: Report) => RequiresRevision(r, p), output);
            var s := o.state;
            o.exit !in {Accepted, Raised} ==>
              && s.reviews >= 1 && w.review(s.reviews - 1).Some?
              && s.report == w.review(s.reviews - 1).value.(budgetExhausted := BudgetStop(o))
  {
    RunKeeps(w, l, (r: Report) => RequiresRevision(r, p), output);
  }
}
