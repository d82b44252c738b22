/** Evaluator versions and the gate a candidate has to pass to be promoted. */
module EvaluatorEvolution {
  import opened Wrappers

  type Id = nat
  type CaseId = nat
  type Name = string

  const MINIMUM_HOLDOUT_CASES := 20
  const PRIMARY_IMPROVEMENT := 0.02

  datatype Kind = ArticleScoring | ResponseQuality

  datatype State = Proposed | Shadow | Promoted | Reverted

  datatype Role = Author | IndependentEvaluator

  /** An evaluator definition; case lists hold no duplicates, so they are sets. */
  datatype Version = Version(id: Id, kind: Kind, name: Name, proposedBy: Name, definition: nat,
                             frozen: set<CaseId>, active: set<CaseId>, state: State, parent: Option<Id>)
  {
    predicate Valid() {
      frozen != {} && frozen <= active
    }
  }

  datatype Metrics = Metrics(primary: real, safety: real, calibration: real, cost: real, cases: int)
  {
    predicate Valid() {
      && 1 <= cases && 0.0 <= primary <= 1.0 && 0.0 <= safety <= 1.0
      && 0.0 <= calibration <= 1.0 && 0.0 <= cost <= 1.0
    }
  }

  datatype Run = Run(id: Id, evaluator: Id, cohort: nat, assessor: Name, role: Role, metrics: Metrics)

  datatype Reason =
    | CohortNotComparable | FrozenCasesMissing | IndependentEvaluationRequired | HoldoutTooSmall | SafetyRegression
    | PrimaryRegression | ImprovementNotYetMaterial | CalibrationNotImproved | IndependentHoldoutImprovement

  datatype Decision = Decision(id: Id, baseline: Id, candidate: Id, baselineRun: Id, candidateRun: Id, decision: State, reason: Reason)

  datatype EvolutionError = NotAnExtension | RunNotLinked

  /** What the gates make of the two runs, first failing gate first. */
  function Verdict(baseline: Version, candidate: Version, baselineRun: Run, candidateRun: Run): (State, Reason) {
    if baselineRun.cohort != candidateRun.cohort then (Shadow, CohortNotComparable)
    else if !(baseline.frozen <= candidate.active) then (Reverted, FrozenCasesMissing)
    else if candidateRun.role != IndependentEvaluator || candidateRun.assessor == candidate.proposedBy then (Shadow, IndependentEvaluationRequired)
    else if Min(baselineRun.metrics.cases, candidateRun.metrics.cases) < MINIMUM_HOLDOUT_CASES then (Shadow, HoldoutTooSmall)
    else if candidateRun.metrics.safety < baselineRun.metrics.safety then (Reverted, SafetyRegression)
    else if candidateRun.metrics.primary < baselineRun.metrics.primary then (Reverted, PrimaryRegression)
    else if candidateRun.metrics.primary < baselineRun.metrics.primary + PRIMARY_IMPROVEMENT then (Shadow, ImprovementNotYetMaterial)
    else if candidateRun.metrics.calibration < baselineRun.metrics.calibration then (Shadow, CalibrationNotImproved)
    else (Promoted, IndependentHoldoutImprovement)
  }

  /** decide_evaluator_transition, minting `id` for the decision. */
  function Decide(id: Id, baseline: Version, candidate: Version, baselineRun: Run, candidateRun: Run): Result<Decision, EvolutionError> {
    if baseline.state != Promoted || candidate.parent != Some(baseline.id) || candidate.kind != baseline.kind then Failure(NotAnExtension)
    else if baselineRun.evaluator != baseline.id || candidateRun.evaluator != candidate.id then Failure(RunNotLinked)
    else
      var (decision, reason) := Verdict(baseline, candidate, baselineRun, candidateRun);
      Success(Decision(id, baseline.id, candidate.id, baselineRun.id, candidateRun.id, decision, reason))
  }

  predicate Promotes(baseline: Version, candidate: Version, baselineRun: Run, candidateRun: Run) {
    var r := Decide(0, baseline, candidate, baselineRun, candidateRun);
    r.Success? && r.value.decision == Promoted
  }

  /** Both runs were made on one cohort, which still contains the frozen cases, and the candidate's
      by someone independent on enough cases: only then do the qualities count. */
  predicate Comparable(baseline: Version, candidate: Version, baselineRun: Run, candidateRun: Run) {
    && baselineRun.cohort == candidateRun.cohort && baseline.frozen <= candidate.active
    && candidateRun.role == IndependentEvaluator && candidateRun.assessor != candidate.proposedBy
    && baselineRun.metrics.cases >= MINIMUM_HOLDOUT_CASES && candidateRun.metrics.cases >= MINIMUM_HOLDOUT_CASES
  }

  /** When a linked candidate is promoted, reverted, or stays in shadow. */
  lemma DecidesExactly(id: Id, baseline: Version, candidate: Version, baselineRun: Run, candidateRun: Run)
    ensures var r := Decide(id, baseline, candidate, baselineRun, candidateRun);
            var before, after := baselineRun.metrics, candidateRun.metrics;
            && (r.Success? <==>
                  && baseline.state == Promoted && candidate.parent == Some(baseline.id) && candidate.kind == baseline.kind
                  && baselineRun.evaluator == baseline.id && candidateRun.evaluator == candidate.id)
            && (r.Success? ==>
                  && (r.value.decision == Promoted <==>
                        && Comparable(baseline, candidate, baselineRun, candidateRun)
                        && after.safety >= before.safety && after.primary >= before.primary + 0.02 && after.calibration >= before.calibration)
                  && (r.value.decision == Reverted <==>
                        || (baselineRun.cohort == candidateRun.cohort && !(baseline.frozen <= candidate.active))
                        || (Comparable(baseline, candidate, baselineRun, candidateRun) && (after.safety < before.safety || after.primary < before.primary)))
                  && r.value.decision != Proposed
                  && (r.value.reason == CohortNotComparable <==> baselineRun.cohort != candidateRun.cohort)
                  && (r.value.reason == FrozenCasesMissing <==> baselineRun.cohort == candidateRun.cohort && !(baseline.frozen <= candidate.active))
                  && (r.value.reason == SafetyRegression <==> Comparable(baseline, candidate, baselineRun, candidateRun) && after.safety < before.safety)
                  && (r.value.reason == IndependentHoldoutImprovement <==> r.value.decision == Promoted)
                  && r.value.baseline == baseline.id && r.value.candidate == candidate.id
                  && r.value.baselineRun == baselineRun.id && r.value.candidateRun == candidateRun.id)
  {
  }

  /** The reason a decision carries names the first gate that was not passed. */
  lemma ReasonsExactly(id: Id, baseline: Version, candidate: Version, baselineRun: Run, candidateRun: Run)
    requires Decide(id, baseline, candidate, baselineRun, candidateRun).Success?
    ensures var reason := Decide(id, baseline, candidate, baselineRun, candidateRun).value.reason;
            var before, after := baselineRun.metrics, candidateRun.metrics;
            var sameCases := baselineRun.cohort == candidateRun.cohort && baseline.frozen <= candidate.active;
            var independent := candidateRun.role == IndependentEvaluator && candidateRun.assessor != candidate.proposedBy;
            var safe := Comparable(baseline, candidate, baselineRun, candidateRun) && after.safety >= before.safety;
            && (reason == IndependentEvaluationRequired <==> sameCases && !independent)
            && (reason == HoldoutTooSmall <==> sameCases && independent && !Comparable(baseline, candidate, baselineRun, candidateRun))
            && (reason == PrimaryRegression <==> safe && after.primary < before.primary)
            && (reason == ImprovementNotYetMaterial <==> safe && before.primary <= after.primary < before.primary + 0.02)
            && (reason == CalibrationNotImproved <==>
                  safe && after.primary >= before.primary + 0.02 && after.calibration < before.calibration)
  {
  }

  // ------------------------------------------------------------------ chains of promotions

  /** Every promoted candidate and its run become the next baseline and baseline run. */
  ghost predicate Chain(versions: seq<Version>, runs: seq<Run>) {
    && |versions| == |runs| >= 1
    && (forall i :: 0 <= i < |runs| ==> runs[i].metrics.Valid())
    && forall i :: 0 <= i < |runs| - 1 ==> Promotes(versions[i].(state := Promoted), versions[i + 1], runs[i], runs[i + 1])
  }

  /** Along a chain the cohort and the kind stay the same, safety and calibration never drop, and
      every promotion raises primary quality by at least 0.02. */
  lemma {:induction false} ChainIsMonotone(versions: seq<Version>, runs: seq<Run>, i: nat, j: nat)
    requires Chain(versions, runs) && i <= j < |runs|
    ensures runs[j].cohort == runs[i].cohort && versions[j].kind == versions[i].kind
    ensures runs[j].metrics.safety >= runs[i].metrics.safety && runs[j].metrics.calibration >= runs[i].metrics.calibration
    ensures runs[j].metrics.primary >= runs[i].metrics.primary + PRIMARY_IMPROVEMENT * (j - i) as real
    decreases j
  {
    if i < j {
      ChainIsMonotone(versions, runs, i, j - 1);
      assert Promotes(versions[j - 1].(state := Promoted), versions[j - 1 + 1], runs[j - 1], runs[j - 1 + 1]);
    }
  }

  /** So no chain has more than fifty promotions; each of them was judged on at least twenty cases
      by an independent assessor who did not propose the candidate. */
  lemma ChainIsBounded(versions: seq<Version>, runs: seq<Run>)
    requires Chain(versions, runs)
    ensures |runs| - 1 <= 50
    ensures forall i :: 0 < i < |runs| ==>
              && runs[i].role == IndependentEvaluator && runs[i].assessor != versions[i].proposedBy
              && runs[i].metrics.cases >= MINIMUM_HOLDOUT_CASES && runs[i].evaluator == versions[i].id
              && versions[i].parent == Some(versions[i - 1].id)
  {
    ChainIsMonotone(versions, runs, 0, |runs| - 1);
    forall i | 0 < i < |runs|
      ensures runs[i].role == IndependentEvaluator && runs[i].assessor != versions[i].proposedBy
      ensures runs[i].metrics.cases >= MINIMUM_HOLDOUT_CASES && runs[i].evaluator == versions[i].id
      ensures versions[i].parent == Some(versions[i - 1].id)
    {
      assert Promotes(versions[i - 1].(state := Promoted), versions[i - 1 + 1], runs[i - 1], runs[i - 1 + 1]);
    }
  }

  function Nth(i: nat): Version {
    Version(i, ArticleScoring, "v", "author", i, {0}, {0}, Proposed, if i == 0 then None else Some(i - 1))
  }

  function NthRun(i: nat): Run {
    Run(i, i, 0, "assessor", IndependentEvaluator, Metrics(PRIMARY_IMPROVEMENT * i as real, 1.0, 1.0, 1.0, 20))
  }

  /** Fifty promotions do occur. */
  lemma FiftyPromotionsArePossible() returns (versions: seq<Version>, runs: seq<Run>)
    ensures Chain(versions, runs) && |runs| - 1 == 50
  {
    versions := seq(51, i requires 0 <= i < 51 => Nth(i));
    runs := seq(51, i requires 0 <= i < 51 => NthRun(i));
    forall i | 0 <= i < 50 ensures Promotes(versions[i].(state := Promoted), versions[i + 1], runs[i], runs[i + 1]) {
      assert versions[i] == Nth(i) && versions[i + 1] == Nth(i + 1) && runs[i] == NthRun(i) && runs[i + 1] == NthRun(i + 1);
    }
  }

  // ------------------------------------------------------------------ frozen cases

  /** Whatever candidate is promoted over c keeps the frozen cases of b active. */
  ghost predicate KeptAfter(b: Version, c: Version) {
    forall d: Version, runC: Run, runD: Run ::
      Promotes(c.(state := Promoted), d, runC, runD) ==> b.frozen <= d.active
  }

  /** The gate looks one generation back only: the frozen cases of b are sure to survive the next
      promotion after c exactly when c freezes them again. */
  lemma FrozenCasesSurviveExactly(b: Version, c: Version)
    requires c.Valid()
    ensures KeptAfter(b, c) <==> b.frozen <= c.frozen
  {
    if KeptAfter(b, c) {
      var d := Version(c.id + 1, c.kind, "next", "author", 0, c.frozen, c.frozen, Proposed, Some(c.id));
      var runC := Run(0, c.id, 0, "assessor", IndependentEvaluator, Metrics(0.0, 1.0, 1.0, 1.0, 20));
      var runD := Run(1, d.id, 0, "assessor", IndependentEvaluator, Metrics(1.0, 1.0, 1.0, 1.0, 20));
      assert Promotes(c.(state := Promoted), d, runC, runD);
    }
  }
}
