/** The stored evaluator versions, runs and decisions. */
module EvaluatorStorage {
  import opened Wrappers
  import opened EvaluatorEvolution

  /** A row of evaluator_versions; the case-set hashes stand for the sets themselves. */
  datatype VersionRow = VersionRow(kind: Kind, name: Name, parent: Option<Id>, definition: nat,
                                   frozen: set<CaseId>, active: set<CaseId>, state: State, proposedBy: Name)

  /** `registered` observes the state each version was first stored with. */
  datatype Tables = Tables(versions: map<Id, VersionRow>, runs: map<Id, Run>, decisions: seq<Decision>, registered: map<Id, State>)

  const EMPTY: Tables := Tables(map[], map[], [], map[])

  datatype StorageError = Constraint | ImmutableConflict | RunsDoNotMatch | NotEligible

  function RowOf(v: Version): VersionRow {
    VersionRow(v.kind, v.name, v.parent, v.definition, v.frozen, v.active, v.state, v.proposedBy)
  }

  /** The row holds this very definition. */
  predicate Stores(row: VersionRow, v: Version) {
    && row.kind == v.kind && row.name == v.name && row.parent == v.parent && row.definition == v.definition
    && row.frozen == v.frozen && row.active == v.active && row.state == v.state && row.proposedBy == v.proposedBy
  }

  /** UNIQUE (evaluator_kind, version_label). */
  ghost predicate Labelled(t: Tables, kind: Kind, name: Name, id: Id) {
    id in t.versions && t.versions[id].kind == kind && t.versions[id].name == name
  }

  ghost predicate UniqueLabels(t: Tables) {
    forall i, j :: i in t.versions && j in t.versions && t.versions[i].kind == t.versions[j].kind && t.versions[i].name == t.versions[j].name ==> i == j
  }

  predicate Undecided(state: State) {
    state == Proposed || state == Shadow
  }

  predicate Owners(t: Tables, d: Decision) {
    && d.baselineRun in t.runs && d.candidateRun in t.runs
    && {t.runs[d.baselineRun].evaluator, t.runs[d.candidateRun].evaluator} == {d.baseline, d.candidate}
  }

  // ------------------------------------------------------------------ transactions as functions

  /** The tables after a successful persist_evaluator_version that inserts a row. */
  function WithVersion(t: Tables, v: Version): Tables {
    t.(versions := t.versions[v.id := RowOf(v)], registered := t.registered[v.id := v.state])
  }

  function WithRun(t: Tables, run: Run): Tables {
    t.(runs := t.runs[run.id := run])
  }

  function WithDecision(t: Tables, d: Decision): Tables
    requires d.candidate in t.versions
  {
    t.(versions := t.versions[d.candidate := t.versions[d.candidate].(state := d.decision)], decisions := t.decisions + [d])
  }

  ghost predicate FreshDecision(t: Tables, d: Decision) {
    forall i :: 0 <= i < |t.decisions| ==> t.decisions[i].id != d.id
  }

  /** When persist_evaluator_decision commits. */
  ghost predicate Decidable(t: Tables, d: Decision) {
    && Owners(t, d) && d.candidate in t.versions && Undecided(t.versions[d.candidate].state)
    && FreshDecision(t, d) && d.baseline in t.versions
  }

  // ------------------------------------------------------------------ the store

  class EvaluatorStore {
    var versions: map<Id, VersionRow>
    var runs: map<Id, Run>
    var decisions: seq<Decision>
    ghost var registered: map<Id, State>

    constructor ()
      ensures View() == EMPTY
    {
      versions, runs, decisions, registered := map[], map[], [], map[];
    }

    ghost function View(): Tables
      reads this
    {
      Tables(versions, runs, decisions, registered)
    }

    method FindLabel(kind: Kind, name: Name) returns (id: Option<Id>)
      ensures id.Some? ==> Labelled(View(), kind, name, id.value)
      ensures id.None? ==> forall i :: i in versions ==> !Labelled(View(), kind, name, i)
    {
      var rest := versions.Keys;
      while rest != {}
        invariant rest <= versions.Keys
        invariant forall i :: i in versions && i !in rest ==> !Labelled(View(), kind, name, i)
        decreases |rest|
      {
        var i :| i in rest;
        if versions[i].kind == kind && versions[i].name == name {
          return Some(i);
        }
        rest := rest - {i};
      }
      id := None;
    }

    /** Inserts a new definition, or returns the row that already carries its label when every
        stored field, the state included, is identical. */
    method PersistVersion(v: Version) returns (r: Result<Id, StorageError>)
      requires UniqueLabels(View())
      modifies this
      ensures UniqueLabels(View())
      ensures (exists i :: Labelled(old(View()), v.kind, v.name, i)) ==>
                && View() == old(View())
                && (r.Success? ==> Labelled(View(), v.kind, v.name, r.value) && versions[r.value] == RowOf(v))
                && (r.Failure? ==> exists i :: Labelled(View(), v.kind, v.name, i) && versions[i] != RowOf(v))
      ensures !(exists i :: Labelled(old(View()), v.kind, v.name, i)) ==>
                && (r == Success(v.id) <==> v.id !in old(versions) && (v.parent.Some? ==> v.parent.value in old(versions) || v.parent.value == v.id))
                && View() == (if r.Success? then WithVersion(old(View()), v) else old(View()))
                && (r.Success? ==> r.value == v.id)
      ensures r.Success? ==> r.value in versions && Stores(versions[r.value], v)
    {
      var existing := FindLabel(v.kind, v.name);
      if existing.Some? {
        var row := versions[existing.value];
        if (row.parent, row.definition, row.frozen, row.active, row.state, row.proposedBy)
           != (v.parent, v.definition, v.frozen, v.active, v.state, v.proposedBy)
        {
          return Failure(ImmutableConflict);
        }
        return Success(existing.value);
      }
      if v.id in versions || (v.parent.Some? && v.parent.value != v.id && v.parent.value !in versions) {
        return Failure(Constraint);
      }
      versions := versions[v.id := RowOf(v)];
      registered := registered[v.id := v.state];
      return Success(v.id);
    }

    method PersistRun(run: Run) returns (r: Result<Id, StorageError>)
      modifies `runs
      ensures r.Success? <==> run.id !in old(runs) && run.evaluator in versions
      ensures View() == if r.Success? then WithRun(old(View()), run) else old(View())
      ensures r.Success? ==> r.value == run.id
    {
      if run.id in runs || run.evaluator !in versions {
        return Failure(Constraint);
      }
      runs := runs[run.id := run];
      return Success(run.id);
    }

    /** Records a decision and moves only its candidate; everything or nothing. */
    method PersistDecision(d: Decision) returns (r: Result<Id, StorageError>)
      modifies this
      ensures r.Success? <==> Decidable(old(View()), d)
      ensures r.Success? <==>
                && d.candidate in old(versions) && d.baseline in old(versions)
                && (old(versions)[d.candidate].state == Proposed || old(versions)[d.candidate].state == Shadow)
                && Owners(old(View()), d) && forall e :: e in old(decisions) ==> e.id != d.id
      ensures r.Success? ==>
                && versions == old(versions)[d.candidate := old(versions)[d.candidate].(state := d.decision)]
                && decisions == old(decisions) + [d] && runs == old(runs)
      ensures View() == if r.Success? then WithDecision(old(View()), d) else old(View())
      ensures r.Success? ==> r.value == d.id
    {
      var owners: set<Id> := {};
      if d.baselineRun in runs {
        owners := owners + {runs[d.baselineRun].evaluator};
      }
      if d.candidateRun in runs {
        owners := owners + {runs[d.candidateRun].evaluator};
      }
      if owners != {d.baseline, d.candidate} {
        return Failure(RunsDoNotMatch);
      }
      if d.candidate !in versions || !(versions[d.candidate].state == Proposed || versions[d.candidate].state == Shadow) {
        return Failure(NotEligible);
      }
      var before := versions;
      versions := versions[d.candidate := versions[d.candidate].(state := d.decision)];
      // INSERT: primary key and foreign keys; an exception rolls the update back.
      var known := d.baseline in versions && d.baselineRun in runs && d.candidateRun in runs;
      var i := 0;
      while i < |decisions| && known
        invariant 0 <= i <= |decisions|
        invariant known ==> d.baseline in before && d.baselineRun in runs && d.candidateRun in runs
        invariant known ==> forall j :: 0 <= j < i ==> decisions[j].id != d.id
        invariant !known ==> !Decidable(old(View()), d)
      {
        known := decisions[i].id != d.id;
        i := i + 1;
      }
      if !known {
        versions := before;
        return Failure(Constraint);
      }
      assert Owners(old(View()), d);
      decisions := decisions + [d];
      return Success(d.id);
    }
  }

  // ------------------------------------------------------------------ every history of the store

  datatype Operation = RegisterVersion(version: Version) | RecordRun(run: Run) | RecordDecision(decision: Decision)

  /** One successful operation; a failing one leaves the tables as they are. */
  ghost predicate Performs(t: Tables, op: Operation, t': Tables) {
    match op
    case RegisterVersion(v) =>
      && v.id !in t.versions && (forall i :: i in t.versions ==> !Labelled(t, v.kind, v.name, i))
      && t' == WithVersion(t, v)
    case RecordRun(run) => run.id !in t.runs && run.evaluator in t.versions && t' == WithRun(t, run)
    case RecordDecision(d) => Decidable(t, d) && t' == WithDecision(t, d)
  }

  ghost predicate History(ts: seq<Tables>, ops: seq<Operation>) {
    && |ts| == |ops| + 1 && ts[0] == EMPTY
    && forall i :: 0 <= i < |ops| ==> Performs(ts[i], ops[i], ts[i + 1])
  }

  /** The decisions about candidate c, oldest first. */
  function About(decisions: seq<Decision>, c: Id): seq<Decision> {
    if decisions == [] then []
    else
      var front, last := decisions[..|decisions| - 1], decisions[|decisions| - 1];
      About(front, c) + if last.candidate == c then [last] else []
  }

  /** shadow* followed by at most one final decision. */
  ghost predicate ShadowThenFinal(log: seq<Decision>) {
    && (forall i :: 0 <= i < |log| - 1 ==> log[i].decision == Shadow)
    && (log != [] ==> log[|log| - 1].decision != Proposed)
  }

  ghost predicate LogMatchesState(t: Tables, c: Id) {
    var log := About(t.decisions, c);
    && c in t.registered && c in t.versions && ShadowThenFinal(log)
    && t.versions[c].state == (if log == [] then t.registered[c] else log[|log| - 1].decision)
    && (log != [] ==> Undecided(t.registered[c]))
  }

  lemma AboutGrows(decisions: seq<Decision>, d: Decision, c: Id)
    ensures About(decisions + [d], c) == About(decisions, c) + if d.candidate == c then [d] else []
  {
    assert (decisions + [d])[..|decisions + [d]| - 1] == decisions;
  }

  lemma {:induction false} AboutNobody(decisions: seq<Decision>, c: Id)
    requires forall d :: d in decisions ==> d.candidate != c
    ensures About(decisions, c) == []
    decreases |decisions|
  {
    if decisions != [] { AboutNobody(decisions[..|decisions| - 1], c); }
  }

  ghost predicate DecisionsLinked(t: Tables) {
    forall d :: d in t.decisions ==> Owners(t, d) && d.candidate in t.versions && d.baseline in t.versions && d.decision != Proposed
  }

  ghost predicate RunsLinked(t: Tables) {
    forall r :: r in t.runs ==> t.runs[r].id == r && t.runs[r].evaluator in t.versions
  }

  ghost predicate Linked(t: Tables) {
    DecisionsLinked(t) && RunsLinked(t) && UniqueLabels(t)
  }

  ghost predicate LogsMatch(t: Tables) {
    forall c :: c in t.versions ==> LogMatchesState(t, c)
  }

  ghost predicate Sound(t: Tables) {
    LogsMatch(t) && Linked(t)
  }

  /** Stored decisions stay linked when versions and runs are only added. */
  lemma OwnersKept(t: Tables, t': Tables)
    requires DecisionsLinked(t) && t'.decisions == t.decisions && t.versions.Keys <= t'.versions.Keys
    requires forall r :: r in t.runs ==> r in t'.runs && t'.runs[r] == t.runs[r]
    ensures DecisionsLinked(t')
  {
    forall d | d in t.decisions ensures Owners(t', d) {
      assert Owners(t, d);
    }
  }

  lemma LabelsWithVersion(t: Tables, v: Version)
    requires UniqueLabels(t) && forall i :: i in t.versions ==> !Labelled(t, v.kind, v.name, i)
    ensures UniqueLabels(WithVersion(t, v))
  {
  }

  lemma RunsWithVersion(t: Tables, v: Version)
    requires RunsLinked(t)
    ensures RunsLinked(WithVersion(t, v))
  {
  }

  lemma LogsWithVersion(t: Tables, v: Version)
    requires LogsMatch(t) && DecisionsLinked(t) && v.id !in t.versions
    ensures LogsMatch(WithVersion(t, v))
  {
    var t' := WithVersion(t, v);
    forall d | d in t.decisions ensures d.candidate != v.id { }
    AboutNobody(t.decisions, v.id);
    hide About, Owners, DecisionsLinked;
    forall c | c in t'.versions ensures LogMatchesState(t', c) {
      if c != v.id { assert LogMatchesState(t, c); }
    }
  }

  lemma SoundVersion(t: Tables, v: Version, t': Tables)
    requires Sound(t) && Performs(t, RegisterVersion(v), t')
    ensures Sound(t')
  {
    hide RunsLinked, LogsMatch, DecisionsLinked, UniqueLabels;
    LabelsWithVersion(t, v);
    RunsWithVersion(t, v);
    LogsWithVersion(t, v);
    OwnersKept(t, t');
  }

  lemma LogsSame(t: Tables, t': Tables)
    requires LogsMatch(t) && t'.versions == t.versions && t'.decisions == t.decisions && t'.registered == t.registered
    ensures LogsMatch(t')
  {
    hide About;
    forall c | c in t'.versions ensures LogMatchesState(t', c) {
      assert LogMatchesState(t, c);
    }
  }

  lemma SoundRun(t: Tables, run: Run, t': Tables)
    requires Sound(t) && Performs(t, RecordRun(run), t')
    ensures Sound(t')
  {
    hide LogsMatch, DecisionsLinked;
    LogsSame(t, t');
    OwnersKept(t, t');
  }

  lemma SameLabels(t: Tables, d: Decision)
    requires UniqueLabels(t) && RunsLinked(t) && d.candidate in t.versions
    ensures UniqueLabels(WithDecision(t, d)) && RunsLinked(WithDecision(t, d))
  {
  }

  lemma LinkedDecision(t: Tables, d: Decision, t': Tables)
    requires Linked(t) && Performs(t, RecordDecision(d), t') && d.decision != Proposed
    ensures Linked(t')
  {
    SameLabels(t, d);
    hide UniqueLabels, RunsLinked;
    assert Owners(t', d);
    forall e | e in t.decisions ensures Owners(t', e) {
      assert Owners(t, e);
    }
  }

  lemma LogDecision(t: Tables, d: Decision, t': Tables, c: Id)
    requires LogMatchesState(t, c) && Performs(t, RecordDecision(d), t') && d.decision != Proposed
    ensures LogMatchesState(t', c)
  {
    hide Owners, About;
    AboutGrows(t.decisions, d, c);
  }

  lemma SoundDecision(t: Tables, d: Decision, t': Tables)
    requires Sound(t) && Performs(t, RecordDecision(d), t') && d.decision != Proposed
    ensures Sound(t')
  {
    LinkedDecision(t, d, t');
    hide Linked, LogMatchesState;
    forall c | c in t'.versions ensures LogMatchesState(t', c) {
      LogDecision(t, d, t', c);
    }
  }

  lemma SoundStep(t: Tables, op: Operation, t': Tables)
    requires Sound(t) && Performs(t, op, t') && (op.RecordDecision? ==> op.decision.decision != Proposed)
    ensures Sound(t')
  {
    hide Sound, Performs;
    match op
    case RegisterVersion(v) => SoundVersion(t, v, t');
    case RecordRun(run) => SoundRun(t, run, t');
    case RecordDecision(d) => SoundDecision(t, d, t');
  }

  /** Decisions are only ever shadow, promoted or reverted. */
  ghost predicate ProperDecisions(ops: seq<Operation>) {
    forall i :: 0 <= i < |ops| && ops[i].RecordDecision? ==> ops[i].decision.decision != Proposed
  }

  /** In every reachable store each candidate's decisions read shadow* and then at most one final
      decision, its stored state is that of its last decision or the one it was registered with,
      and the runs of every decision belong to its two evaluators. */
  lemma {:induction false} DecisionLog(ts: seq<Tables>, ops: seq<Operation>, i: nat)
    requires History(ts, ops) && ProperDecisions(ops) && i < |ts|
    ensures Sound(ts[i])
    decreases i
  {
    if i > 0 {
      DecisionLog(ts, ops, i - 1);
      SoundStep(ts[i - 1], ops[i - 1], ts[i - 1 + 1]);
    }
  }

  /** Promoted and reverted are final, and nothing but the state of a version ever changes. */
  lemma {:induction false} FinalForever(ts: seq<Tables>, ops: seq<Operation>, i: nat, j: nat, c: Id)
    requires History(ts, ops) && i <= j < |ts| && c in ts[i].versions
    ensures c in ts[j].versions && ts[j].versions[c].(state := ts[i].versions[c].state) == ts[i].versions[c]
    ensures !Undecided(ts[i].versions[c].state) ==> ts[j].versions[c] == ts[i].versions[c] && About(ts[j].decisions, c) == About(ts[i].decisions, c)
    decreases j
  {
    if i < j {
      FinalForever(ts, ops, i, j - 1, c);
      assert Performs(ts[j - 1], ops[j - 1], ts[j - 1 + 1]);
      if ops[j - 1].RecordDecision? { AboutGrows(ts[j - 1].decisions, ops[j - 1].decision, c); }
    }
  }

  // ------------------------------------------------------------------ two promises that hold only in part

  /** The run check compares sets: it passes exactly when the runs belong to the two evaluators,
      straight or exchanged. */
  lemma RunCheckExactly(t: Tables, d: Decision)
    requires d.baselineRun in t.runs && d.candidateRun in t.runs
    ensures var b, c := t.runs[d.baselineRun].evaluator, t.runs[d.candidateRun].evaluator;
            Owners(t, d) <==> (b == d.baseline && c == d.candidate) || (b == d.candidate && c == d.baseline)
  {
    var b, c := t.runs[d.baselineRun].evaluator, t.runs[d.candidateRun].evaluator;
    if Owners(t, d) {
      assert b in {d.baseline, d.candidate} && c in {d.baseline, d.candidate};
      assert d.baseline in {b, c} && d.candidate in {b, c};
    }
  }

  // ------------------------------------------------------------------ a history that shows both

  const METRICS: Metrics := Metrics(1.0, 1.0, 1.0, 1.0, 20)
  const BASELINE: Version := Version(1, ArticleScoring, "a", "author", 0, {0}, {0}, Promoted, None)
  const CANDIDATE: Version := Version(2, ArticleScoring, "b", "author", 0, {0}, {0}, Proposed, Some(1))
  const BASELINE_RUN: Run := Run(11, 1, 0, "x", IndependentEvaluator, METRICS)
  const CANDIDATE_RUN: Run := Run(12, 2, 0, "x", IndependentEvaluator, METRICS)

  /** Promotes the candidate, naming the two runs the wrong way round. */
  const EXCHANGED: Decision := Decision(0, 1, 2, 12, 11, Promoted, IndependentHoldoutImprovement)

  const OPERATIONS: seq<Operation> :=
    [RegisterVersion(BASELINE), RegisterVersion(CANDIDATE), RecordRun(BASELINE_RUN), RecordRun(CANDIDATE_RUN), RecordDecision(EXCHANGED)]

  lemma BothVersions() returns (t1: Tables, t2: Tables)
    ensures Performs(EMPTY, OPERATIONS[0], t1) && Performs(t1, OPERATIONS[1], t2)
    ensures t2.versions == map[1 := RowOf(BASELINE), 2 := RowOf(CANDIDATE)] && t2.runs == map[] && t2.decisions == []
  {
    t1 := WithVersion(EMPTY, BASELINE);
    t2 := WithVersion(t1, CANDIDATE);
  }

  lemma BothRuns(t2: Tables) returns (t3: Tables, t4: Tables)
    requires t2.versions == map[1 := RowOf(BASELINE), 2 := RowOf(CANDIDATE)] && t2.runs == map[] && t2.decisions == []
    ensures Performs(t2, OPERATIONS[2], t3) && Performs(t3, OPERATIONS[3], t4)
    ensures t4.versions == t2.versions && t4.runs == map[11 := BASELINE_RUN, 12 := CANDIDATE_RUN] && t4.decisions == []
  {
    t3 := WithRun(t2, BASELINE_RUN);
    t4 := WithRun(t3, CANDIDATE_RUN);
  }

  lemma DecideExchanged(t4: Tables) returns (t5: Tables)
    requires t4.versions == map[1 := RowOf(BASELINE), 2 := RowOf(CANDIDATE)] && t4.decisions == []
    requires t4.runs == map[11 := BASELINE_RUN, 12 := CANDIDATE_RUN]
    ensures Performs(t4, OPERATIONS[4], t5) && t5.versions[2].state == Promoted && t5.runs == t4.runs && 2 in t5.versions
  {
    assert {t4.runs[12].evaluator, t4.runs[11].evaluator} == {1, 2};
    t5 := WithDecision(t4, EXCHANGED);
  }

  lemma ExchangedHistory() returns (ts: seq<Tables>)
    ensures History(ts, OPERATIONS) && ProperDecisions(OPERATIONS) && |ts| == 6
    ensures ts[5].runs == map[11 := BASELINE_RUN, 12 := CANDIDATE_RUN] && 2 in ts[5].versions && ts[5].versions[2].state == Promoted
  {
    hide Performs;
    var t1, t2 := BothVersions();
    var t3, t4 := BothRuns(t2);
    var t5 := DecideExchanged(t4);
    ts := [EMPTY, t1, t2, t3, t4, t5];
  }

  /** So a decision that names its two runs the wrong way round is stored: some history of the
      store ends with one. */
  lemma ExchangedRunsAreStored() returns (ts: seq<Tables>, ops: seq<Operation>)
    ensures History(ts, ops) && ProperDecisions(ops) && ops != [] && ops[|ops| - 1].RecordDecision?
    ensures var d, t := ops[|ops| - 1].decision, ts[|ops|];
            && d.baseline != d.candidate && d.baselineRun in t.runs && d.candidateRun in t.runs
            && t.runs[d.baselineRun].evaluator == d.candidate && t.runs[d.candidateRun].evaluator == d.baseline
  {
    hide History;
    ops := OPERATIONS;
    ts := ExchangedHistory();
  }

  /** Registering a stored definition again is idempotent exactly while no decision has moved its
      state: afterwards the identical call is refused as a conflict. */
  lemma RegisterAgainExactly(ts: seq<Tables>, ops: seq<Operation>, i: nat, j: nat, v: Version)
    requires History(ts, ops) && ProperDecisions(ops) && i < j < |ts| && ops[i] == RegisterVersion(v)
    ensures Labelled(ts[j], v.kind, v.name, v.id)
    ensures var log := About(ts[j].decisions, v.id);
            ts[j].versions[v.id] == RowOf(v) <==> log == [] || log[|log| - 1].decision == v.state
  {
    hide Decidable, UniqueLabels, About, Linked;
    assert Performs(ts[i], ops[i], ts[i + 1]);
    assert ts[i + 1].versions[v.id] == RowOf(v) && ts[i + 1].registered[v.id] == v.state;
    FinalForever(ts, ops, i + 1, j, v.id);
    RegisteredStays(ts, ops, i + 1, j, v.id);
    DecisionLog(ts, ops, j);
    assert LogMatchesState(ts[j], v.id);
  }

  lemma {:induction false} RegisteredStays(ts: seq<Tables>, ops: seq<Operation>, i: nat, j: nat, c: Id)
    requires History(ts, ops) && i <= j < |ts| && c in ts[i].versions && c in ts[i].registered
    ensures c in ts[j].versions && c in ts[j].registered && ts[j].registered[c] == ts[i].registered[c]
    decreases j
  {
    if i < j {
      RegisteredStays(ts, ops, i, j - 1, c);
      assert Performs(ts[j - 1], ops[j - 1], ts[j - 1 + 1]);
    }
  }

  /** The failing side: the same history promoted a version registered as proposed, so registering
      it again meets a row that differs. */
  lemma DecidedVersionConflicts() returns (ts: seq<Tables>, ops: seq<Operation>)
    ensures History(ts, ops) && ProperDecisions(ops) && |ops| == 5 && ops[1] == RegisterVersion(CANDIDATE)
    ensures Labelled(ts[5], CANDIDATE.kind, CANDIDATE.name, 2) && ts[5].versions[2] != RowOf(CANDIDATE)
  {
    hide History, About;
    ops := OPERATIONS;
    ts := ExchangedHistory();
    RegisterAgainExactly(ts, ops, 1, 5, CANDIDATE);
  }
}
