/** Reusable solution assets, their outcomes, and the state recomputed from them. */
module SolutionMemory {
  import opened Wrappers
  import Evolution = EvaluatorEvolution

  type Id = nat

  datatype AssetState = Candidate | Promoted | Watchlist | Retired

  datatype OutcomeKind = Worked | Failed | Regressed

  datatype Outcome = Outcome(asset: Id, synthetic: nat, evaluatorRun: Id, kind: OutcomeKind, primary: real, safety: real)

  datatype MemoryError = MixedOrMissingOutcomes

  function CountOf(outcomes: seq<Outcome>, kind: OutcomeKind): nat {
    if outcomes == [] then 0
    else (if outcomes[0].kind == kind then 1 else 0) + CountOf(outcomes[1..], kind)
  }

  /** Sum of the primary qualities of the successes. */
  function PrimarySum(outcomes: seq<Outcome>): real {
    if outcomes == [] then 0.0
    else (if outcomes[0].kind == Worked then outcomes[0].primary else 0.0) + PrimarySum(outcomes[1..])
  }

  predicate SafeSuccesses(outcomes: seq<Outcome>) {
    forall o :: o in outcomes && o.kind == Worked ==> o.safety >= 0.90
  }

  predicate OwnedBy(outcomes: seq<Outcome>, asset: Id) {
    forall o :: o in outcomes ==> o.asset == asset
  }

  /** next_asset_state. */
  function NextState(asset: Id, outcomes: seq<Outcome>): Result<AssetState, MemoryError> {
    if !OwnedBy(outcomes, asset) || outcomes == [] then Failure(MixedOrMissingOutcomes)
    else if CountOf(outcomes, Regressed) >= 2 then Success(Retired)
    else if CountOf(outcomes, Worked) >= 3 && SafeSuccesses(outcomes) && PrimarySum(outcomes) / CountOf(outcomes, Worked) as real >= 0.80 then Success(Promoted)
    else if exists o :: o in outcomes && (o.kind == Failed || o.kind == Regressed) then Success(Watchlist)
    else Success(Candidate)
  }

  /** When an asset is promoted, retired, watched, or stays a candidate. */
  lemma StateExactly(asset: Id, outcomes: seq<Outcome>)
    ensures var r := NextState(asset, outcomes);
            && (r.Success? <==> outcomes != [] && forall o :: o in outcomes ==> o.asset == asset)
            && (r.Success? ==>
                  && (r.value == Retired <==> CountOf(outcomes, Regressed) >= 2)
                  && (r.value == Promoted <==>
                        && CountOf(outcomes, Regressed) <= 1 && CountOf(outcomes, Worked) >= 3
                        && (forall o :: o in outcomes && o.kind == Worked ==> o.safety >= 0.9)
                        && PrimarySum(outcomes) >= 0.8 * CountOf(outcomes, Worked) as real)
                  && (r.value == Candidate ==> forall o :: o in outcomes ==> o.kind == Worked)
                  && (r.value == Watchlist ==> exists o :: o in outcomes && o.kind != Worked))
  {
    var n := CountOf(outcomes, Worked) as real;
    if CountOf(outcomes, Worked) >= 3 { MeanExactly(PrimarySum(outcomes), n); }
  }

  lemma MeanExactly(sum: real, n: real)
    requires n > 0.0
    ensures sum / n >= 0.80 <==> sum >= 0.80 * n
  {
    assert (sum / n) * n == sum;
    if sum >= 0.80 * n { MeanOf(sum, n); }
  }

  // ------------------------------------------------------------------ order does not matter

  lemma {:induction false} Move(outcomes: seq<Outcome>, i: nat, kind: OutcomeKind)
    requires i < |outcomes|
    ensures var rest := outcomes[..i] + outcomes[i + 1..];
            && CountOf(outcomes, kind) == CountOf([outcomes[i]] + rest, kind)
            && PrimarySum(outcomes) == PrimarySum([outcomes[i]] + rest)
    decreases i
  {
    var rest := outcomes[..i] + outcomes[i + 1..];
    assert ([outcomes[i]] + rest)[1..] == rest;
    if i > 0 {
      var tail := outcomes[1..];
      Move(tail, i - 1, kind);
      var shorter := tail[..i - 1] + tail[i..];
      assert rest[1..] == shorter && rest[0] == outcomes[0];
      assert ([tail[i - 1]] + shorter)[1..] == shorter;
    } else {
      assert outcomes == [outcomes[0]] + rest;
    }
  }

  lemma Without(b: seq<Outcome>, i: nat)
    requires i < |b|
    ensures multiset(b[..i] + b[i + 1..]) == multiset(b) - multiset{b[i]}
  {
    assert b == b[..i] + [b[i]] + b[i + 1..];
  }

  lemma Head(o: Outcome, rest: seq<Outcome>, kind: OutcomeKind)
    ensures CountOf([o] + rest, kind) == (if o.kind == kind then 1 else 0) + CountOf(rest, kind)
    ensures PrimarySum([o] + rest) == (if o.kind == Worked then o.primary else 0.0) + PrimarySum(rest)
  {
    assert ([o] + rest)[1..] == rest;
  }

  /** Where the first element of a is in its permutation b, and what b is without it. */
  lemma Pick(a: seq<Outcome>, b: seq<Outcome>) returns (i: nat, rest: seq<Outcome>)
    requires multiset(a) == multiset(b) && a != []
    ensures i < |b| && b[i] == a[0] && rest == b[..i] + b[i + 1..] && multiset(a[1..]) == multiset(rest)
  {
    assert a[0] in multiset(a);
    i := IndexIn(b, a[0]);
    rest := b[..i] + b[i + 1..];
    Without(b, i);
    TailOf(a);
  }

  lemma IndexIn(b: seq<Outcome>, o: Outcome) returns (i: nat)
    requires o in multiset(b)
    ensures i < |b| && b[i] == o
  {
    i :| 0 <= i < |b| && b[i] == o;
  }

  lemma TailOf(a: seq<Outcome>)
    requires a != []
    ensures multiset(a[1..]) == multiset(a) - multiset{a[0]}
  {
    assert a == [a[0]] + a[1..];
  }

  lemma {:induction false} SameTotals(a: seq<Outcome>, b: seq<Outcome>, kind: OutcomeKind)
    requires multiset(a) == multiset(b)
    ensures CountOf(a, kind) == CountOf(b, kind) && PrimarySum(a) == PrimarySum(b)
    decreases |a|
  {
    if a == [] {
      assert |multiset(b)| == 0;
    } else {
      var i, rest := Pick(a, b);
      Move(b, i, kind);
      SameTotals(a[1..], rest, kind);
      Head(b[i], rest, kind);
    }
  }

  /** The recomputed state does not depend on the order of the outcomes. */
  lemma OrderIndependent(asset: Id, a: seq<Outcome>, b: seq<Outcome>)
    requires multiset(a) == multiset(b)
    ensures NextState(asset, a) == NextState(asset, b)
  {
    SameTotals(a, b, Worked);
    SameTotals(a, b, Regressed);
    assert forall o :: o in a <==> o in b by {
      assert forall o :: o in a <==> o in multiset(a);
      assert forall o :: o in b <==> o in multiset(b);
    }
    assert |multiset(a)| == |a| && |multiset(b)| == |b|;
  }

  lemma {:induction false} CountAppend(a: seq<Outcome>, b: seq<Outcome>, kind: OutcomeKind)
    ensures CountOf(a + b, kind) == CountOf(a, kind) + CountOf(b, kind)
    decreases |a|
  {
    if a == [] {
      assert a + b == b;
    } else {
      assert (a + b)[1..] == a[1..] + b;
      CountAppend(a[1..], b, kind);
    }
  }

  // ------------------------------------------------------------------ outcomes of response replays

  /** response_replay_outcome: a safety regression dominates an ordinary quality failure. */
  function ReplayOutcome(run: Evolution.Run, asset: Id, synthetic: nat): Outcome {
    Outcome(asset, synthetic, run.id,
            if run.metrics.safety < 0.90 then Regressed
            else if run.metrics.primary < 0.80 || run.metrics.calibration < 0.80 then Failed
            else Worked,
            run.metrics.primary, run.metrics.safety)
  }

  ghost predicate FromReplays(outcomes: seq<Outcome>, asset: Id) {
    forall o :: o in outcomes ==> exists run: Evolution.Run, synthetic :: o == ReplayOutcome(run, asset, synthetic)
  }

  lemma {:induction false} MeanHigh(outcomes: seq<Outcome>)
    requires forall o :: o in outcomes && o.kind == Worked ==> o.primary >= 0.80
    ensures PrimarySum(outcomes) >= 0.80 * CountOf(outcomes, Worked) as real
    decreases |outcomes|
  {
    if outcomes != [] { MeanHigh(outcomes[1..]); }
  }

  lemma {:induction false} SomeOf(outcomes: seq<Outcome>, kind: OutcomeKind)
    ensures CountOf(outcomes, kind) > 0 <==> exists o :: o in outcomes && o.kind == kind
    decreases |outcomes|
  {
    if outcomes != [] {
      SomeOf(outcomes[1..], kind);
      assert outcomes[0] in outcomes;
      assert forall o :: o in outcomes ==> o == outcomes[0] || o in outcomes[1..];
    }
  }

  /** For replay outcomes the averages never decide: an asset is promoted exactly with at least
      three successes and at most one regression, and retired exactly from two regressions on. */
  lemma ReplayPromotion(asset: Id, outcomes: seq<Outcome>)
    requires FromReplays(outcomes, asset) && outcomes != []
    ensures NextState(asset, outcomes).Success?
    ensures NextState(asset, outcomes).value == Promoted <==> CountOf(outcomes, Worked) >= 3 && CountOf(outcomes, Regressed) <= 1
    ensures NextState(asset, outcomes).value == Retired <==> CountOf(outcomes, Regressed) >= 2
    ensures NextState(asset, outcomes).value == Candidate <==>
              CountOf(outcomes, Worked) < 3 && CountOf(outcomes, Regressed) == 0 && CountOf(outcomes, Failed) == 0
  {
    forall o | o in outcomes ensures o.asset == asset && (o.kind == Worked ==> o.primary >= 0.80 && o.safety >= 0.90) { }
    MeanHigh(outcomes);
    SomeOf(outcomes, Failed);
    SomeOf(outcomes, Regressed);
    var n := CountOf(outcomes, Worked) as real;
    if CountOf(outcomes, Worked) >= 3 { assert PrimarySum(outcomes) / n >= 0.80 by { MeanOf(PrimarySum(outcomes), n); } }
  }

  // ------------------------------------------------------------------ ... in terms of the evaluation runs

  predicate Unsafe(run: Evolution.Run) { run.metrics.safety < 0.90 }

  predicate Good(run: Evolution.Run) {
    run.metrics.safety >= 0.90 && run.metrics.primary >= 0.80 && run.metrics.calibration >= 0.80
  }

  function CountGood(runs: seq<Evolution.Run>): nat {
    if runs == [] then 0 else (if Good(runs[0]) then 1 else 0) + CountGood(runs[1..])
  }

  function CountUnsafe(runs: seq<Evolution.Run>): nat {
    if runs == [] then 0 else (if Unsafe(runs[0]) then 1 else 0) + CountUnsafe(runs[1..])
  }

  ghost predicate RecordedFor(o: Outcome, run: Evolution.Run, asset: Id) {
    exists synthetic :: o == ReplayOutcome(run, asset, synthetic)
  }

  /** The outcomes recorded for these runs, one each. */
  ghost predicate Recorded(outcomes: seq<Outcome>, runs: seq<Evolution.Run>, asset: Id) {
    |outcomes| == |runs| && forall i :: 0 <= i < |runs| ==> RecordedFor(outcomes[i], runs[i], asset)
  }

  lemma {:induction false} RunsAreCounted(outcomes: seq<Outcome>, runs: seq<Evolution.Run>, asset: Id)
    requires Recorded(outcomes, runs, asset)
    ensures CountOf(outcomes, Worked) == CountGood(runs) && CountOf(outcomes, Regressed) == CountUnsafe(runs)
    ensures CountOf(outcomes, Worked) + CountOf(outcomes, Regressed) + CountOf(outcomes, Failed) == |runs|
    decreases |runs|
  {
    if runs != [] {
      assert RecordedFor(outcomes[0], runs[0], asset);
      forall i | 0 <= i < |runs[1..]| ensures RecordedFor(outcomes[1..][i], runs[1..][i], asset) {
        assert RecordedFor(outcomes[i + 1], runs[i + 1], asset);
      }
      RunsAreCounted(outcomes[1..], runs[1..], asset);
    }
  }

  /** The state of an asset follows from the metrics of its evaluation runs: retired from two unsafe
      runs on; else promoted with three good ones; else a candidate while every run was good; and on
      the watchlist otherwise. */
  lemma MetricsDecide(asset: Id, outcomes: seq<Outcome>, runs: seq<Evolution.Run>)
    requires Recorded(outcomes, runs, asset) && runs != []
    ensures NextState(asset, outcomes) == Success(
              if CountUnsafe(runs) >= 2 then Retired
              else if CountGood(runs) >= 3 then Promoted
              else if CountGood(runs) == |runs| then Candidate
              else Watchlist)
  {
    RunsAreCounted(outcomes, runs, asset);
    forall o | o in outcomes ensures exists run: Evolution.Run, synthetic :: o == ReplayOutcome(run, asset, synthetic) {
      var i :| 0 <= i < |outcomes| && outcomes[i] == o;
      assert RecordedFor(outcomes[i], runs[i], asset);
    }
    assert FromReplays(outcomes, asset);
    hide Recorded, FromReplays, CountGood, CountUnsafe, CountOf;
    ReplayPromotion(asset, outcomes);
  }

  lemma MeanOf(sum: real, n: real)
    requires n > 0.0 && sum >= 0.80 * n
    ensures sum / n >= 0.80
  {
    assert (sum / n) * n == sum;
    Cancel(sum / n, 0.80, n);
  }

  lemma Cancel(x: real, c: real, n: real)
    requires n > 0.0 && x * n >= c * n
    ensures x >= c
  {
  }
}
