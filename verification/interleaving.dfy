/** What one process does, interleaved with anything the others may do meanwhile. */
module Interleaving {
  import opened Wrappers
  import opened Protocol
  import opened Identifiers
  import opened Necessity

  predicate ByWorker(k: Step, w: WorkerId) {
    HasActor(k) && k.w == w
  }

  /** The steps of w among ks, in order. */
  function By(ks: seq<Step>, w: WorkerId): seq<Step>
    decreases |ks|
  {
    if ks == [] then []
    else (if ByWorker(ks[0], w) then [ks[0]] else []) + By(ks[1..], w)
  }

  /** Some run leads from s to s' in which w itself takes exactly the steps `own`; the others may
      take any steps in between. */
  ghost predicate Does(s: State, own: seq<Step>, s': State, w: WorkerId) {
    exists ks :: Plays(s, ks, s', false, false) && By(ks, w) == own
  }

  lemma DoesNothing(s: State, w: WorkerId)
    ensures Does(s, [], s, w)
  {
    assert Plays(s, [], s, false, false) && By([], w) == [];
  }

  lemma DoesOne(s: State, k: Step, w: WorkerId)
    requires Enabled(s, k)
    ensures Does(s, if ByWorker(k, w) then [k] else [], Apply(s, k), w)
  {
    assert Plays(Apply(s, k), [], Apply(s, k), false, false);
    assert Plays(s, [k], Apply(s, k), false, false);
    assert By([], w) == [];
    assert By([k], w) == if ByWorker(k, w) then [k] else [];
  }

  lemma {:induction false} BySplits(ks: seq<Step>, ls: seq<Step>, w: WorkerId)
    ensures By(ks + ls, w) == By(ks, w) + By(ls, w)
    decreases |ks|
  {
    hide ByWorker;
    if ks == [] {
      assert ks + ls == ls;
      assert By(ks, w) == [];
    } else {
      assert (ks + ls)[0] == ks[0] && (ks + ls)[1..] == ks[1..] + ls;
      var head := if ByWorker(ks[0], w) then [ks[0]] else [];
      calc {
        By(ks + ls, w);
        head + By(ks[1..] + ls, w);
        { BySplits(ks[1..], ls, w); }
        head + (By(ks[1..], w) + By(ls, w));
        By(ks, w) + By(ls, w);
      }
    }
  }

  lemma DoesThen(s: State, a: seq<Step>, mid: State, b: seq<Step>, s': State, w: WorkerId)
    requires Does(s, a, mid, w) && Does(mid, b, s', w)
    ensures Does(s, a + b, s', w)
  {
    var ks :| Plays(s, ks, mid, false, false) && By(ks, w) == a;
    var ls :| Plays(mid, ls, s', false, false) && By(ls, w) == b;
    PlaysOn(s, ks, mid, ls, s', false, false);
    BySplits(ks, ls, w);
  }

  lemma ForeignStep(s: State, k: Step, w: WorkerId)
    requires Enabled(s, k) && !ByWorker(k, w)
    ensures PcOf(Apply(s, k), w) == PcOf(s, w) && Apply(s, k).cfg == s.cfg
  {
    hide ClaimTx, RecordAttemptTx, CompleteTx, FailTx, RecoverTx, ReapTx, SubmitTx, OutboxClaimTx, MarkTx, CleanupTx, Lrem, NamedIn;
    ActorMoves(s, k, Apply(s, k));
  }

  lemma {:induction false} ForeignSteps(s: State, ks: seq<Step>, s': State, w: WorkerId)
    requires Plays(s, ks, s', false, false) && By(ks, w) == []
    ensures PcOf(s', w) == PcOf(s, w) && s'.cfg == s.cfg
    decreases |ks|
  {
    hide Apply, Enabled, PcOf;
    if ks != [] {
      ForeignStep(s, ks[0], w);
      ForeignSteps(Apply(s, ks[0]), ks[1..], s', w);
    }
  }

  /** While w takes no step, nobody else moves its program counter. */
  lemma OthersLeaveMeAlone(s: State, s': State, w: WorkerId)
    requires Does(s, [], s', w)
    ensures PcOf(s', w) == PcOf(s, w) && s'.cfg == s.cfg
  {
    var ks :| Plays(s, ks, s', false, false) && By(ks, w) == [];
    ForeignSteps(s, ks, s', w);
  }

  /** Whatever a process did from a reachable state extends the run that reached it, so every
      theorem about runs applies to it. */
  lemma DoesExtendsRun(cfg: Config, ss: seq<State>, ks: seq<Step>, own: seq<Step>, s': State, w: WorkerId)
    returns (ss': seq<State>, ks': seq<Step>)
    requires RunFromInit(cfg, ss, ks) && Does(ss[|ks|], own, s', w)
    ensures RunFromInit(cfg, ss', ks') && ss'[|ks'|] == s' && ks <= ks' && By(ks'[|ks|..], w) == own
  {
    var ls :| Plays(ss[|ks|], ls, s', false, false) && By(ls, w) == own;
    var tail := PlaysRun(ss[|ks|], ls, s', false, false);
    ss' := ss + tail[1..];
    ks' := ks + ls;
    assert ks'[|ks|..] == ls;
    forall i | 0 <= i < |ks'| ensures Next(ss'[i], ks'[i], ss'[i + 1]) {
      if i < |ks| {
        assert Next(ss[i], ks[i], ss[i + 1]);
      } else {
        assert Next(tail[i - |ks|], ls[i - |ks|], tail[i - |ks| + 1]);
      }
    }
  }
}
