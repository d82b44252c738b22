/** The dispatch loop the worker process runs is, when nothing fails and nobody interferes, one
    round of the draining argument. */
module DispatchRounds {
  import opened Wrappers
  import opened Protocol
  import opened Necessity
  import opened Drain
  import opened WorkerProcess

  function Pairs(w: WorkerId, n: nat): seq<Step> {
    if n == 0 then [] else [Publish(w), Mark(w)] + Pairs(w, n - 1)
  }

  lemma {:induction false} PairsSnoc(w: WorkerId, n: nat)
    ensures Pairs(w, n + 1) == Pairs(w, n) + [Publish(w), Mark(w)]
  {
    if n > 0 {
      PairsSnoc(w, n - 1);
      assert [Publish(w), Mark(w)] + (Pairs(w, n - 1) + [Publish(w), Mark(w)])
          == ([Publish(w), Mark(w)] + Pairs(w, n - 1)) + [Publish(w), Mark(w)];
    }
  }

  ghost predicate AllWell(entries: seq<Entry>, lucks: nat -> EntryLuck) {
    && (forall i :: 0 <= i < |entries| ==> entries[i].payload.body == Named(entries[i].task))
    && (forall i: nat :: i < |entries| ==> lucks(i).push.Heard? && !lucks(i).mark.Lost?)
  }

  lemma {:induction false} WellScript(w: WorkerId, entries: seq<Entry>, lucks: nat -> EntryLuck)
    requires AllWell(entries, lucks)
    ensures BatchScript(w, entries, lucks) == Pairs(w, |entries|)
    decreases |entries|
  {
    if entries != [] {
      var n := |entries| - 1;
      assert lucks(n).push.Heard? && entries[n].payload.body == Named(entries[n].task);
      WellScript(w, entries[..n], lucks);
      PairsSnoc(w, n);
    }
  }

  lemma {:induction false} PairsRound(s: State, w: WorkerId, c: ClaimId, rest: seq<Entry>, s': State)
    requires PcOf(s, w) == DispatchPc(c, rest) && forall i :: 0 <= i < |rest| ==> rest[i].payload.body == Named(rest[i].task)
    requires Plays(s, Pairs(w, |rest|), s', false, false)
    ensures s' == RestState(s, w, c, rest)
    decreases |rest|
  {
    if rest != [] {
      var mid := PublishStep(s, w, c, rest[0], rest[1..]);
      var next := MarkStep(mid, w, c, rest[0].task, rest[1..]);
      var ks := Pairs(w, |rest|);
      TwoSteps(s, ks, s', w, c, rest);
      PairsRound(next, w, c, rest[1..], s');
    }
  }

  lemma FirstStep(s: State, k: Step, ks: seq<Step>, s': State)
    requires Plays(s, [k] + ks, s', false, false)
    ensures Enabled(s, k) && Plays(Apply(s, k), ks, s', false, false)
  {
    hide Apply, Enabled;
    assert ([k] + ks)[0] == k && ([k] + ks)[1..] == ks;
  }

  lemma AfterPublish(s: State, w: WorkerId, c: ClaimId, rest: seq<Entry>, ks: seq<Step>, s': State) returns (mid: State)
    requires rest != [] && PcOf(s, w) == Dispatching(c, rest) && rest[0].payload.body == Named(rest[0].task)
    requires Plays(s, [Publish(w)] + ks, s', false, false)
    ensures mid == PublishStep(s, w, c, rest[0], rest[1..]) && Plays(mid, ks, s', false, false)
    ensures PcOf(mid, w) == Pushed(c, rest[0].task, rest[1..])
  {
    hide Plays;
    mid := PublishStep(s, w, c, rest[0], rest[1..]);
    FirstStep(s, Publish(w), ks, s');
  }

  lemma AfterMark(s: State, w: WorkerId, c: ClaimId, t: TaskId, rest: seq<Entry>, ks: seq<Step>, s': State)
    requires PcOf(s, w) == Pushed(c, t, rest) && Plays(s, [Mark(w)] + ks, s', false, false)
    ensures Plays(MarkStep(s, w, c, t, rest), ks, s', false, false)
    ensures PcOf(MarkStep(s, w, c, t, rest), w) == DispatchPc(c, rest)
  {
    hide Plays, MarkTx;
    FirstStep(s, Mark(w), ks, s');
  }

  lemma TwoSteps(s: State, ks: seq<Step>, s': State, w: WorkerId, c: ClaimId, rest: seq<Entry>)
    requires rest != [] && PcOf(s, w) == Dispatching(c, rest) && rest[0].payload.body == Named(rest[0].task)
    requires ks == Pairs(w, |rest|) && Plays(s, ks, s', false, false)
    ensures var next := MarkStep(PublishStep(s, w, c, rest[0], rest[1..]), w, c, rest[0].task, rest[1..]);
            PcOf(next, w) == DispatchPc(c, rest[1..]) && Plays(next, Pairs(w, |rest[1..]|), s', false, false)
  {
    hide Plays, MarkStep, PublishStep;
    var pairs := Pairs(w, |rest| - 1);
    assert ks == [Publish(w)] + ([Mark(w)] + pairs);
    var mid := AfterPublish(s, w, c, rest, [Mark(w)] + pairs, s');
    AfterMark(mid, w, c, rest[0].task, rest[1..], pairs, s');
  }

  /** dispatch_pending_outbox, when nothing fails and nobody interferes, is exactly one round. */
  lemma CodeIsOneRound(s: State, w: WorkerId, batch: seq<TaskId>, lucks: nat -> EntryLuck, s': State)
    requires PcOf(s, w).Idle? && IsBatch(s.db, s.now, s.cfg, batch) && OwnPayload(s.db)
    requires AllWell(Entries(s.db, batch), lucks)
    requires Plays(s, DispatchScript(w, Heard, batch, Entries(s.db, batch), lucks), s', false, false)
    ensures s' == RoundState(s, w, batch)
  {
    hide Plays, RestState;
    var entries := Entries(s.db, batch);
    WellScript(w, entries, lucks);
    FirstStep(s, OutboxClaim(w, batch), Pairs(w, |entries|), s');
    var mid := OutboxClaimStep(s, w, batch);
    PairsRound(mid, w, s.nextId, entries, s');
  }
}
