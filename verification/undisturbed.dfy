/** What handling one delivery comes to when nobody interferes: not which steps are taken, but what
    the tables and the lists hold afterwards. */
module Undisturbed {
  import opened Wrappers
  import opened Protocol
  import opened Receipts
  import opened Interleaving
  import opened WorkerProcess
  import Necessity

  function Later(s: State, seconds: nat): State { s.(now := s.now + seconds) }

  /** The steps `own` are taken one after the other, any time passes before each of them, and nobody
      else does anything. */
  ghost predicate Alone(s: State, own: seq<Step>, s': State)
    decreases |own|
  {
    if own == [] then s' == s
    else exists wait: nat :: Enabled(Later(s, wait), own[0]) && Alone(Apply(Later(s, wait), own[0]), own[1..], s')
  }

  /** An undisturbed run is one of the runs the worker's contracts allow. */
  lemma {:induction false} AloneIsAllowed(s: State, own: seq<Step>, s': State, w: WorkerId)
    requires Alone(s, own, s') && forall k :: k in own ==> ByWorker(k, w)
    ensures Does(s, own, s', w)
    decreases |own|
  {
    if own == [] {
      DoesNothing(s, w);
    } else {
      var wait, mid := First(s, own[0], own[1..], s');
      AloneIsAllowed(mid, own[1..], s', w);
      hide Apply, Enabled, Does, Alone;
      WaitAndDo(s, wait, own[0], mid, w);
      DoesThen(s, [own[0]], mid, own[1..], s', w);
      assert [own[0]] + own[1..] == own;
    }
  }

  lemma WaitAndDo(s: State, wait: nat, k: Step, mid: State, w: WorkerId)
    requires Enabled(Later(s, wait), k) && mid == Apply(Later(s, wait), k) && ByWorker(k, w)
    ensures Does(s, [k], mid, w)
  {
    hide Does;
    DoesOne(s, Tick(wait), w);
    assert Later(s, wait) == Apply(s, Tick(wait));
    DoesOne(Later(s, wait), k, w);
    DoesThen(s, [], Later(s, wait), [k], mid, w);
    assert [] + [k] == [k];
  }

  lemma First(s: State, k: Step, ks: seq<Step>, s': State) returns (wait: nat, mid: State)
    requires Alone(s, [k] + ks, s')
    ensures Enabled(Later(s, wait), k) && mid == Apply(Later(s, wait), k) && Alone(mid, ks, s')
  {
    hide Apply, Enabled;
    assert ([k] + ks)[0] == k && ([k] + ks)[1..] == ks;
    wait :| Enabled(Later(s, wait), k) && Alone(Apply(Later(s, wait), k), ks, s');
    mid := Apply(Later(s, wait), k);
  }

  lemma {:induction false} Parts(s: State, a: seq<Step>, b: seq<Step>, s': State) returns (mid: State)
    requires Alone(s, a + b, s')
    ensures Alone(s, a, mid) && Alone(mid, b, s')
    decreases |a|
  {
    hide Apply, Enabled;
    if a == [] {
      assert a + b == b;
      mid := s;
    } else {
      assert a + b == [a[0]] + (a[1..] + b);
      var wait, next := First(s, a[0], a[1..] + b, s');
      mid := Parts(next, a[1..], b, s');
      assert Enabled(Later(s, wait), a[0]) && Alone(Apply(Later(s, wait), a[0]), a[1..], mid);
    }
  }

  // ------------------------------------------------------------------ an execution under way

  /** Only the row of t was written. */
  ghost predicate OneRow(a: map<TaskId, TaskRow>, b: map<TaskId, TaskRow>, t: TaskId) {
    t in b && b.Keys == a.Keys + {t} && forall u :: u in a && u != t ==> b[u] == a[u]
  }

  /** Only the attempt of x was written. */
  ghost predicate OneAttempt(a: map<Exec, AttemptRow>, b: map<Exec, AttemptRow>, x: Exec) {
    x in b && b.Keys == a.Keys + {x} && forall y :: y in a && y != x ==> b[y] == a[y]
  }

  ghost predicate SameElsewhere(s: State, s': State, w: WorkerId) {
    && s'.db.outbox == s.db.outbox && s'.queue == s.queue && s'.processing == s.processing && s'.dead == s.dead
    && s'.cfg == s.cfg && s.now <= s'.now && forall v :: v != w ==> PcOf(s', v) == PcOf(s, v)
  }

  /** Since s, worker w was granted x and got as far as `phase`. */
  ghost predicate Underway(s: State, w: WorkerId, raw: Raw, x: Exec, phase: Phase, mid: State) {
    && PcOf(mid, w) == Executing(raw, x, phase) && SameElsewhere(s, mid, w)
    && OneRow(s.db.tasks, mid.db.tasks, x.task)
    && (var row := mid.db.tasks[x.task];
        && Holds(row, x.lease) && row.startedAt.Some? && s.now <= row.startedAt.value <= mid.now
        && (x.task in s.db.tasks ==> row.createdAt == s.db.tasks[x.task].createdAt))
    && x !in s.db.attempts && mid.db.costs == s.db.costs
    && (if phase == Claimed then mid.db.attempts == s.db.attempts
        else OneAttempt(s.db.attempts, mid.db.attempts, x) && mid.db.attempts[x].status == Inflight)
  }

  /** Since s, x was executed and came to an end: with a result, or with None in failure. */
  ghost predicate Executed(s: State, w: WorkerId, raw: Raw, x: Exec, outcome: Option<nat>, s': State) {
    && PcOf(s', w) == Acking(raw) && SameElsewhere(s, s', w)
    && OneRow(s.db.tasks, s'.db.tasks, x.task)
    && (var row := s'.db.tasks[x.task];
        && row.status == (if outcome.Some? then Succeeded else Failed) && row.lease == Some(x.lease)
        && (outcome.Some? ==> row.result == outcome)
        && row.startedAt.Some? && row.completedAt.Some? && s.now <= row.startedAt.value <= row.completedAt.value <= s'.now
        && (x.task in s.db.tasks ==> row.createdAt == s.db.tasks[x.task].createdAt))
    && OneAttempt(s.db.attempts, s'.db.attempts, x)
    && s'.db.attempts[x].status == (if outcome.Some? then Completed else AttemptFailed)
    && s'.db.costs == s.db.costs + if outcome.Some? then [x] else []
  }

  lemma GrantedState(s: State, wait: nat, w: WorkerId, raw: Raw, x: Exec)
    requires PcOf(s, w) == Moved(raw) && Granted(s.db, x.task, None) && x !in s.db.attempts
    requires x == Exec(Target(s, raw), ClaimLease(s))
    ensures var mid := ClaimStep(Later(s, wait), w, raw, None);
            Underway(s, w, raw, x, Claimed, mid) && mid.h.calls == s.h.calls
  {
  }

  lemma ClaimGrants(s: State, w: WorkerId, raw: Raw, ks: seq<Step>, s': State) returns (mid: State)
    requires Inv(s) && PcOf(s, w) == Moved(raw) && Alone(s, [Claim(w, None)] + ks, s')
    requires Granted(s.db, Target(s, raw), None)
    ensures Underway(s, w, raw, Exec(Target(s, raw), ClaimLease(s)), Claimed, mid) && Alone(mid, ks, s')
    ensures mid.h.calls == s.h.calls
  {
    var x := Exec(Target(s, raw), ClaimLease(s));
    assert x !in s.db.attempts by { assert x in s.db.attempts ==> GrantedTo(s, x); }
    hide Alone, Inv, Underway, Granted, Target, Enabled, ClaimStep;
    var wait;
    wait, mid := First(s, Claim(w, None), ks, s');
    GrantedState(s, wait, w, raw, x);
    assert PcOf(Later(s, wait), w) == PcOf(s, w);
  }

  lemma AttemptRecords(s: State, w: WorkerId, raw: Raw, x: Exec, mid: State, ks: seq<Step>, s': State) returns (next: State)
    requires Underway(s, w, raw, x, Claimed, mid) && Alone(mid, [Attempt(w)] + ks, s')
    ensures Underway(s, w, raw, x, Recorded, next) && Alone(next, ks, s') && next.h.calls == mid.h.calls
  {
    hide Alone;
    var wait;
    wait, next := First(mid, Attempt(w), ks, s');
  }

  lemma CallGoesOut(s: State, w: WorkerId, raw: Raw, x: Exec, mid: State, ks: seq<Step>, s': State) returns (next: State)
    requires Underway(s, w, raw, x, Recorded, mid) && Alone(mid, [Call(w)] + ks, s')
    ensures Underway(s, w, raw, x, Called, next) && Alone(next, ks, s') && next.h.calls == mid.h.calls + [x]
  {
    hide Alone;
    var wait;
    wait, next := First(mid, Call(w), ks, s');
  }

  lemma CompletedState(s: State, w: WorkerId, raw: Raw, x: Exec, phase: Phase, mid: State, wait: nat, r: nat)
    requires Underway(s, w, raw, x, phase, mid) && phase != Claimed && x !in s.db.costs
    ensures var later := Later(mid, wait);
            Executed(s, w, raw, x, Some(r), At(later.(db := CompleteTx(later.db, later.now, x, r)), w, Acking(raw)))
  {
  }

  lemma FailedState(s: State, w: WorkerId, raw: Raw, x: Exec, phase: Phase, mid: State, wait: nat)
    requires Underway(s, w, raw, x, phase, mid) && phase != Claimed
    ensures var later := Later(mid, wait);
            Executed(s, w, raw, x, None, At(later.(db := FailTx(later.db, later.now, x)), w, Acking(raw)))
  {
  }

  lemma RaisedState(s: State, w: WorkerId, raw: Raw, x: Exec, phase: Phase, mid: State, wait: nat)
    requires Underway(s, w, raw, x, phase, mid) && phase != Claimed
    ensures Underway(s, w, raw, x, Failing, At(Later(mid, wait), w, Executing(raw, x, Failing)))
  {
  }

  lemma CompletionCommits(s: State, w: WorkerId, raw: Raw, x: Exec, phase: Phase, mid: State, r: nat, s': State)
    requires Underway(s, w, raw, x, phase, mid) && phase != Claimed && x !in s.db.costs
    requires Alone(mid, [Complete(w, r, true)], s')
    ensures Executed(s, w, raw, x, Some(r), s') && s'.h.calls == mid.h.calls
  {
    assert PcOf(mid, w) == Executing(raw, x, phase);
    hide Alone, Underway, Executed, CompleteTx, Enabled;
    assert [Complete(w, r, true)] == [Complete(w, r, true)] + [];
    var wait, next := First(mid, Complete(w, r, true), [], s');
    assert PcOf(Later(mid, wait), w) == Executing(raw, x, phase);
    CompletedState(s, w, raw, x, phase, mid, wait, r);
    NothingMore(next, s');
  }

  lemma Raises(s: State, w: WorkerId, raw: Raw, x: Exec, phase: Phase, mid: State, ks: seq<Step>, s': State) returns (next: State)
    requires Underway(s, w, raw, x, phase, mid) && phase != Claimed && Alone(mid, [Raise(w)] + ks, s')
    ensures Underway(s, w, raw, x, Failing, next) && Alone(next, ks, s') && next.h.calls == mid.h.calls
  {
    assert PcOf(mid, w) == Executing(raw, x, phase);
    hide Alone, Underway, Enabled;
    var wait;
    wait, next := First(mid, Raise(w), ks, s');
    assert PcOf(Later(mid, wait), w) == Executing(raw, x, phase);
    RaisedState(s, w, raw, x, phase, mid, wait);
  }

  lemma FailureCommits(s: State, w: WorkerId, raw: Raw, x: Exec, mid: State, s': State)
    requires Underway(s, w, raw, x, Failing, mid) && Alone(mid, [Fail(w)], s')
    ensures Executed(s, w, raw, x, None, s') && s'.h.calls == mid.h.calls
  {
    assert PcOf(mid, w) == Executing(raw, x, Failing);
    hide Alone, Underway, Executed, FailTx, Enabled;
    assert [Fail(w)] == [Fail(w)] + [];
    var wait, last := First(mid, Fail(w), [], s');
    assert PcOf(Later(mid, wait), w) == Executing(raw, x, Failing);
    FailedState(s, w, raw, x, Failing, mid, wait);
    NothingMore(last, s');
  }

  lemma RaiseAndFailCommits(s: State, w: WorkerId, raw: Raw, x: Exec, phase: Phase, mid: State, s': State)
    requires Underway(s, w, raw, x, phase, mid) && phase != Claimed && Alone(mid, [Raise(w), Fail(w)], s')
    ensures Executed(s, w, raw, x, None, s') && s'.h.calls == mid.h.calls
  {
    hide Alone, Underway, Executed;
    assert [Raise(w), Fail(w)] == [Raise(w)] + [Fail(w)];
    var next := Raises(s, w, raw, x, phase, mid, [Fail(w)], s');
    FailureCommits(s, w, raw, x, next, s');
  }

  lemma NothingMore(s: State, s': State)
    requires Alone(s, [], s')
    ensures s' == s
  {
  }

  // ------------------------------------------------------------------ one delivery

  predicate Works(provider: Provider, luck: Luck) {
    provider == LocalSmokeTest || (provider == GigaChat && luck.provider.Answered?)
  }

  predicate Calls(provider: Provider, luck: Luck) {
    provider == GigaChat && !luck.provider.NotSent?
  }

  predicate AllHeard(luck: Luck) {
    luck.bury.Heard? && luck.claim.Heard? && luck.attempt.Heard? && luck.complete.Heard? && luck.fail.Heard?
  }

  /** The provider script of a fault-free delivery comes to a completion or a failure. */
  lemma ProviderDecides(s: State, w: WorkerId, raw: Raw, x: Exec, mid: State, luck: Luck, s': State)
    requires Underway(s, w, raw, x, Recorded, mid) && x !in s.db.costs && AllHeard(luck)
    requires Alone(mid, ProviderScript(w, raw.provider, luck), s')
    ensures Executed(s, w, raw, x, if Works(raw.provider, luck) then Some(luck.result) else None, s')
    ensures s'.h.calls == mid.h.calls + if Calls(raw.provider, luck) then [x] else []
  {
    hide Alone, Underway, Executed;
    var provider := ProviderScript(w, raw.provider, luck);
    if raw.provider == LocalSmokeTest {
      CompletionCommits(s, w, raw, x, Recorded, mid, luck.result, s');
    } else if !Calls(raw.provider, luck) {
      assert provider == [Raise(w), Fail(w)];
      RaiseAndFailCommits(s, w, raw, x, Recorded, mid, s');
    } else if luck.provider.Rejected? {
      assert provider == [Call(w)] + [Raise(w), Fail(w)];
      var called := CallGoesOut(s, w, raw, x, mid, [Raise(w), Fail(w)], s');
      RaiseAndFailCommits(s, w, raw, x, Called, called, s');
    } else {
      assert provider == [Call(w)] + [Complete(w, luck.result, true)];
      var called := CallGoesOut(s, w, raw, x, mid, [Complete(w, luck.result, true)], s');
      CompletionCommits(s, w, raw, x, Called, called, luck.result, s');
    }
  }

  /** A delivery of a task that waits or is new, while no attempt of it is in flight: it is executed
      once. If the provider answers, or it is the local smoke test, the row holds the result that
      was produced, the attempt is completed and there is one receipt more; otherwise the row and
      the attempt are failed and there is no receipt. */
  lemma DeliveryIsExecuted(s: State, w: WorkerId, raw: Raw, luck: Luck, s': State)
    requires Inv(s) && PcOf(s, w) == Moved(raw) && (raw.body.Named? || raw.body.NoTaskId?) && AllHeard(luck)
    requires Target(s, raw) in s.db.tasks ==> s.db.tasks[Target(s, raw)].status == Queued
    requires Alone(s, DeliveryScript(w, raw, luck, None, true), s')
    ensures var x := Exec(Target(s, raw), ClaimLease(s));
            && Executed(s, w, raw, x, if Works(raw.provider, luck) then Some(luck.result) else None, s')
            && s'.h.calls == s.h.calls + if Calls(raw.provider, luck) then [x] else []
  {
    var x := Exec(Target(s, raw), ClaimLease(s));
    assert x !in s.db.costs by { assert x in s.db.costs ==> x in s.db.attempts && GrantedTo(s, x); }
    var provider := ProviderScript(w, raw.provider, luck);
    assert DeliveryScript(w, raw, luck, None, true) == [Claim(w, None)] + ([Attempt(w)] + provider);
    assert Granted(s.db, Target(s, raw), None);
    hide Alone, Underway, Executed, Inv, PcOf, Target, DeliveryScript, ProviderScript, Granted, Works, Calls;
    var granted := ClaimGrants(s, w, raw, [Attempt(w)] + provider, s');
    var recorded := AttemptRecords(s, w, raw, x, granted, provider, s');
    ProviderDecides(s, w, raw, x, recorded, luck, s');
  }

  // ------------------------------------------------------------------ deliveries that are not executed

  /** While an attempt of its task is in flight a delivery is refused: that attempt (the latest) is
      written off as uncertain, and a task that still waited is failed. */
  ghost predicate Refused(s: State, w: WorkerId, raw: Raw, y: Exec, s': State) {
    && PcOf(s', w) == Acking(raw) && SameElsewhere(s, s', w) && s'.db.costs == s.db.costs && s'.h.calls == s.h.calls
    && OneAttempt(s.db.attempts, s'.db.attempts, y) && y in s.db.attempts
    && s'.db.attempts[y] == s.db.attempts[y].(status := OutcomeUnknown)
    && OneRow(s.db.tasks, s'.db.tasks, y.task)
    && var row := s'.db.tasks[y.task];
       if y.task in s.db.tasks && s.db.tasks[y.task].status != Queued then row == s.db.tasks[y.task]
       else row.status == Failed && row.completedAt.Some? && s.now <= row.completedAt.value <= s'.now
  }

  lemma RefusedState(s: State, wait: nat, w: WorkerId, raw: Raw, y: Exec)
    requires PcOf(s, w) == Moved(raw) && IsInflight(s.db.attempts, Target(s, raw), y)
    ensures Refused(s, w, raw, y, ClaimStep(Later(s, wait), w, raw, Some(y)))
  {
  }

  lemma DeliveryIsRefused(s: State, w: WorkerId, raw: Raw, luck: Luck, y: Exec, s': State)
    requires PcOf(s, w) == Moved(raw) && (raw.body.Named? || raw.body.NoTaskId?) && AllHeard(luck)
    requires Alone(s, DeliveryScript(w, raw, luck, Some(y), false), s')
    ensures Refused(s, w, raw, y, s')
    ensures forall z :: z in s.db.attempts && IsInflight(s.db.attempts, Target(s, raw), z) ==>
              s.db.attempts[z].startedAt <= s.db.attempts[y].startedAt
  {
    var k := Claim(w, Some(y));
    assert DeliveryScript(w, raw, luck, Some(y), false) == [k] + [];
    var wait, next := First(s, k, [], s');
    NothingMore(next, s');
    hide Alone, Refused;
    RefusedState(s, wait, w, raw, y);
  }

  /** A delivery of a task that is running or over, with no attempt in flight, changes nothing. */
  lemma DuplicateChangesNothing(s: State, w: WorkerId, raw: Raw, luck: Luck, s': State)
    requires PcOf(s, w) == Moved(raw) && (raw.body.Named? || raw.body.NoTaskId?) && AllHeard(luck)
    requires Target(s, raw) in s.db.tasks && s.db.tasks[Target(s, raw)].status != Queued
    requires Alone(s, DeliveryScript(w, raw, luck, None, false), s')
    ensures s'.db == s.db && s'.h == s.h && SameElsewhere(s, s', w) && PcOf(s', w) == Acking(raw)
  {
    var k := Claim(w, None);
    assert DeliveryScript(w, raw, luck, None, false) == [k] + [];
    var wait, next := First(s, k, [], s');
    NothingMore(next, s');
    hide Alone;
  }

  /** A message no task can be made of goes to the dead list. */
  lemma MalformedIsBuried(s: State, w: WorkerId, raw: Raw, luck: Luck, s': State)
    requires PcOf(s, w) == Moved(raw) && (raw.body.NotAnObject? || raw.body.BadLane?) && AllHeard(luck)
    requires Alone(s, DeliveryScript(w, raw, luck, None, false), s')
    ensures s'.dead == s.dead + [raw] && s'.db == s.db && s'.queue == s.queue && s'.processing == s.processing
    ensures PcOf(s', w) == Acking(raw)
  {
    assert DeliveryScript(w, raw, luck, None, false) == [Bury(w)] + [];
    var wait, next := First(s, Bury(w), [], s');
    NothingMore(next, s');
    hide Alone;
  }
}
