/** How often the provider is called for one task. */
module AtMostOnce {
  import opened Wrappers
  import opened Protocol
  import opened Receipts
  import opened Lifecycle

  // ------------------------------------------------------------------ run hypotheses

  ghost predicate Live(s: State, x: Exec) {
    exists w :: w in s.workers && s.workers[w].Executing? && s.workers[w].exec == x
  }

  /** Q, the lease outlives the work: recovery never finds a lease stale while the worker that
      holds it is still executing. */
  ghost predicate LeaseOutlivesWork(s: State, k: Step) {
    k.Judge? && Enabled(s, k) && PcOf(s, k.w).todo[0].body.Named? ==>
      var t := PcOf(s, k.w).todo[0].body.task;
      t in s.db.tasks && Stale(s.db.tasks[t], s.now, s.cfg) && s.db.tasks[t].lease.Some? ==>
        !Live(s, Exec(t, s.db.tasks[t].lease.value))
  }

  /** C, claims wait: no claim_task commits for a task that is running with an attempt in flight. */
  ghost predicate ClaimWaits(s: State, k: Step) {
    k.Claim? && Enabled(s, k) ==>
      var t := Target(s, PcOf(s, k.w).raw);
      t in s.db.tasks && s.db.tasks[t].status == Running ==>
        forall x :: x in s.db.attempts ==> !IsInflight(s.db.attempts, t, x)
  }

  ghost predicate RunQ(cfg: Config, ss: seq<State>, ks: seq<Step>) {
    RunFromInit(cfg, ss, ks) && forall i :: 0 <= i < |ks| ==> LeaseOutlivesWork(ss[i], ks[i])
  }

  ghost predicate RunQC(cfg: Config, ss: seq<State>, ks: seq<Step>) {
    RunQ(cfg, ss, ks) && forall i :: 0 <= i < |ks| ==> ClaimWaits(ss[i], ks[i])
  }

  // ------------------------------------------------------------------ invariants under Q

  ghost predicate OwnsRow(s: State, x: Exec, phase: Phase) {
    && x.task in s.db.tasks
    && var row := s.db.tasks[x.task];
       Holds(row, x.lease) || (phase == Failing && row.status == Succeeded && row.lease == Some(x.lease))
  }

  /** A worker that holds a lease still owns the row. */
  ghost predicate Owners(s: State) {
    forall w :: w in s.workers && s.workers[w].Executing? ==> OwnsRow(s, s.workers[w].exec, s.workers[w].phase)
  }

  /** A cost receipt belongs to the execution that made its task succeed. */
  ghost predicate Paid(s: State) {
    forall x :: x in s.db.costs ==>
      x.task in s.db.tasks && s.db.tasks[x.task].status == Succeeded && s.db.tasks[x.task].lease == Some(x.lease)
  }

  ghost predicate OneInflight(s: State) {
    && (forall x, y | x in s.db.attempts && y in s.db.attempts ::
          IsInflight(s.db.attempts, x.task, x) && IsInflight(s.db.attempts, x.task, y) ==> x == y)
    && (forall x | x in s.db.attempts && x.task in s.db.tasks ::
          IsInflight(s.db.attempts, x.task, x) && s.db.tasks[x.task].status == Running ==>
            s.db.tasks[x.task].lease == Some(x.lease))
  }

  /** Every call was abandoned, is still running, or ended its task. */
  ghost predicate Covered(s: State, x: Exec) {
    || x in s.h.abandoned
    || Live(s, x)
    || (x.task in s.db.tasks && Terminal(s.db.tasks[x.task]) && s.db.tasks[x.task].lease == Some(x.lease))
  }

  ghost predicate Calls(s: State) {
    forall x :: x in s.h.calls ==> Covered(s, x)
  }

  ghost predicate Tidy(s: State) {
    Owners(s) && Paid(s) && OneInflight(s)
  }

  ghost predicate InvQ(s: State) {
    Tidy(s) && Calls(s)
  }

  // ------------------------------------------------------------------ steps: calls

  /** Step k of worker w left its program counter at pc. */
  ghost predicate Advances(s: State, s': State, w: WorkerId, pc: Pc) {
    && s'.workers == s.workers[w := pc]
    && s.h.abandoned <= s'.h.abandoned
    && (forall x :: x in s'.h.calls ==> x in s.h.calls || (pc.Executing? && pc.exec == x))
    && (PcOf(s, w).Executing? ==>
          var x := PcOf(s, w).exec;
          || (pc.Executing? && pc.exec == x)
          || x !in s.h.calls || x in s'.h.abandoned
          || (x.task in s'.db.tasks && Terminal(s'.db.tasks[x.task]) && s'.db.tasks[x.task].lease == Some(x.lease)))
  }

  lemma CallsKept(s: State, s': State, w: WorkerId, pc: Pc)
    requires Calls(s) && Advances(s, s', w, pc) && TxMoves(s.db, s'.db)
    ensures Calls(s')
  {
    forall x | x in s'.h.calls ensures Covered(s', x) {
      if pc.Executing? && pc.exec == x {
        assert s'.workers[w].exec == x;
      } else {
        assert Covered(s, x);
        if Live(s, x) && !(PcOf(s, w).Executing? && PcOf(s, w).exec == x) {
          var v :| v in s.workers && s.workers[v].Executing? && s.workers[v].exec == x;
          assert s'.workers[v] == s.workers[v];
        }
      }
    }
  }

  lemma EndsRow(s: State, k: Step, s': State)
    requires Inv(s) && Owners(s) && Next(s, k, s')
    requires k.Stop? || k.Complete? || k.Fail?
    ensures Advances(s, s', k.w, PcOf(s', k.w))
  {
    if k.Stop? && PcOf(s, k.w).Executing? {
      assert PcOf(s, k.w).exec in s.h.calls ==> PcOf(s, k.w).exec in s.db.attempts;
    }
  }

  lemma GoesOn(s: State, k: Step, s': State)
    requires Next(s, k, s') && !k.Stop? && !k.Complete? && !k.Fail?
    requires !k.Tick? && !k.Submit? && !k.Arrive? && !k.Cleanup?
    ensures Advances(s, s', k.w, PcOf(s', k.w))
  {
    hide ClaimTx, RecordAttemptTx, FailTx, RecoverTx, ReapTx, SubmitTx, OutboxClaimTx, MarkTx, CleanupTx, Lrem, NamedIn, Entries,
         RecoverVerdict, LatestInflight, IsBatch, Target, Granted;
  }

  lemma CallsStep(s: State, k: Step, s': State)
    requires Inv(s) && CleanRows(s) && InvQ(s) && Next(s, k, s')
    ensures Calls(s')
  {
    RowsMoveStep(s, k, s');
    if k.Stop? || k.Complete? || k.Fail? {
      EndsRow(s, k, s');
      CallsKept(s, s', k.w, PcOf(s', k.w));
    } else if k.Tick? || k.Submit? || k.Arrive? || k.Cleanup? {
      assert s'.workers == s.workers && s'.h.calls == s.h.calls && s'.h.abandoned == s.h.abandoned;
      forall x | x in s'.h.calls ensures Covered(s', x) {
        assert Covered(s, x);
      }
    } else {
      GoesOn(s, k, s');
      CallsKept(s, s', k.w, PcOf(s', k.w));
    }
  }

  // ------------------------------------------------------------------ steps: rows, receipts, attempts

  lemma TidySame(s: State, s': State)
    requires Tidy(s) && SameLedger(s, s')
    ensures Tidy(s')
  {
  }

  lemma TidySubmit(s: State, text: nat, s': State)
    requires Inv(s) && Tidy(s) && s' == SubmitStep(s, text)
    ensures Tidy(s')
  {
  }

  lemma TidyGrant(s: State, w: WorkerId, raw: Raw, s': State)
    requires Inv(s) && Tidy(s) && CleanRows(s) && PcOf(s, w) == Moved(raw)
    requires LatestInflight(s.db.attempts, Target(s, raw), None) && Granted(s.db, Target(s, raw), None)
    requires s' == ClaimStep(s, w, raw, None)
    ensures Tidy(s')
  {
  }

  lemma BlockedOwners(s: State, w: WorkerId, raw: Raw, x: Exec, s': State)
    requires Owners(s) && Paid(s) && Blocks(s, w, raw, x, s')
    ensures Owners(s') && Paid(s')
  {
  }

  lemma BlockedInflight(s: State, w: WorkerId, raw: Raw, x: Exec, s': State)
    requires OneInflight(s) && Blocks(s, w, raw, x, s')
    ensures OneInflight(s')
  {
  }

  lemma TidyBlocked(s: State, w: WorkerId, raw: Raw, x: Exec, s': State)
    requires Tidy(s) && Blocks(s, w, raw, x, s')
    ensures Tidy(s')
  {
    hide Owners, Paid, OneInflight, Blocks;
    BlockedOwners(s, w, raw, x, s');
    BlockedInflight(s, w, raw, x, s');
  }

  lemma TidyAttempt(s: State, w: WorkerId, raw: Raw, x: Exec, s': State)
    requires Inv(s) && Tidy(s) && PcOf(s, w) == Executing(raw, x, Claimed)
    requires s' == At(s.(db := RecordAttemptTx(s.db, s.now, x)), w, Executing(raw, x, Recorded))
    ensures Tidy(s')
  {
  }

  lemma TidyCall(s: State, w: WorkerId, raw: Raw, x: Exec, s': State)
    requires Tidy(s) && PcOf(s, w) == Executing(raw, x, Recorded)
    requires s' == At(s.(h := s.h.(calls := s.h.calls + [x])), w, Executing(raw, x, Called))
    ensures Tidy(s')
  {
  }

  lemma TidyComplete(s: State, w: WorkerId, x: Exec, result: nat, pc: Pc, s': State)
    requires Inv(s) && Tidy(s) && PcOf(s, w).Executing? && PcOf(s, w).exec == x && PcOf(s, w).phase != Failing && Open(s, x)
    requires pc.Acking? || pc == PcOf(s, w).(phase := Failing)
    requires s' == At(s.(db := CompleteTx(s.db, s.now, x, result)), w, pc)
    ensures Tidy(s')
  {
  }

  ghost predicate Fails(s: State, w: WorkerId, raw: Raw, x: Exec, s': State) {
    PcOf(s, w) == Executing(raw, x, Failing) && s' == At(s.(db := FailTx(s.db, s.now, x)), w, Acking(raw))
  }

  lemma FailOwners(s: State, w: WorkerId, raw: Raw, x: Exec, s': State)
    requires Holders(s) && Owners(s) && Fails(s, w, raw, x, s')
    ensures Owners(s')
  {
  }

  lemma FailRest(s: State, w: WorkerId, raw: Raw, x: Exec, s': State)
    requires Paid(s) && OneInflight(s) && Fails(s, w, raw, x, s')
    ensures Paid(s') && OneInflight(s')
  {
  }

  lemma TidyFail(s: State, w: WorkerId, raw: Raw, x: Exec, s': State)
    requires Inv(s) && Tidy(s) && Fails(s, w, raw, x, s')
    ensures Tidy(s')
  {
    hide Owners, Paid, OneInflight, Fails, Rows, Grants, Attempts, Holders;
    FailOwners(s, w, raw, x, s');
    FailRest(s, w, raw, x, s');
  }

  /** w recovers the row of t, whose lease no live worker holds if it is stale. */
  ghost predicate Recovers(s: State, w: WorkerId, pc: Pc, t: TaskId, s': State) {
    && !PcOf(s, w).Executing? && !pc.Executing?
    && (t in s.db.tasks && Stale(s.db.tasks[t], s.now, s.cfg) && s.db.tasks[t].lease.Some? ==>
          !Live(s, Exec(t, s.db.tasks[t].lease.value)))
    && s' == At(s.(db := RecoverTx(s.db, s.now, s.cfg, t)), w, pc)
  }

  lemma RecoverOwners(s: State, w: WorkerId, pc: Pc, t: TaskId, s': State)
    requires Owners(s) && Recovers(s, w, pc, t, s')
    ensures Owners(s')
  {
  }

  lemma RecoverRest(s: State, w: WorkerId, pc: Pc, t: TaskId, s': State)
    requires Paid(s) && OneInflight(s) && Recovers(s, w, pc, t, s')
    ensures Paid(s') && OneInflight(s')
  {
    hide Live;
  }

  lemma TidyRecover(s: State, w: WorkerId, pc: Pc, t: TaskId, s': State)
    requires Tidy(s) && Recovers(s, w, pc, t, s')
    ensures Tidy(s')
  {
    hide Owners, Paid, OneInflight, Recovers;
    RecoverOwners(s, w, pc, t, s');
    RecoverRest(s, w, pc, t, s');
  }

  lemma TidyReap(s: State, w: WorkerId, seen: set<TaskId>, s': State)
    requires Inv(s) && Tidy(s) && !PcOf(s, w).Executing?
    requires s' == At(s.(db := ReapTx(s.db, s.now, s.cfg, seen)), w, Idle)
    ensures Tidy(s')
  {
  }

  lemma TidyDuplicate(s: State, w: WorkerId, raw: Raw, s': State)
    requires Tidy(s) && s' == ClaimStep(s, w, raw, None) && !Granted(s.db, Target(s, raw), None)
    ensures Tidy(s')
  {
    assert s'.db == s.db && s'.h == s.h;
    TidySame(s, s');
  }

  lemma TidyClaim(s: State, w: WorkerId, raw: Raw, pick: Option<Exec>, s': State)
    requires Inv(s) && Tidy(s) && CleanRows(s) && PcOf(s, w) == Moved(raw) && s' == ClaimStep(s, w, raw, pick)
    requires LatestInflight(s.db.attempts, Target(s, raw), pick)
    ensures Tidy(s')
  {
    hide ClaimStep;
    if pick.Some? { TidyBlocked(s, w, raw, pick.value, s'); }
    else if Granted(s.db, Target(s, raw), None) { TidyGrant(s, w, raw, s'); }
    else { TidyDuplicate(s, w, raw, s'); }
  }

  lemma TidyStep(s: State, k: Step, s': State)
    requires Inv(s) && CleanRows(s) && Tidy(s) && Next(s, k, s') && LeaseOutlivesWork(s, k)
    ensures Tidy(s')
  {
    hide Tidy, Rows, Grants, Attempts, CleanRows, IsBatch, Lrem, NamedIn, Entries, RecoverVerdict, OutboxClaimTx, MarkTx, CleanupTx,
         ClaimTx, RecordAttemptTx, CompleteTx, FailTx, RecoverTx, ReapTx, SubmitTx;
    if LeavesLedger(k) {
      LedgerKept(s, k, s');
      TidySame(s, s');
    } else {
      match k
      case Call(w) => TidyCall(s, w, PcOf(s, w).raw, PcOf(s, w).exec, s');
      case Submit(text) => TidySubmit(s, text, s');
      case Claim(w, pick) => TidyClaim(s, w, PcOf(s, w).raw, pick, s');
      case Attempt(w) => TidyAttempt(s, w, PcOf(s, w).raw, PcOf(s, w).exec, s');
      case Complete(w, result, _) => TidyComplete(s, w, PcOf(s, w).exec, result, s'.workers[w], s');
      case Fail(w) => TidyFail(s, w, PcOf(s, w).raw, PcOf(s, w).exec, s');
      case Judge(w) =>
        var raw := PcOf(s, w).todo[0];
        if raw.body.Named? { TidyRecover(s, w, s'.workers[w], raw.body.task, s'); } else { TidySame(s, s'); }
      case Reap(w) => TidyReap(s, w, PcOf(s, w).seen, s');
    }
  }

  lemma {:induction false} InvQAlways(cfg: Config, ss: seq<State>, ks: seq<Step>, i: nat)
    requires RunQ(cfg, ss, ks) && i < |ss|
    ensures InvQ(ss[i])
    decreases i
  {
    hide Apply, Enabled;
    if i > 0 {
      var s, k, s' := ss[i - 1], ks[i - 1], ss[i - 1 + 1];
      InvQAlways(cfg, ss, ks, i - 1);
      assert Next(s, k, s') && LeaseOutlivesWork(s, k);
      assert Inv(s) by { InvAlways(cfg, ss, ks, i - 1); }
      assert CleanRows(s) by { CleanAlways(cfg, ss, ks, i - 1); }
      CallsStep(s, k, s');
      TidyStep(s, k, s');
    }
  }

  /** Under Q: one live execution and one attempt in flight per task, and a cost receipt names
      exactly the execution its task succeeded with, so a task is paid for at most once. */
  lemma OneExecutionPerTask(cfg: Config, ss: seq<State>, ks: seq<Step>, i: nat)
    requires RunQ(cfg, ss, ks) && i < |ss|
    ensures forall v, w | v in ss[i].workers && w in ss[i].workers && ss[i].workers[v].Executing? && ss[i].workers[w].Executing? ::
              ss[i].workers[v].exec.task == ss[i].workers[w].exec.task ==> v == w
    ensures forall x, y | x in ss[i].db.attempts && y in ss[i].db.attempts ::
              IsInflight(ss[i].db.attempts, x.task, x) && IsInflight(ss[i].db.attempts, x.task, y) ==> x == y
    ensures forall x :: x in ss[i].db.costs ==>
              x.task in ss[i].db.tasks && ss[i].db.tasks[x.task].status == Succeeded && ss[i].db.tasks[x.task].lease == Some(x.lease)
    ensures forall x, y :: x in ss[i].db.costs && y in ss[i].db.costs && x.task == y.task ==> x == y
  {
    InvQAlways(cfg, ss, ks, i);
    InvAlways(cfg, ss, ks, i);
  }

  // ------------------------------------------------------------------ counting calls

  function CallCount(calls: seq<Exec>, t: TaskId): nat {
    if calls == [] then 0
    else CallCount(calls[..|calls| - 1], t) + (if calls[|calls| - 1].task == t then 1 else 0)
  }

  lemma {:induction false} CallsWithin(calls: seq<Exec>, t: TaskId, S: set<Exec>)
    requires Distinct(calls) && forall x :: x in calls && x.task == t ==> x in S
    ensures CallCount(calls, t) <= |S|
    decreases |calls|
  {
    if calls != [] {
      var front, last := calls[..|calls| - 1], calls[|calls| - 1];
      if last.task == t {
        CallsWithin(front, t, S - {last});
      } else {
        CallsWithin(front, t, S);
      }
    }
  }

  function AbandonedOf(s: State, t: TaskId): set<Exec> {
    set x | x in s.h.abandoned && x.task == t
  }

  /** Under Q the provider calls for a task never exceed one plus the number of its executions
      that were abandoned after their attempt row was committed. */
  lemma CallsBounded(cfg: Config, ss: seq<State>, ks: seq<Step>, i: nat, t: TaskId)
    requires RunQ(cfg, ss, ks) && i < |ss|
    ensures CallCount(ss[i].h.calls, t) <= 1 + |AbandonedOf(ss[i], t)|
  {
    var s := ss[i];
    InvQAlways(cfg, ss, ks, i);
    assert Distinct(s.h.calls) by { InvAlways(cfg, ss, ks, i); }
    var current := if t in s.db.tasks && s.db.tasks[t].lease.Some? then {Exec(t, s.db.tasks[t].lease.value)} else {};
    forall x | x in s.h.calls && x.task == t ensures x in AbandonedOf(s, t) + current {
      assert Covered(s, x);
    }
    CallsWithin(s.h.calls, t, AbandonedOf(s, t) + current);
  }

  // ------------------------------------------------------------------ under Q and C

  /** A task has one attempt row for good, and that row stays in flight until the task ends. */
  ghost predicate SingleAttempt(s: State) {
    && (forall x, y :: x in s.db.attempts && y in s.db.attempts && x.task == y.task ==> x == y)
    && (forall x :: x in s.db.attempts && x.task in s.db.tasks && !Terminal(s.db.tasks[x.task]) ==>
          s.db.attempts[x].status == Inflight)
  }

  lemma SingleSame(s: State, s': State)
    requires SingleAttempt(s) && s'.db.attempts == s.db.attempts && TxMoves(s.db, s'.db)
    requires forall x :: x in s.db.attempts ==> x.task in s.db.tasks
    ensures SingleAttempt(s')
  {
  }

  lemma SingleClaim(s: State, w: WorkerId, raw: Raw, x: Exec, s': State)
    requires Inv(s) && SingleAttempt(s) && PcOf(s, w) == Moved(raw)
    requires IsInflight(s.db.attempts, Target(s, raw), x) && s' == ClaimStep(s, w, raw, Some(x))
    requires ClaimWaits(s, Claim(w, Some(x))) && Enabled(s, Claim(w, Some(x)))
    ensures SingleAttempt(s')
  {
    assert x.task in s.db.tasks;
  }

  lemma SingleAttemptStep(s: State, w: WorkerId, raw: Raw, x: Exec, s': State)
    requires Inv(s) && Tidy(s) && SingleAttempt(s) && PcOf(s, w) == Executing(raw, x, Claimed)
    requires s' == At(s.(db := RecordAttemptTx(s.db, s.now, x)), w, Executing(raw, x, Recorded))
    ensures SingleAttempt(s')
  {
    assert OwnsRow(s, x, Claimed) && x !in s.db.attempts;
    forall y | y in s.db.attempts ensures y.task != x.task {
      assert y.task == x.task ==> IsInflight(s.db.attempts, x.task, y);
    }
  }

  lemma OutcomeKeepsSingle(s: State, x: Exec, phase: Phase, result: nat, s': State)
    requires SingleAttempt(s) && OwnsRow(s, x, phase)
    requires s'.db == FailTx(s.db, s.now, x) || s'.db == CompleteTx(s.db, s.now, x, result)
    ensures SingleAttempt(s')
  {
  }

  lemma SingleOutcome(s: State, w: WorkerId, x: Exec, result: nat, s': State)
    requires Inv(s) && Tidy(s) && SingleAttempt(s) && PcOf(s, w).Executing? && PcOf(s, w).exec == x
    requires s'.db == FailTx(s.db, s.now, x) || s'.db == CompleteTx(s.db, s.now, x, result)
    ensures SingleAttempt(s')
  {
    assert OwnsRow(s, x, PcOf(s, w).phase);
    hide Inv, Tidy, SingleAttempt, OwnsRow, FailTx, CompleteTx;
    OutcomeKeepsSingle(s, x, PcOf(s, w).phase, result, s');
  }

  predicate LeavesAttempts(k: Step) {
    !k.Attempt? && !k.Complete? && !k.Fail? && !(k.Claim? && k.pick.Some?)
  }

  lemma AttemptsKept(s: State, k: Step, s': State)
    requires Next(s, k, s') && LeavesAttempts(k)
    ensures s'.db.attempts == s.db.attempts
  {
  }

  lemma SingleKept(s: State, k: Step, s': State)
    requires Grants(s) && Attempts(s) && CleanRows(s) && SingleAttempt(s) && Next(s, k, s') && LeavesAttempts(k)
    ensures SingleAttempt(s')
  {
    AttemptsKept(s, k, s');
    RowsMoveStep(s, k, s');
    assert forall x :: x in s.db.attempts ==> AttemptOk(s, x, s.db.attempts[x]) && x.task in s.db.tasks;
    SingleSame(s, s');
  }

  lemma SingleStep(s: State, k: Step, s': State)
    requires Inv(s) && CleanRows(s) && Tidy(s) && SingleAttempt(s) && Next(s, k, s') && ClaimWaits(s, k)
    ensures SingleAttempt(s')
  {
    if LeavesAttempts(k) {
      SingleKept(s, k, s');
    } else {
      match k
      case Attempt(w) => SingleAttemptStep(s, w, PcOf(s, w).raw, PcOf(s, w).exec, s');
      case Complete(w, result, _) => SingleOutcome(s, w, PcOf(s, w).exec, result, s');
      case Fail(w) => SingleOutcome(s, w, PcOf(s, w).exec, 0, s');
      case Claim(w, pick) => SingleClaim(s, w, PcOf(s, w).raw, pick.value, s');
    }
  }

  /** All that holds in a state reached under Q and C. */
  ghost predicate InvQC(s: State) {
    Inv(s) && CleanRows(s) && InvQ(s) && SingleAttempt(s)
  }

  lemma {:induction false} InvQCAlways(cfg: Config, ss: seq<State>, ks: seq<Step>, i: nat)
    requires RunQC(cfg, ss, ks) && i < |ss|
    ensures InvQC(ss[i])
    decreases i
  {
    InvAlways(cfg, ss, ks, i);
    CleanAlways(cfg, ss, ks, i);
    InvQAlways(cfg, ss, ks, i);
    if i > 0 {
      InvQCAlways(cfg, ss, ks, i - 1);
      SingleStep(ss[i - 1], ks[i - 1], ss[i - 1 + 1]);
    }
  }

  /** Under Q and C the provider is called at most once for a task. */
  lemma AtMostOneCall(cfg: Config, ss: seq<State>, ks: seq<Step>, i: nat, t: TaskId)
    requires RunQC(cfg, ss, ks) && i < |ss|
    ensures CallCount(ss[i].h.calls, t) <= 1
  {
    var s := ss[i];
    InvQCAlways(cfg, ss, ks, i);
    var S := set x | x in s.db.attempts && x.task == t;
    if x :| x in S {
      assert S == {x};
    } else {
      assert S == {};
    }
    CallsWithin(s.h.calls, t, S);
  }

  /** The attempt row of x is committed and no worker executes x any more. */
  ghost predicate Unattended(s: State, x: Exec) {
    x in s.db.attempts && x.task in s.db.tasks && !Live(s, x)
  }

  ghost predicate SucceededIn(db: Db, t: TaskId) {
    t in db.tasks && db.tasks[t].status == Succeeded
  }

  /** Executions start only at a granted claim, with a fresh lease. */
  lemma ExecutionStarts(s: State, k: Step, s': State, w: WorkerId)
    requires Next(s, k, s') && w in s'.workers && s'.workers[w].Executing?
    ensures || (w in s.workers && s.workers[w].Executing? && s.workers[w].exec == s'.workers[w].exec)
            || (k.Claim? && s'.workers[w].exec.lease == ClaimLease(s))
  {
  }

  lemma UnattendedStays(s: State, k: Step, s': State, x: Exec)
    requires Inv(s) && Unattended(s, x) && Next(s, k, s')
    ensures !Live(s', x)
  {
    assert x.lease != ClaimLease(s) by { assert GrantedTo(s, x); }
    forall w | w in s'.workers && s'.workers[w].Executing? ensures s'.workers[w].exec != x {
      ExecutionStarts(s, k, s', w);
    }
  }

  /** Nobody else can be executing the task: it would need a second attempt row. */
  lemma UnattendedAlone(s: State, x: Exec, w: WorkerId)
    requires Inv(s) && SingleAttempt(s) && Unattended(s, x)
    requires w in s.workers && s.workers[w].Executing? && (s.workers[w].phase == Recorded || s.workers[w].phase == Called)
    ensures s.workers[w].exec.task != x.task
  {
    assert PhaseOk(s, s.workers[w].exec, s.workers[w].phase);
  }

  lemma OtherTask(s: State, k: Step, s': State, t: TaskId)
    requires Next(s, k, s') && (k.Complete? || k.Call?) && PcOf(s, k.w).exec.task != t
    ensures t in s.db.tasks ==> t in s'.db.tasks && s'.db.tasks[t] == s.db.tasks[t]
    ensures CallCount(s'.h.calls, t) == CallCount(s.h.calls, t)
  {
    if k.Call? { assert s'.h.calls[..|s'.h.calls| - 1] == s.h.calls; }
  }

  /** No transaction but record_completion makes a task succeed. */
  lemma OtherTxNeverSucceed(db: Db, now: int, cfg: Config, x: Exec, pick: Option<Exec>, seen: set<TaskId>, payload: Raw, t: TaskId)
    requires !SucceededIn(db, t)
    ensures !SucceededIn(ClaimTx(db, now, x.task, x.lease, pick), t) && !SucceededIn(RecordAttemptTx(db, now, x), t)
    ensures !SucceededIn(FailTx(db, now, x), t) && !SucceededIn(RecoverTx(db, now, cfg, x.task), t)
    ensures !SucceededIn(ReapTx(db, now, cfg, seen), t) && !SucceededIn(SubmitTx(db, now, x.task, payload), t)
  {
  }

  lemma OnlyCompletionSucceeds(s: State, k: Step, s': State, t: TaskId)
    requires Next(s, k, s') && !k.Complete? && !SucceededIn(s.db, t)
    ensures !SucceededIn(s'.db, t)
  {
    if LeavesLedger(k) {
      LedgerKept(s, k, s');
    } else {
      hide ClaimTx, RecordAttemptTx, FailTx, RecoverTx, ReapTx, SubmitTx, OutboxClaimTx, MarkTx, CleanupTx, LatestInflight, IsBatch, Lrem,
           NamedIn, Entries, RecoverVerdict, Known, Granted, SucceededIn;
      var m := Raw(0, NoTaskId, GigaChat);
      match k
      case Submit(text) =>
        var u := Minted(s.nextId);
        OtherTxNeverSucceed(s.db, s.now, s.cfg, Exec(u, 0), None, {}, Raw(text, Named(u), GigaChat), t);
      case Claim(w, pick) => OtherTxNeverSucceed(s.db, s.now, s.cfg, Exec(Target(s, PcOf(s, w).raw), ClaimLease(s)), pick, {}, m, t);
      case Attempt(w) => OtherTxNeverSucceed(s.db, s.now, s.cfg, PcOf(s, w).exec, None, {}, m, t);
      case Call(w) =>
      case Fail(w) => OtherTxNeverSucceed(s.db, s.now, s.cfg, PcOf(s, w).exec, None, {}, m, t);
      case Judge(w) =>
        if PcOf(s, w).todo[0].body.Named? { OtherTxNeverSucceed(s.db, s.now, s.cfg, Exec(PcOf(s, w).todo[0].body.task, 0), None, {}, m, t); }
      case Reap(w) => OtherTxNeverSucceed(s.db, s.now, s.cfg, Exec(t, 0), None, PcOf(s, w).seen, m, t);
    }
  }

  lemma AttemptsStay(s: State, k: Step, s': State)
    requires Next(s, k, s')
    ensures forall x :: x in s.db.attempts ==> x in s'.db.attempts
  {
  }

  lemma CallsStay(s: State, k: Step, s': State)
    requires Next(s, k, s') && !k.Call?
    ensures s'.h.calls == s.h.calls
  {
    hide Enabled, ClaimTx, RecordAttemptTx, CompleteTx, FailTx, RecoverTx, ReapTx, SubmitTx, OutboxClaimTx, MarkTx, CleanupTx, Lrem,
         NamedIn, Entries, RecoverVerdict, Target, Granted;
  }

  /** An unattended execution stays so, its task is not called for again, and whether the task
      has succeeded no longer changes. */
  lemma UnattendedStep(s: State, k: Step, s': State, x: Exec)
    requires InvQC(s) && Unattended(s, x) && Next(s, k, s')
    ensures Unattended(s', x) && CallCount(s'.h.calls, x.task) == CallCount(s.h.calls, x.task)
    ensures SucceededIn(s'.db, x.task) <==> SucceededIn(s.db, x.task)
  {
    UnattendedStays(s, k, s', x);
    AttemptsStay(s, k, s');
    RowsMoveStep(s, k, s');
    if k.Call? || k.Complete? {
      assert PcOf(s, k.w).Executing? && (PcOf(s, k.w).phase == Recorded || PcOf(s, k.w).phase == Called);
      hide Apply, Enabled, Inv, InvQ, CleanRows, SingleAttempt, Tidy;
      UnattendedAlone(s, x, k.w);
      OtherTask(s, k, s', x.task);
    } else {
      hide Apply, Enabled, InvQC;
      CallsStay(s, k, s');
      if !SucceededIn(s.db, x.task) { OnlyCompletionSucceeds(s, k, s', x.task); }
    }
  }

  lemma UnattendedNext(cfg: Config, ss: seq<State>, ks: seq<Step>, j: nat, x: Exec)
    requires RunQC(cfg, ss, ks) && j < |ks| && Unattended(ss[j], x)
    ensures Unattended(ss[j + 1], x)
    ensures CallCount(ss[j + 1].h.calls, x.task) == CallCount(ss[j].h.calls, x.task)
    ensures SucceededIn(ss[j + 1].db, x.task) <==> SucceededIn(ss[j].db, x.task)
  {
    hide Apply, Enabled;
    InvQCAlways(cfg, ss, ks, j);
    UnattendedStep(ss[j], ks[j], ss[j + 1], x);
  }

  lemma {:induction false} UnattendedForever(cfg: Config, ss: seq<State>, ks: seq<Step>, i: nat, j: nat, x: Exec)
    requires RunQC(cfg, ss, ks) && i <= j < |ss| && Unattended(ss[i], x)
    ensures Unattended(ss[j], x)
    ensures CallCount(ss[j].h.calls, x.task) == CallCount(ss[i].h.calls, x.task)
    ensures SucceededIn(ss[j].db, x.task) <==> SucceededIn(ss[i].db, x.task)
    decreases j
  {
    hide Apply, Enabled;
    if i < j {
      UnattendedForever(cfg, ss, ks, i, j - 1, x);
      UnattendedNext(cfg, ss, ks, j - 1, x);
    }
  }

  lemma StopLeaves(s: State, w: WorkerId, s': State)
    requires InvQC(s) && PcOf(s, w).Executing? && PcOf(s, w).exec in s.db.attempts && s' == StopStep(s, w, PcOf(s, w))
    ensures Unattended(s', PcOf(s, w).exec)
    ensures SucceededIn(s'.db, PcOf(s, w).exec.task) <==> PcOf(s, w).exec in s.db.costs
  {
    var x := PcOf(s, w).exec;
    assert OwnsRow(s, x, PcOf(s, w).phase);
    assert RowOk(s, x.task, s.db.tasks[x.task]);
  }

  /** Under Q and C, whenever a worker drops an execution behind its attempt row, in whatever
      phase: the provider is never called for the task again, and the task ever succeeds if and
      only if the receipt of the dropped execution had been committed. */
  lemma CrashNeverReplays(cfg: Config, ss: seq<State>, ks: seq<Step>, i: nat, j: nat, w: WorkerId)
    requires RunQC(cfg, ss, ks) && i < j < |ss| && ks[i] == Stop(w)
    requires PcOf(ss[i], w).Executing? && PcOf(ss[i], w).exec in ss[i].db.attempts
    ensures var x := PcOf(ss[i], w).exec;
            && x.task in ss[j].db.tasks
            && (ss[j].db.tasks[x.task].status == Succeeded <==> x in ss[i].db.costs)
            && CallCount(ss[j].h.calls, x.task) == CallCount(ss[i].h.calls, x.task)
  {
    InvQCAlways(cfg, ss, ks, i);
    assert Next(ss[i], ks[i], ss[i + 1]);
    StopLeaves(ss[i], w, ss[i + 1]);
    UnattendedForever(cfg, ss, ks, i + 1, j, PcOf(ss[i], w).exec);
  }

  // ------------------------------------------------------------------ discharging Q

  /** No execution has held its lease for longer than the lease lasts. */
  ghost predicate Timely(s: State) {
    forall w :: w in s.workers && s.workers[w].Executing? ==>
      var x := s.workers[w].exec;
      x.task in s.db.tasks && Holds(s.db.tasks[x.task], x.lease) && s.db.tasks[x.task].startedAt.Some? ==>
        s.now - s.db.tasks[x.task].startedAt.value <= s.cfg.leaseSeconds
  }

  /** Q is a matter of time only: it holds of every run whose executions finish within the lease. */
  lemma TimelyRunsSatisfyQ(cfg: Config, ss: seq<State>, ks: seq<Step>)
    requires RunFromInit(cfg, ss, ks) && forall i :: 0 <= i < |ss| ==> Timely(ss[i])
    ensures RunQ(cfg, ss, ks)
  {
    forall i | 0 <= i < |ks| ensures LeaseOutlivesWork(ss[i], ks[i]) {
      assert Timely(ss[i]);
    }
  }
}
