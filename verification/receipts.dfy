/** What every interleaving keeps: no assumption on timing, crashes or duplicates. */
module Receipts {
  import opened Wrappers
  import opened Protocol

  ghost predicate Distinct<T>(xs: seq<T>) {
    forall i, j :: 0 <= i < j < |xs| ==> xs[i] != xs[j]
  }

  ghost predicate GrantedTo(s: State, x: Exec) {
    x.lease in s.h.granted && s.h.granted[x.lease] == x.task
  }

  ghost predicate RowOk(s: State, t: TaskId, row: TaskRow) {
    && (row.lease.Some? ==> GrantedTo(s, Exec(t, row.lease.value)))
    && (row.status == Queued ==> row.lease.None?)
    && (row.status == Running ==> row.lease.Some?)
    && (row.status == Succeeded ==> row.lease.Some? && Exec(t, row.lease.value) in s.db.costs)
  }

  ghost predicate Rows(s: State) {
    forall t :: t in s.db.tasks ==> RowOk(s, t, s.db.tasks[t])
  }

  ghost predicate Grants(s: State) {
    forall e :: e in s.h.granted ==> e < s.nextId && s.h.granted[e] in s.db.tasks
  }

  ghost predicate AttemptOk(s: State, x: Exec, a: AttemptRow) {
    && GrantedTo(s, x)
    && (a.status == Completed ==> x in s.db.costs)
    && (x in s.db.costs ==> a.status == Completed || a.status == OutcomeUnknown)
  }

  ghost predicate Attempts(s: State) {
    && (forall x :: x in s.db.attempts ==> AttemptOk(s, x, s.db.attempts[x]))
    && (forall x :: x in s.db.costs ==> x in s.db.attempts)
    && (forall x :: x in s.h.calls ==> x in s.db.attempts)
  }

  ghost predicate PhaseOk(s: State, x: Exec, phase: Phase) {
    match phase
    case Claimed => x !in s.db.attempts
    case Recorded => Open(s, x) && x !in s.h.calls
    case Called => Open(s, x)
    case Failing => true
  }

  /** Its attempt row is committed and no outcome of its own is. */
  ghost predicate Open(s: State, x: Exec) {
    && x in s.db.attempts && x !in s.db.costs
    && (s.db.attempts[x].status == Inflight || s.db.attempts[x].status == OutcomeUnknown)
  }

  ghost predicate Holders(s: State) {
    && (forall w :: w in s.workers && s.workers[w].Executing? ==>
          GrantedTo(s, s.workers[w].exec) && PhaseOk(s, s.workers[w].exec, s.workers[w].phase))
    && (forall v, w :: v in s.workers && w in s.workers && v != w && s.workers[v].Executing? && s.workers[w].Executing? ==>
          s.workers[v].exec.lease != s.workers[w].exec.lease)
  }

  ghost predicate Inv(s: State) {
    Rows(s) && Grants(s) && Attempts(s) && Holders(s) && Distinct(s.db.costs) && Distinct(s.h.calls)
  }

  lemma InvInit(cfg: Config)
    ensures Inv(Init(cfg))
  {
  }

  // ------------------------------------------------------------------ steps

  /** Steps that leave rows, attempts and receipts alone; an execution may only end or fail. */
  ghost predicate SameLedger(s: State, s': State) {
    && s'.db.tasks == s.db.tasks && s'.db.attempts == s.db.attempts && s'.db.costs == s.db.costs
    && s'.h.calls == s.h.calls && s'.h.granted == s.h.granted && s.nextId <= s'.nextId
    && forall w :: w in s'.workers && s'.workers[w].Executing? ==>
         && w in s.workers && s.workers[w].Executing? && s'.workers[w].exec == s.workers[w].exec
         && (s'.workers[w].phase == s.workers[w].phase || s'.workers[w].phase == Failing)
  }

  predicate LeavesLedger(k: Step) {
    !k.Submit? && !k.Claim? && !k.Attempt? && !k.Call? && !k.Complete? && !k.Fail? && !k.Judge? && !k.Reap?
  }

  lemma TablesKept(s: State, k: Step, s': State)
    requires Next(s, k, s') && LeavesLedger(k)
    ensures s'.db.tasks == s.db.tasks && s'.db.attempts == s.db.attempts && s'.db.costs == s.db.costs
    ensures s'.h.calls == s.h.calls && s'.h.granted == s.h.granted && s.nextId <= s'.nextId
  {
    hide Enabled, ClaimTx, CompleteTx, FailTx, RecordAttemptTx, RecoverTx, RecoverVerdict, ReapTx, SubmitTx, Lrem, NamedIn, Entries, Target, Granted;
  }

  lemma WorkersKept(s: State, k: Step, s': State)
    requires Next(s, k, s') && LeavesLedger(k)
    ensures forall w :: w in s'.workers && s'.workers[w].Executing? ==>
              && w in s.workers && s.workers[w].Executing? && s'.workers[w].exec == s.workers[w].exec
              && (s'.workers[w].phase == s.workers[w].phase || s'.workers[w].phase == Failing)
  {
    hide ClaimTx, CompleteTx, FailTx, RecordAttemptTx, RecoverTx, RecoverVerdict, ReapTx, SubmitTx, OutboxClaimTx, MarkTx, CleanupTx,
         Lrem, NamedIn, Entries, Target, Granted, LatestInflight, IsBatch;
  }

  lemma LedgerKept(s: State, k: Step, s': State)
    requires Next(s, k, s') && LeavesLedger(k)
    ensures SameLedger(s, s')
  {
    TablesKept(s, k, s');
    WorkersKept(s, k, s');
    hide Apply, Enabled, LeavesLedger;
  }

  lemma InvSame(s: State, s': State)
    requires Inv(s) && SameLedger(s, s')
    ensures Inv(s')
  {
  }

  lemma InvSubmit(s: State, text: nat, s': State)
    requires Inv(s) && Next(s, Submit(text), s')
    ensures Inv(s')
  {
  }

  lemma GrantKeepsRows(s: State, w: WorkerId, raw: Raw, pick: Option<Exec>, s': State)
    requires Rows(s) && Grants(s) && s' == ClaimStep(s, w, raw, pick) && Granted(s.db, Target(s, raw), pick)
    ensures Rows(s') && Grants(s')
  {
    assert ClaimLease(s) !in s.h.granted;
  }

  lemma GrantKeepsAttempts(s: State, w: WorkerId, raw: Raw, pick: Option<Exec>, s': State)
    requires Grants(s) && Attempts(s) && s' == ClaimStep(s, w, raw, pick) && Granted(s.db, Target(s, raw), pick)
    ensures Attempts(s') && s'.db.costs == s.db.costs && s'.h.calls == s.h.calls
  {
    assert ClaimLease(s) !in s.h.granted;
  }

  lemma GrantKeepsHolders(s: State, w: WorkerId, raw: Raw, pick: Option<Exec>, s': State)
    requires Grants(s) && Attempts(s) && Holders(s) && s' == ClaimStep(s, w, raw, pick) && Granted(s.db, Target(s, raw), pick)
    ensures Holders(s')
  {
    assert ClaimLease(s) !in s.h.granted;
    assert s'.db.attempts == s.db.attempts && s'.db.costs == s.db.costs;
    hide ClaimTx;
  }

  lemma InvClaimGranted(s: State, w: WorkerId, raw: Raw, pick: Option<Exec>, s': State)
    requires Inv(s) && s' == ClaimStep(s, w, raw, pick) && Granted(s.db, Target(s, raw), pick)
    ensures Inv(s')
  {
    hide Rows, Grants, Attempts, Holders, ClaimStep;
    GrantKeepsRows(s, w, raw, pick, s');
    GrantKeepsAttempts(s, w, raw, pick, s');
    GrantKeepsHolders(s, w, raw, pick, s');
  }

  /** An uncertain attempt blocks the claim: it is written off, and a queued row fails. */
  ghost predicate Blocks(s: State, w: WorkerId, raw: Raw, x: Exec, s': State) {
    s' == ClaimStep(s, w, raw, Some(x)) && IsInflight(s.db.attempts, Target(s, raw), x)
  }

  lemma BlockedRows(s: State, w: WorkerId, raw: Raw, x: Exec, s': State)
    requires Rows(s) && Grants(s) && Blocks(s, w, raw, x, s')
    ensures Rows(s') && Grants(s')
  {
  }

  lemma BlockedAttempts(s: State, w: WorkerId, raw: Raw, x: Exec, s': State)
    requires Attempts(s) && Blocks(s, w, raw, x, s')
    ensures Attempts(s')
  {
  }

  lemma BlockedHolders(s: State, w: WorkerId, raw: Raw, x: Exec, s': State)
    requires Attempts(s) && Holders(s) && Blocks(s, w, raw, x, s')
    ensures Holders(s')
  {
  }

  lemma InvClaimBlocked(s: State, w: WorkerId, raw: Raw, x: Exec, s': State)
    requires Inv(s) && Blocks(s, w, raw, x, s')
    ensures Inv(s')
  {
    hide Rows, Grants, Attempts, Holders;
    BlockedRows(s, w, raw, x, s');
    BlockedAttempts(s, w, raw, x, s');
    BlockedHolders(s, w, raw, x, s');
  }

  lemma InvClaimDuplicate(s: State, w: WorkerId, raw: Raw, s': State)
    requires Inv(s) && s' == ClaimStep(s, w, raw, None) && !Granted(s.db, Target(s, raw), None)
    ensures Inv(s')
  {
    assert s'.db == s.db && s'.h == s.h;
  }

  ghost predicate SameGrants(s: State, s': State) {
    s'.h.granted == s.h.granted && s'.db.costs == s.db.costs && s.nextId <= s'.nextId
  }

  lemma RowsSame(s: State, s': State)
    requires Rows(s) && Grants(s) && s'.db.tasks == s.db.tasks && SameGrants(s, s')
    ensures Rows(s') && Grants(s')
  {
  }

  lemma AttemptsSame(s: State, s': State)
    requires Attempts(s) && s'.db.attempts == s.db.attempts && s'.h.calls == s.h.calls && SameGrants(s, s')
    ensures Attempts(s')
  {
  }

  /** A worker stops executing, or was not executing anyway. */
  lemma HoldersLess(s: State, s': State, w: WorkerId, pc: Pc)
    requires Holders(s) && s'.workers == s.workers[w := pc] && !pc.Executing?
    requires s'.db.attempts == s.db.attempts && s'.h.calls == s.h.calls && SameGrants(s, s')
    ensures Holders(s')
  {
  }

  lemma InvAttempt(s: State, w: WorkerId, raw: Raw, x: Exec, s': State)
    requires Inv(s) && PcOf(s, w) == Executing(raw, x, Claimed)
    requires s' == At(s.(db := RecordAttemptTx(s.db, s.now, x)), w, Executing(raw, x, Recorded))
    ensures Inv(s')
  {
    hide Rows, Grants, Distinct;
    assert GrantedTo(s, x) && x !in s.db.attempts && x !in s.db.costs && x !in s.h.calls;
    RowsSame(s, s');
    assert Attempts(s') by { hide Holders; }
  }

  lemma InvCall(s: State, w: WorkerId, s': State)
    requires Inv(s) && Next(s, Call(w), s')
    ensures Inv(s')
  {
  }

  ghost predicate Completes(s: State, w: WorkerId, result: nat, s': State) {
    && Inv(s) && PcOf(s, w).Executing? && Open(s, PcOf(s, w).exec)
    && s'.db == CompleteTx(s.db, s.now, PcOf(s, w).exec, result)
    && s'.h == s.h && s'.nextId == s.nextId
  }

  lemma CompleteRows(s: State, w: WorkerId, result: nat, s': State)
    requires Completes(s, w, result, s')
    ensures Rows(s') && Grants(s') && Distinct(s'.db.costs)
  {
  }

  lemma CompleteAttempts(s: State, w: WorkerId, result: nat, s': State)
    requires Completes(s, w, result, s')
    ensures Attempts(s')
  {
  }

  lemma CompleteHolders(s: State, w: WorkerId, result: nat, s': State, pc: Pc)
    requires Completes(s, w, result, s') && s'.workers == s.workers[w := pc]
    requires pc.Acking? || pc == PcOf(s, w).(phase := Failing)
    ensures Holders(s')
  {
  }

  lemma InvComplete(s: State, w: WorkerId, result: nat, heard: bool, s': State)
    requires Inv(s) && Next(s, Complete(w, result, heard), s')
    ensures Inv(s')
  {
    assert Open(s, PcOf(s, w).exec);
    CompleteRows(s, w, result, s');
    CompleteAttempts(s, w, result, s');
    CompleteHolders(s, w, result, s', s'.workers[w]);
  }

  lemma InvFail(s: State, w: WorkerId, raw: Raw, x: Exec, s': State)
    requires Inv(s) && PcOf(s, w) == Executing(raw, x, Failing)
    requires s' == At(s.(db := FailTx(s.db, s.now, x)), w, Acking(raw))
    ensures Inv(s')
  {
    assert Rows(s') && Grants(s') by { hide Attempts, Holders; }
    assert Attempts(s') by { hide Rows, Grants, Holders; }
    assert Holders(s') by { hide Rows, Grants; }
    hide Rows, Grants, Attempts, Holders;
  }

  lemma InvRecover(s: State, w: WorkerId, pc: Pc, t: TaskId, s': State)
    requires Inv(s) && !PcOf(s, w).Executing? && !pc.Executing?
    requires s' == At(s.(db := RecoverTx(s.db, s.now, s.cfg, t)), w, pc)
    ensures Inv(s')
  {
    hide Attempts, Holders, Distinct;
    AttemptsSame(s, s');
    HoldersLess(s, s', w, pc);
  }

  lemma InvJudge(s: State, w: WorkerId, raw: Raw, rest: seq<Raw>, s': State)
    requires Inv(s) && !PcOf(s, w).Executing? && s' == JudgeStep(s, w, raw, rest)
    ensures Inv(s')
  {
    if raw.body.Named? {
      InvRecover(s, w, s'.workers[w], raw.body.task, s');
    } else {
      assert SameLedger(s, s');
      InvSame(s, s');
    }
  }

  lemma InvReap(s: State, w: WorkerId, seen: set<TaskId>, s': State)
    requires Inv(s) && !PcOf(s, w).Executing? && s' == At(s.(db := ReapTx(s.db, s.now, s.cfg, seen)), w, Idle)
    ensures Inv(s')
  {
    hide Attempts, Holders, Distinct;
    AttemptsSame(s, s');
    HoldersLess(s, s', w, Idle);
  }

  lemma InvStep(s: State, k: Step, s': State)
    requires Inv(s) && Next(s, k, s')
    ensures Inv(s')
  {
    hide Inv, ClaimTx, RecordAttemptTx, CompleteTx, FailTx, RecoverTx, ReapTx, SubmitTx, OutboxClaimTx, MarkTx, CleanupTx, Lrem, NamedIn,
         Entries, IsBatch, Known, RecoverVerdict;
    if LeavesLedger(k) {
      LedgerKept(s, k, s');
      InvSame(s, s');
    } else {
      match k
      case Submit(text) => InvSubmit(s, text, s');
      case Claim(w, pick) =>
        var raw := PcOf(s, w).raw;
        if Granted(s.db, Target(s, raw), pick) { InvClaimGranted(s, w, raw, pick, s'); }
        else if pick.None? { InvClaimDuplicate(s, w, raw, s'); }
        else { InvClaimBlocked(s, w, raw, pick.value, s'); }
      case Attempt(w) => InvAttempt(s, w, PcOf(s, w).raw, PcOf(s, w).exec, s');
      case Call(w) => InvCall(s, w, s');
      case Complete(w, result, heard) => InvComplete(s, w, result, heard, s');
      case Fail(w) => InvFail(s, w, PcOf(s, w).raw, PcOf(s, w).exec, s');
      case Judge(w) => InvJudge(s, w, PcOf(s, w).todo[0], PcOf(s, w).todo[1..], s');
      case Reap(w) => InvReap(s, w, PcOf(s, w).seen, s');
    }
  }

  // ------------------------------------------------------------------ whole runs

  lemma {:induction false} InvAlways(cfg: Config, ss: seq<State>, ks: seq<Step>, i: nat)
    requires RunFromInit(cfg, ss, ks) && i < |ss|
    ensures Inv(ss[i])
    decreases i
  {
    if i == 0 {
      InvInit(cfg);
    } else {
      InvAlways(cfg, ss, ks, i - 1);
      InvStep(ss[i - 1], ks[i - 1], ss[i]);
    }
  }

  /** Receipt accounting in every reachable state, whatever the interleaving. */
  lemma ReceiptAccounting(cfg: Config, ss: seq<State>, ks: seq<Step>, i: nat)
    requires RunFromInit(cfg, ss, ks) && i < |ss|
    ensures Distinct(ss[i].db.costs)
    ensures forall x :: x in ss[i].db.costs ==>
              x in ss[i].db.attempts && (ss[i].db.attempts[x].status == Completed || ss[i].db.attempts[x].status == OutcomeUnknown)
    ensures forall x :: x in ss[i].db.attempts && ss[i].db.attempts[x].status == Completed ==> x in ss[i].db.costs
    ensures forall x :: x in ss[i].db.attempts && ss[i].db.attempts[x].status == AttemptFailed ==> x !in ss[i].db.costs
    ensures forall t :: t in ss[i].db.tasks && ss[i].db.tasks[t].status == Succeeded ==>
              ss[i].db.tasks[t].lease.Some? && Exec(t, ss[i].db.tasks[t].lease.value) in ss[i].db.costs
    ensures Distinct(ss[i].h.calls)
    ensures forall x :: x in ss[i].h.calls ==> x in ss[i].db.attempts
  {
    InvAlways(cfg, ss, ks, i);
    var s := ss[i];
    assert forall x :: x in s.db.attempts ==> AttemptOk(s, x, s.db.attempts[x]);
    assert forall t :: t in s.db.tasks ==> RowOk(s, t, s.db.tasks[t]);
  }

  /** A provider call starts only when its attempt row is already committed, still without an
      outcome, and never called before; it is logged under the caller's own lease. */
  lemma CallFollowsAttempt(cfg: Config, ss: seq<State>, ks: seq<Step>, i: nat, w: WorkerId)
    requires RunFromInit(cfg, ss, ks) && i < |ks| && ks[i] == Call(w)
    ensures PcOf(ss[i], w).Executing?
    ensures var x := PcOf(ss[i], w).exec;
            && Open(ss[i], x) && x !in ss[i].h.calls && GrantedTo(ss[i], x)
            && ss[i + 1].h.calls == ss[i].h.calls + [x]
  {
    InvAlways(cfg, ss, ks, i);
    assert Next(ss[i], ks[i], ss[i + 1]);
  }
}
