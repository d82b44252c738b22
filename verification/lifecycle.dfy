/** The life of a task row and of the leases on it, in every interleaving. */
module Lifecycle {
  import opened Wrappers
  import opened Protocol
  import opened Receipts

  /** The only ways a step may rewrite a task row. */
  ghost predicate LegalMove(a: TaskRow, b: TaskRow) {
    || b == a
    || (a.status == Queued && b.status == Running && b.lease.Some? && b.startedAt.Some?
        && b == a.(status := Running, startedAt := b.startedAt, completedAt := None, lease := b.lease))
    || (a.status == Running && b == a.(status := Queued, startedAt := None, lease := None))
    || (a.status == Running && b.status == Succeeded && b.completedAt.Some? && b.result.Some?
        && b == a.(status := Succeeded, completedAt := b.completedAt, result := b.result))
    || ((a.status == Queued || a.status == Running) && b.status == Failed && b.completedAt.Some?
        && b == a.(status := Failed, completedAt := b.completedAt))
  }

  /** A queued row carries no lease and no start time; both are cleared when it is requeued. */
  ghost predicate CleanRow(row: TaskRow) {
    row.status == Queued ==> row.lease.None? && row.startedAt.None?
  }

  ghost predicate CleanRows(s: State) {
    forall t :: t in s.db.tasks ==> CleanRow(s.db.tasks[t])
  }

  lemma CleanStep(s: State, k: Step, s': State)
    requires CleanRows(s) && Next(s, k, s')
    ensures CleanRows(s')
  {
    if LeavesLedger(k) {
      LedgerKept(s, k, s');
    }
  }

  ghost predicate TxMoves(a: Db, b: Db) {
    forall t :: t in a.tasks ==> t in b.tasks && LegalMove(a.tasks[t], b.tasks[t])
  }

  lemma ClaimMoves(db: Db, now: int, t: TaskId, e: Lease, pick: Option<Exec>)
    ensures TxMoves(db, ClaimTx(db, now, t, e, pick))
  {
  }

  lemma OutcomeMoves(db: Db, now: int, x: Exec, result: nat)
    ensures TxMoves(db, CompleteTx(db, now, x, result))
    ensures TxMoves(db, FailTx(db, now, x))
  {
  }

  lemma RepairMoves(db: Db, now: int, cfg: Config, t: TaskId, seen: set<TaskId>)
    requires forall u :: u in db.tasks ==> CleanRow(db.tasks[u])
    ensures TxMoves(db, RecoverTx(db, now, cfg, t))
    ensures TxMoves(db, ReapTx(db, now, cfg, seen))
  {
  }

  lemma RowsMoveStep(s: State, k: Step, s': State)
    requires CleanRows(s) && Next(s, k, s')
    ensures TxMoves(s.db, s'.db)
  {
    if LeavesLedger(k) {
      LedgerKept(s, k, s');
    } else {
      match k
      case Submit(_) =>
      case Claim(w, pick) => ClaimMoves(s.db, s.now, Target(s, PcOf(s, w).raw), ClaimLease(s), pick);
      case Attempt(_) =>
      case Call(_) =>
      case Complete(w, result, _) => OutcomeMoves(s.db, s.now, PcOf(s, w).exec, result);
      case Fail(w) => OutcomeMoves(s.db, s.now, PcOf(s, w).exec, 0);
      case Judge(w) =>
        if PcOf(s, w).todo[0].body.Named? { RepairMoves(s.db, s.now, s.cfg, PcOf(s, w).todo[0].body.task, {}); }
      case Reap(w) => RepairMoves(s.db, s.now, s.cfg, Foreign(0), PcOf(s, w).seen);
    }
  }

  lemma {:induction false} CleanAlways(cfg: Config, ss: seq<State>, ks: seq<Step>, i: nat)
    requires RunFromInit(cfg, ss, ks) && i < |ss|
    ensures CleanRows(ss[i])
    decreases i
  {
    if i > 0 {
      CleanAlways(cfg, ss, ks, i - 1);
      CleanStep(ss[i - 1], ks[i - 1], ss[i]);
    }
  }

  /** Every step of every run moves every task row along queued -> running -> queued |
      succeeded | failed, or queued -> failed, changing only the columns named in LegalMove. */
  lemma RowsFollowLifecycle(cfg: Config, ss: seq<State>, ks: seq<Step>, i: nat, t: TaskId)
    requires RunFromInit(cfg, ss, ks) && i < |ks| && t in ss[i].db.tasks
    ensures t in ss[i + 1].db.tasks && LegalMove(ss[i].db.tasks[t], ss[i + 1].db.tasks[t])
    ensures ss[i].db.tasks[t].status == Queued ==> ss[i].db.tasks[t].lease.None? && ss[i].db.tasks[t].startedAt.None?
  {
    CleanAlways(cfg, ss, ks, i);
    RowsMoveStep(ss[i], ks[i], ss[i + 1]);
  }

  /** A terminal row, its result included, never changes again. */
  lemma {:induction false} TerminalForever(cfg: Config, ss: seq<State>, ks: seq<Step>, i: nat, j: nat, t: TaskId)
    requires RunFromInit(cfg, ss, ks) && i <= j < |ss|
    requires t in ss[i].db.tasks && Terminal(ss[i].db.tasks[t])
    ensures t in ss[j].db.tasks && ss[j].db.tasks[t] == ss[i].db.tasks[t]
    decreases j
  {
    hide Apply, Enabled;
    if i < j {
      TerminalForever(cfg, ss, ks, i, j - 1, t);
      RowsFollowLifecycle(cfg, ss, ks, j - 1, t);
    }
  }

  // ------------------------------------------------------------------ leases

  /** A row becomes running only through one granted claim: the row was queued (or new), no
      attempt of the task was in flight, and the lease was never handed out before. */
  lemma GrantIsExclusive(s: State, k: Step, s': State, t: TaskId)
    requires Inv(s) && Next(s, k, s')
    requires t in s'.db.tasks && s'.db.tasks[t].status == Running
    requires t in s.db.tasks ==> s.db.tasks[t].status != Running
    ensures k.Claim? && k.pick.None? && (t in s.db.tasks ==> s.db.tasks[t].status == Queued)
    ensures forall x :: x in s.db.attempts ==> !IsInflight(s.db.attempts, t, x)
    ensures var e := s'.db.tasks[t].lease;
            && e.Some? && e.value !in s.h.granted && s'.h.granted == s.h.granted[e.value := t]
            && PcOf(s', k.w) == Executing(PcOf(s, k.w).raw, Exec(t, e.value), Claimed)
  {
    hide Rows, Attempts, Holders, IsBatch, Lrem, NamedIn, Entries, RecoverVerdict, OutboxClaimTx, MarkTx, CleanupTx;
    if LeavesLedger(k) {
      LedgerKept(s, k, s');
    } else if !k.Claim? {
      OnlyClaimsStart(s, k, s', t);
    }
  }

  /** No other transaction makes a row running. */
  lemma OnlyClaimsStart(s: State, k: Step, s': State, t: TaskId)
    requires Next(s, k, s') && !LeavesLedger(k) && !k.Claim?
    requires t in s'.db.tasks && s'.db.tasks[t].status == Running
    ensures t in s.db.tasks && s.db.tasks[t].status == Running
  {
    hide Lrem, RecoverVerdict;
  }

  /** Lease e was handed out for t and the row no longer carries it. */
  ghost predicate Spent(s: State, x: Exec) {
    GrantedTo(s, x) && (x.task in s.db.tasks ==> s.db.tasks[x.task].lease != Some(x.lease))
  }

  lemma GrantsStay(s: State, k: Step, s': State, e: Lease)
    requires Inv(s) && Next(s, k, s') && e in s.h.granted
    ensures e in s'.h.granted && s'.h.granted[e] == s.h.granted[e]
  {
    hide Rows, Attempts, Holders, IsBatch, Lrem, NamedIn, Entries, LatestInflight, OutboxClaimTx, MarkTx, CleanupTx, ClaimTx, RecordAttemptTx,
         CompleteTx, FailTx, RecoverTx, ReapTx, SubmitTx, RecoverVerdict;
    if LeavesLedger(k) { LedgerKept(s, k, s'); }
  }

  lemma SpentStep(s: State, k: Step, s': State, x: Exec)
    requires Inv(s) && CleanRows(s) && Next(s, k, s') && Spent(s, x)
    ensures Spent(s', x)
  {
    hide Apply;
    if LeavesLedger(k) {
      LedgerKept(s, k, s');
    } else {
      GrantsStay(s, k, s', x.lease);
      RowsMoveStep(s, k, s');
      if s.db.tasks[x.task].status != Running && s'.db.tasks[x.task].status == Running {
        GrantIsExclusive(s, k, s', x.task);
      }
    }
  }

  /** A lease the row has lost is never reissued. */
  lemma {:induction false} LeaseNeverReturns(cfg: Config, ss: seq<State>, ks: seq<Step>, i: nat, j: nat, x: Exec)
    requires RunFromInit(cfg, ss, ks) && i <= j < |ss| && Spent(ss[i], x)
    ensures Spent(ss[j], x)
    decreases j
  {
    hide Apply, Enabled;
    if i < j {
      LeaseNeverReturns(cfg, ss, ks, i, j - 1, x);
      assert Inv(ss[j - 1]) by { InvAlways(cfg, ss, ks, j - 1); }
      assert CleanRows(ss[j - 1]) by { CleanAlways(cfg, ss, ks, j - 1); }
      assert Next(ss[j - 1], ks[j - 1], ss[j - 1 + 1]);
      SpentStep(ss[j - 1], ks[j - 1], ss[j], x);
    }
  }

  /** The steps `handle_delivery` takes while it holds a lease. */
  predicate ActsOn(k: Step, w: WorkerId) {
    k == Attempt(w) || k == Call(w) || (k.Complete? && k.w == w) || k == Raise(w) || k == Fail(w) || k == Stop(w)
  }

  /** From the moment its lease is replaced, nothing a worker still does for that execution
      alters any task row. */
  lemma ReplacedWorkerNeverWrites(cfg: Config, ss: seq<State>, ks: seq<Step>, i: nat, j: nat, w: WorkerId)
    requires RunFromInit(cfg, ss, ks) && i <= j < |ks|
    requires ActsOn(ks[j], w) && PcOf(ss[j], w).Executing? && Spent(ss[i], PcOf(ss[j], w).exec)
    ensures ss[j + 1].db.tasks == ss[j].db.tasks
  {
    LeaseNeverReturns(cfg, ss, ks, i, j, PcOf(ss[j], w).exec);
    assert Next(ss[j], ks[j], ss[j + 1]);
  }
}
