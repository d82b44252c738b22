/** Where the columns of a row come from: for each of them the step of the run that wrote it. */
module Provenance {
  import opened Wrappers
  import opened Protocol
  import opened Receipts
  import opened Lifecycle
  import AtMostOnce

  // ------------------------------------------------------------------ steps that write task rows

  /** Step k grants lease e on t. */
  ghost predicate Starts(s: State, k: Step, t: TaskId, e: Lease) {
    k.Claim? && k.pick.None? && PcOf(s, k.w).Moved? && Target(s, PcOf(s, k.w).raw) == t && e == ClaimLease(s)
  }

  /** Step k commits the completion of execution x with result r. */
  ghost predicate Finishes(s: State, k: Step, x: Exec, r: nat) {
    k.Complete? && PcOf(s, k.w).Executing? && PcOf(s, k.w).exec == x && k.result == r
  }

  /** Step k fails a row of t that carries this lease: its holder failed; or, while it was queued,
      the reaper gave it up or a claim found an uncertain attempt. */
  ghost predicate Fails(s: State, k: Step, t: TaskId, lease: Option<Lease>) {
    || (k.Fail? && PcOf(s, k.w).Executing? && lease == Some(PcOf(s, k.w).exec.lease) && PcOf(s, k.w).exec.task == t)
    || (lease.None? && k.Reap? && PcOf(s, k.w).ReapReady? && t !in PcOf(s, k.w).seen)
    || (lease.None? && k.Claim? && k.pick.Some? && k.pick.value.task == t)
  }

  /** Step k gives the row of t back: its lease is older than it may be. */
  ghost predicate GivesBack(s: State, k: Step, t: TaskId, startedAt: Option<int>) {
    && k.Judge? && PcOf(s, k.w).Recovering? && PcOf(s, k.w).todo != [] && PcOf(s, k.w).todo[0].body == Named(t)
    && startedAt.Some? && startedAt.value + s.cfg.leaseSeconds < s.now
  }

  /** What a row looks like right after it came to be. */
  ghost predicate NewBorn(row: TaskRow, now: int) {
    row.createdAt == now && row.result.None?
  }

  /** Everything a step may have done to a row that existed before. */
  ghost predicate Written(s: State, k: Step, t: TaskId, a: TaskRow, b: TaskRow) {
    && b.createdAt == a.createdAt
    && (b.status != a.status ==>
          match b.status
          case Running => b.lease.Some? && Starts(s, k, t, b.lease.value) && b.startedAt == Some(s.now)
          case Succeeded => b.lease.Some? && b.result.Some? && Finishes(s, k, Exec(t, b.lease.value), b.result.value) && b.completedAt == Some(s.now)
          case Failed => Fails(s, k, t, b.lease) && b.completedAt == Some(s.now)
          case Queued => GivesBack(s, k, t, a.startedAt))
    && (b.status == a.status ==> b == a)
  }

  ghost predicate Ancestry(s: State, k: Step, t: TaskId, s': State)
    requires t in s'.db.tasks
  {
    var row := s'.db.tasks[t];
    if t in s.db.tasks then Written(s, k, t, s.db.tasks[t], row)
    else
      && NewBorn(row, s.now)
      && match row.status
         case Running => row.lease.Some? && Starts(s, k, t, row.lease.value) && row.startedAt == Some(s.now)
         case Failed => row.lease.None? && row.startedAt.None? && Fails(s, k, t, None) && row.completedAt == Some(s.now)
         case Succeeded => false
         case Queued => row.lease.None? && row.startedAt.None?
  }

  lemma ClaimWrites(s: State, w: WorkerId, pick: Option<Exec>, s': State, t: TaskId)
    requires CleanRows(s) && Next(s, Claim(w, pick), s') && t in s'.db.tasks
    ensures Ancestry(s, Claim(w, pick), t, s')
  {
  }

  lemma OutcomeWrites(s: State, k: Step, s': State, t: TaskId)
    requires CleanRows(s) && Next(s, k, s') && (k.Complete? || k.Fail?) && t in s'.db.tasks
    ensures Ancestry(s, k, t, s')
  {
    hide Conclude;
  }

  lemma RepairWrites(s: State, k: Step, s': State, t: TaskId)
    requires CleanRows(s) && Next(s, k, s') && (k.Judge? || k.Reap? || k.Submit?) && t in s'.db.tasks
    ensures Ancestry(s, k, t, s')
  {
    hide Lrem, RecoverVerdict;
  }

  /** Every change of every task row, by whichever step of whichever process. */
  lemma RowsAreWritten(s: State, k: Step, s': State, t: TaskId)
    requires CleanRows(s) && Next(s, k, s') && t in s'.db.tasks
    ensures Ancestry(s, k, t, s')
  {
    if LeavesLedger(k) {
      LedgerKept(s, k, s');
      hide Next;
    } else if k.Claim? {
      ClaimWrites(s, k.w, k.pick, s', t);
    } else if k.Complete? || k.Fail? {
      OutcomeWrites(s, k, s', t);
    } else if k.Judge? || k.Reap? || k.Submit? {
      RepairWrites(s, k, s', t);
    } else {
      hide Enabled, RecordAttemptTx;
    }
  }

  // ------------------------------------------------------------------ the story of a task row

  ghost predicate Births(s: State, s': State, t: TaskId) {
    t !in s.db.tasks && t in s'.db.tasks
  }

  ghost predicate Born(ss: seq<State>, i: nat, t: TaskId, createdAt: int)
    requires i < |ss|
  {
    exists b :: 0 <= b < i && Births(ss[b], ss[b + 1], t) && createdAt == ss[b].now
  }

  ghost predicate Started(ss: seq<State>, ks: seq<Step>, i: nat, t: TaskId, e: Lease, at: int)
    requires i <= |ks| < |ss|
  {
    exists j :: 0 <= j < i && Starts(ss[j], ks[j], t, e) && at == ss[j].now
  }

  ghost predicate Finished(ss: seq<State>, ks: seq<Step>, i: nat, x: Exec, r: nat, at: int)
    requires i <= |ks| < |ss|
  {
    exists j :: 0 <= j < i && Finishes(ss[j], ks[j], x, r) && at == ss[j].now
  }

  ghost predicate Ended(ss: seq<State>, ks: seq<Step>, i: nat, t: TaskId, lease: Option<Lease>, at: int)
    requires i <= |ks| < |ss|
  {
    exists j :: 0 <= j < i && Fails(ss[j], ks[j], t, lease) && at == ss[j].now
  }

  /** Every column of the row, in terms of the run that led to it. */
  ghost predicate Story(ss: seq<State>, ks: seq<Step>, i: nat, t: TaskId)
    requires i <= |ks| < |ss| && t in ss[i].db.tasks
  {
    var row := ss[i].db.tasks[t];
    && Born(ss, i, t, row.createdAt)
    && (row.lease.Some? <==> row.startedAt.Some?)
    && (row.lease.Some? ==> Started(ss, ks, i, t, row.lease.value, row.startedAt.value))
    && (row.status == Succeeded <==> row.result.Some?)
    && (row.status == Succeeded ==>
          && row.lease.Some? && row.completedAt.Some?
          && Finished(ss, ks, i, Exec(t, row.lease.value), row.result.value, row.completedAt.value))
    && (row.status == Failed ==> row.completedAt.Some? && Ended(ss, ks, i, t, row.lease, row.completedAt.value))
  }

  lemma LongerStory(ss: seq<State>, ks: seq<Step>, i: nat, t: TaskId)
    requires i < |ks| < |ss| && t in ss[i].db.tasks && t in ss[i + 1].db.tasks && ss[i + 1].db.tasks[t] == ss[i].db.tasks[t]
    requires Story(ss, ks, i, t)
    ensures Story(ss, ks, i + 1, t)
  {
  }

  /** One step writes the next line of the story. */
  lemma NextLine(ss: seq<State>, ks: seq<Step>, i: nat, t: TaskId)
    requires i < |ks| < |ss| && t in ss[i].db.tasks && t in ss[i + 1].db.tasks && Story(ss, ks, i, t)
    requires LegalMove(ss[i].db.tasks[t], ss[i + 1].db.tasks[t]) && CleanRow(ss[i].db.tasks[t])
    requires Written(ss[i], ks[i], t, ss[i].db.tasks[t], ss[i + 1].db.tasks[t])
    ensures Story(ss, ks, i + 1, t)
  {
    hide Starts, Finishes, Fails, GivesBack;
    if ss[i + 1].db.tasks[t] == ss[i].db.tasks[t] { LongerStory(ss, ks, i, t); }
  }

  lemma FirstLine(ss: seq<State>, ks: seq<Step>, i: nat, t: TaskId)
    requires i < |ks| < |ss| && t !in ss[i].db.tasks && t in ss[i + 1].db.tasks && Ancestry(ss[i], ks[i], t, ss[i + 1])
    ensures Story(ss, ks, i + 1, t)
  {
    assert Births(ss[i], ss[i + 1], t);
    hide Starts, Finishes, Fails;
  }

  /** The columns of a task row tell its history, in every reachable state: when it was created,
      which claim started it and when, which completion of which execution gave the result it
      holds and when, or which step failed it and when. */
  lemma {:induction false} RowsTellTheirStory(cfg: Config, ss: seq<State>, ks: seq<Step>, i: nat, t: TaskId)
    requires RunFromInit(cfg, ss, ks) && i < |ss| && t in ss[i].db.tasks
    ensures Story(ss, ks, i, t)
    decreases i
  {
    hide Apply, Enabled, Story, Ancestry;
    if i > 0 {
      var s, k, s' := ss[i - 1], ks[i - 1], ss[i - 1 + 1];
      assert Next(s, k, s');
      CleanAlways(cfg, ss, ks, i - 1);
      RowsAreWritten(s, k, s', t);
      if t in s.db.tasks {
        RowsTellTheirStory(cfg, ss, ks, i - 1, t);
        RowsMoveStep(s, k, s');
        assert Written(s, k, t, s.db.tasks[t], s'.db.tasks[t]) by { WrittenFrom(s, k, t, s'); }
        NextLine(ss, ks, i - 1, t);
      } else {
        FirstLine(ss, ks, i - 1, t);
      }
    }
  }

  lemma WrittenFrom(s: State, k: Step, t: TaskId, s': State)
    requires t in s.db.tasks && t in s'.db.tasks && Ancestry(s, k, t, s')
    ensures Written(s, k, t, s.db.tasks[t], s'.db.tasks[t])
  {
  }

  // ------------------------------------------------------------------ the result of a task

  lemma FinishedStays(cfg: Config, ss: seq<State>, ks: seq<Step>, j: nat, x: Exec, r: nat)
    requires RunFromInit(cfg, ss, ks) && j < |ks| && Finishes(ss[j], ks[j], x, r)
    ensures x in ss[j + 1].db.costs && x !in ss[j].db.costs
  {
    InvAlways(cfg, ss, ks, j);
    assert Next(ss[j], ks[j], ss[j + 1]);
    assert PhaseOk(ss[j], x, PcOf(ss[j], ks[j].w).phase);
  }

  lemma ReceiptsStay(s: State, k: Step, s': State)
    requires Next(s, k, s')
    ensures s.db.costs <= s'.db.costs
  {
    if LeavesLedger(k) { LedgerKept(s, k, s'); }
    hide Lrem, RecoverVerdict, Enabled, InsertTask, Conclude;
  }

  lemma {:induction false} ReceiptsStayForever(ss: seq<State>, ks: seq<Step>, i: nat, j: nat)
    requires Run(ss, ks) && i <= j < |ss|
    ensures ss[i].db.costs <= ss[j].db.costs
    decreases j
  {
    hide Apply, Enabled;
    if i < j {
      ReceiptsStayForever(ss, ks, i, j - 1);
      assert Next(ss[j - 1], ks[j - 1], ss[j - 1 + 1]);
      ReceiptsStay(ss[j - 1], ks[j - 1], ss[j - 1 + 1]);
    }
  }

  /** An execution is completed at most once. */
  lemma CompletedOnce(cfg: Config, ss: seq<State>, ks: seq<Step>, i: nat, j: nat, x: Exec, r: nat, q: nat)
    requires RunFromInit(cfg, ss, ks) && i < j < |ks|
    requires Finishes(ss[i], ks[i], x, r)
    ensures !Finishes(ss[j], ks[j], x, q)
  {
    hide Apply, Enabled, Next, Finishes;
    if Finishes(ss[j], ks[j], x, q) {
      FinishedStays(cfg, ss, ks, i, x, r);
      FinishedStays(cfg, ss, ks, j, x, q);
      ReceiptsStayForever(ss, ks, i + 1, j);
      assert false;
    }
  }

  /** The result a succeeded row holds is the one its own execution committed: there is exactly one
      completion under its execution identifier, and it carried this very result. */
  lemma ResultIsTheExecutions(cfg: Config, ss: seq<State>, ks: seq<Step>, i: nat, t: TaskId)
    requires RunFromInit(cfg, ss, ks) && i < |ss| && t in ss[i].db.tasks && ss[i].db.tasks[t].status == Succeeded
    ensures var row := ss[i].db.tasks[t];
            && row.lease.Some? && row.result.Some? && row.completedAt.Some?
            && var x := Exec(t, row.lease.value);
               && Finished(ss, ks, i, x, row.result.value, row.completedAt.value)
               && forall j, r :: 0 <= j < |ks| && Finishes(ss[j], ks[j], x, r) ==> r == row.result.value
  {
    RowsTellTheirStory(cfg, ss, ks, i, t);
    var row := ss[i].db.tasks[t];
    var x := Exec(t, row.lease.value);
    assert |ss| == |ks| + 1;
    hide Story, RunFromInit;
    forall j, r | 0 <= j < |ks| && Finishes(ss[j], ks[j], x, r) ensures r == row.result.value {
      OneResult(cfg, ss, ks, i, x, row.result.value, row.completedAt.value, j, r);
    }
  }

  lemma OneResult(cfg: Config, ss: seq<State>, ks: seq<Step>, i: nat, x: Exec, result: nat, at: int, j: nat, r: nat)
    requires RunFromInit(cfg, ss, ks) && |ss| == |ks| + 1 && i < |ss| && Finished(ss, ks, i, x, result, at)
    requires j < |ks| && Finishes(ss[j], ks[j], x, r)
    ensures r == result
  {
    hide Finishes, RunFromInit;
    var n :| 0 <= n < i && Finishes(ss[n], ks[n], x, result) && at == ss[n].now;
    if n < j { CompletedOnce(cfg, ss, ks, n, j, x, result, r); }
    else if j < n { CompletedOnce(cfg, ss, ks, j, n, x, r, result); }
    else { SameStep(ss[j], ks[j], x, result, r); }
  }

  lemma SameStep(s: State, k: Step, x: Exec, a: nat, b: nat)
    requires Finishes(s, k, x, a) && Finishes(s, k, x, b)
    ensures a == b
  {
  }

  // ------------------------------------------------------------------ the story of an attempt row

  ghost predicate Records(s: State, k: Step, x: Exec) {
    k.Attempt? && PcOf(s, k.w).Executing? && PcOf(s, k.w).exec == x
  }

  /** Step k tells what became of the attempt of x. */
  ghost predicate Settles(s: State, k: Step, x: Exec, status: AttemptStatus) {
    match status
    case Inflight => false
    case Completed => k.Complete? && PcOf(s, k.w).Executing? && PcOf(s, k.w).exec == x
    case AttemptFailed => k.Fail? && PcOf(s, k.w).Executing? && PcOf(s, k.w).exec == x
    case OutcomeUnknown => k.Claim? && k.pick == Some(x)
  }

  ghost predicate AttemptStory(ss: seq<State>, ks: seq<Step>, i: nat, x: Exec)
    requires i <= |ks| < |ss| && x in ss[i].db.attempts
  {
    var a := ss[i].db.attempts[x];
    && (exists j :: 0 <= j < i && Records(ss[j], ks[j], x) && a.startedAt == ss[j].now)
    && (a.status != Inflight ==> exists j :: 0 <= j < i && Settles(ss[j], ks[j], x, a.status))
    && (a.status == Inflight ==> forall j, status :: 0 <= j < i && x in ss[j].db.attempts ==> !Settles(ss[j], ks[j], x, status))
  }

  /** What a step may do to the attempt row of x: record it; tell its outcome, once; nothing else. */
  ghost predicate AttemptWritten(s: State, k: Step, s': State, x: Exec)
    requires x in s'.db.attempts
  {
    if x !in s.db.attempts then Records(s, k, x) && s'.db.attempts[x] == AttemptRow(Inflight, s.now)
    else
      var a, b := s.db.attempts[x], s'.db.attempts[x];
      && b.startedAt == a.startedAt
      && (a.status != Inflight ==> b == a)
      && (a.status == Inflight && b.status != Inflight ==> Settles(s, k, x, b.status))
      && (forall status :: Settles(s, k, x, status) ==> b.status != Inflight)
  }

  lemma NothingSettles(s: State, k: Step, s': State, x: Exec)
    requires Next(s, k, s') && AtMostOnce.LeavesAttempts(k) && x in s'.db.attempts
    ensures AttemptWritten(s, k, s', x)
  {
    AtMostOnce.AttemptsKept(s, k, s');
    hide Next;
  }

  lemma ClaimSettles(s: State, w: WorkerId, y: Exec, s': State, x: Exec)
    requires Next(s, Claim(w, Some(y)), s') && x in s'.db.attempts
    ensures AttemptWritten(s, Claim(w, Some(y)), s', x)
  {
    assert s'.db.attempts == Conclude(s.db.attempts, y, OutcomeUnknown);
    hide Apply, ClaimTx, InsertTask;
  }

  lemma OutcomeSettles(s: State, k: Step, s': State, x: Exec)
    requires Next(s, k, s') && (k.Complete? || k.Fail? || k.Attempt?) && x in s'.db.attempts
    ensures AttemptWritten(s, k, s', x)
  {
  }

  lemma AttemptsAreWritten(s: State, k: Step, s': State, x: Exec)
    requires Next(s, k, s') && x in s'.db.attempts
    ensures AttemptWritten(s, k, s', x)
  {
    hide Next;
    if AtMostOnce.LeavesAttempts(k) { NothingSettles(s, k, s', x); }
    else if k.Claim? { ClaimSettles(s, k.w, k.pick.value, s', x); }
    else { OutcomeSettles(s, k, s', x); }
  }

  /** The columns of an attempt row tell its history: when it was recorded, which step told its
      outcome, and that none did while it is in flight. */
  lemma {:induction false} AttemptsTellTheirStory(cfg: Config, ss: seq<State>, ks: seq<Step>, i: nat, x: Exec)
    requires RunFromInit(cfg, ss, ks) && i < |ss| && x in ss[i].db.attempts
    ensures AttemptStory(ss, ks, i, x)
    decreases i
  {
    hide Apply, Enabled, Records, Settles;
    if i > 0 {
      var s, k, s' := ss[i - 1], ks[i - 1], ss[i - 1 + 1];
      assert Next(s, k, s');
      AttemptsAreWritten(s, k, s', x);
      if x in s.db.attempts {
        AttemptsTellTheirStory(cfg, ss, ks, i - 1, x);
      } else {
        NeverBefore(ss, ks, i - 1, x);
      }
    }
  }

  lemma {:induction false} NeverBefore(ss: seq<State>, ks: seq<Step>, i: nat, x: Exec)
    requires Run(ss, ks) && i < |ss| && x !in ss[i].db.attempts
    ensures forall j :: 0 <= j <= i ==> x !in ss[j].db.attempts
    decreases i
  {
    hide Apply, Enabled;
    if i > 0 {
      assert Next(ss[i - 1], ks[i - 1], ss[i - 1 + 1]);
      AttemptsRemain(ss[i - 1], ks[i - 1], ss[i - 1 + 1], x);
      NeverBefore(ss, ks, i - 1, x);
    }
  }

  lemma AttemptsRemain(s: State, k: Step, s': State, x: Exec)
    requires Next(s, k, s')
    ensures x in s.db.attempts ==> x in s'.db.attempts
  {
    if LeavesLedger(k) { LedgerKept(s, k, s'); }
    hide Lrem, RecoverVerdict, Enabled, InsertTask;
  }

  // ------------------------------------------------------------------ the story of an outbox row

  ghost predicate Accepts(s: State, k: Step, t: TaskId, payload: Raw) {
    k.Submit? && t == Minted(s.nextId) && payload == Raw(k.text, Named(t), GigaChat)
  }

  ghost predicate Takes(s: State, k: Step, t: TaskId, c: ClaimId) {
    k.OutboxClaim? && t in k.batch && c == s.nextId
  }

  ghost predicate Delivers(s: State, k: Step, t: TaskId) {
    k.Mark? && PcOf(s, k.w).Pushed? && PcOf(s, k.w).task == t
  }

  ghost predicate OutboxStory(ss: seq<State>, ks: seq<Step>, i: nat, t: TaskId)
    requires i <= |ks| < |ss| && t in ss[i].db.outbox
  {
    var row := ss[i].db.outbox[t];
    && (exists j :: 0 <= j < i && Accepts(ss[j], ks[j], t, row.payload) && row.createdAt == ss[j].now)
    && (row.claim.Some? <==> row.claimedAt.Some?)
    && (row.claim.Some? ==> exists j :: 0 <= j < i && Takes(ss[j], ks[j], t, row.claim.value) && row.claimedAt.value == ss[j].now)
    && (row.deliveredAt.Some? ==> row.claim.None? && exists j :: 0 <= j < i && Delivers(ss[j], ks[j], t) && row.deliveredAt.value == ss[j].now)
  }

  /** What a step does to an outbox row that existed before. */
  ghost predicate Posted(s: State, k: Step, t: TaskId, a: OutboxRow, b: OutboxRow) {
    if k.OutboxClaim? && t in k.batch
    then a.deliveredAt.None? && b == a.(claim := Some(s.nextId), claimedAt := Some(s.now), deliveryAttempts := a.deliveryAttempts + 1)
    else if Delivers(s, k, t) && a.deliveredAt.None? && a.claim == Some(PcOf(s, k.w).claim)
    then b == a.(deliveredAt := Some(s.now), claim := None, claimedAt := None)
    else b == a
  }

  predicate WritesOutbox(k: Step) {
    k.Submit? || k.OutboxClaim? || k.Mark? || k.Cleanup?
  }

  lemma OutboxUntouched(s: State, k: Step, s': State)
    requires Next(s, k, s') && !WritesOutbox(k)
    ensures s'.db.outbox == s.db.outbox
  {
    hide Enabled, Lrem, NamedIn, RecoverVerdict, InsertTask, Conclude, Target, Granted;
  }

  ghost predicate OutboxWritten(s: State, k: Step, s': State, t: TaskId)
    requires t in s'.db.outbox
  {
    if t in s.db.outbox then Posted(s, k, t, s.db.outbox[t], s'.db.outbox[t])
    else exists payload :: Accepts(s, k, t, payload) && s'.db.outbox[t] == OutboxRow(payload, s.now, None, None, None, 0)
  }

  lemma SubmitPosts(s: State, text: nat, s': State, t: TaskId)
    requires Next(s, Submit(text), s') && t in s'.db.outbox
    ensures OutboxWritten(s, Submit(text), s', t)
  {
    assert s' == SubmitStep(s, text);
    assert t !in s.db.outbox ==> Accepts(s, Submit(text), t, Raw(text, Named(t), GigaChat));
    hide Next;
  }

  lemma DispatchPosts(s: State, k: Step, s': State, t: TaskId)
    requires Next(s, k, s') && (k.OutboxClaim? || k.Mark? || k.Cleanup?) && t in s'.db.outbox
    ensures OutboxWritten(s, k, s', t)
  {
    if k.OutboxClaim? { assert t in k.batch ==> Eligible(s.db, s.now, s.cfg, t); }
    hide IsBatch, Expired;
  }

  lemma OutboxIsWritten(s: State, k: Step, s': State, t: TaskId)
    requires Next(s, k, s') && t in s'.db.outbox
    ensures OutboxWritten(s, k, s', t)
  {
    hide Next;
    if k.Submit? { SubmitPosts(s, k.text, s', t); }
    else if WritesOutbox(k) { DispatchPosts(s, k, s', t); }
    else { OutboxUntouched(s, k, s'); }
  }

  /** A row leaves the outbox exactly in a cleanup that finds its task terminal and its delivery
      longer ago than the retention. */
  lemma OutboxRowLeavesExactly(s: State, k: Step, s': State, t: TaskId)
    requires Next(s, k, s') && t in s.db.outbox
    ensures t !in s'.db.outbox <==>
              && k.Cleanup? && t in s.db.tasks && (s.db.tasks[t].status == Succeeded || s.db.tasks[t].status == Failed)
              && s.db.outbox[t].deliveredAt.Some? && s.db.outbox[t].deliveredAt.value + s.cfg.retentionSeconds < s.now
  {
    if !WritesOutbox(k) {
      OutboxUntouched(s, k, s');
      hide Next;
    }
    hide Enabled;
  }

  /** The columns of an outbox row tell its history: which request it holds and since when, which
      claim took it last and when, and when it was acknowledged. */
  lemma {:induction false} OutboxTellsItsStory(cfg: Config, ss: seq<State>, ks: seq<Step>, i: nat, t: TaskId)
    requires RunFromInit(cfg, ss, ks) && i < |ss| && t in ss[i].db.outbox
    ensures OutboxStory(ss, ks, i, t)
    decreases i
  {
    hide Apply, Enabled, Accepts;
    if i > 0 {
      var s, k, s' := ss[i - 1], ks[i - 1], ss[i - 1 + 1];
      assert Next(s, k, s');
      OutboxIsWritten(s, k, s', t);
      if t in s.db.outbox {
        OutboxTellsItsStory(cfg, ss, ks, i - 1, t);
      }
    }
  }
}
