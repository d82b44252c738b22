/** Which settings discharge hypothesis Q: an execution is over before its lease is stale exactly
    when the lease covers the longest provider call plus the time spent elsewhere. */
module LeaseSettings {
  import opened Wrappers
  import opened Protocol
  import opened Receipts
  import opened Lifecycle
  import opened AtMostOnce
  import opened Necessity
  import Client = GigaChatClient

  /** How long one authorized provider call took. */
  function Duration(server: Client.Server, retries: int, configured: set<Client.Lane>, tokens: map<Client.Lane, Client.Token>,
                    lane: Client.Lane, now: real, n: nat): real {
    var used := Client.AuthorizedCall(server, retries, configured, tokens, lane, now, n);
    used.took + used.slept
  }

  /** No provider that respects the timeouts can keep an execution beyond its lease. */
  ghost predicate LeaseSuffices(leaseSeconds: int, slack: real, retries: int) {
    forall server, configured, tokens, lane, now, n :: Client.Punctual(server) ==>
      slack + Duration(server, retries, configured, tokens, lane, now, n) <= leaseSeconds as real
  }

  /** The exact condition on the settings, for every number of retries. */
  lemma LeaseCondition(leaseSeconds: int, slack: real, retries: int)
    ensures LeaseSuffices(leaseSeconds, slack, retries) <==> slack + Client.CallBudget(retries) <= leaseSeconds as real
  {
    hide Client.Punctual, Client.AuthorizedCall;
    forall server, configured, tokens, lane, now, n | Client.Punctual(server)
      ensures Duration(server, retries, configured, tokens, lane, now, n) <= Client.CallBudget(retries)
    {
      Client.CallIsBounded(server, retries, configured, tokens, lane, now, n);
    }
    if retries >= 1 {
      Client.BoundIsAttained(retries);
      assert Duration(Client.Hostile(retries), retries, {Client.Primary}, map[], Client.Primary, 0.0, 0) == Client.CallBudget(retries);
    } else {
      NoRetriesNoRequest(retries);
    }
  }

  lemma NoRetriesNoRequest(retries: int)
    requires retries <= 0
    ensures Client.Punctual(Client.Hostile(1))
    ensures Duration(Client.Hostile(1), retries, {}, map[], Client.Primary, 0.0, 0) == 0.0 == Client.CallBudget(retries)
  {
  }

  lemma {:induction false} SettingsNeverChange(cfg: Config, ss: seq<State>, ks: seq<Step>, i: nat)
    requires RunFromInit(cfg, ss, ks) && i < |ss|
    ensures ss[i].cfg == cfg
    decreases i
  {
    if i > 0 {
      SettingsNeverChange(cfg, ss, ks, i - 1);
      assert Next(ss[i - 1], ks[i - 1], ss[i - 1 + 1]);
    }
  }

  // ------------------------------------------------------------------ time spent in a run

  /** Whether worker w is executing x, in phase Called (`calling`) or in another phase. */
  predicate Busy(s: State, w: WorkerId, x: Exec, calling: bool) {
    PcOf(s, w).Executing? && PcOf(s, w).exec == x && (PcOf(s, w).phase == Called <==> calling)
  }

  /** Seconds that passed during the first i steps while w was executing x. */
  function TimeIn(ss: seq<State>, ks: seq<Step>, i: nat, w: WorkerId, x: Exec, calling: bool): nat
    requires i <= |ks| && |ss| == |ks| + 1
  {
    if i == 0 then 0
    else TimeIn(ss, ks, i - 1, w, x, calling)
         + if ks[i - 1].Tick? && Busy(ss[i - 1], w, x, calling) then ks[i - 1].seconds else 0
  }

  /** Every execution waits for one provider call and for the commit of its outcome, which takes
      at most `settle` seconds; its other phases take at most `slack` seconds together. */
  ghost predicate OneCallEach(ss: seq<State>, ks: seq<Step>, slack: real, settle: real, retries: int) {
    |ss| == |ks| + 1 && forall w, x ::
      && TimeIn(ss, ks, |ks|, w, x, false) as real <= slack
      && exists server, configured, tokens, lane, now, n :: Client.Punctual(server) &&
           TimeIn(ss, ks, |ks|, w, x, true) as real <= settle + Duration(server, retries, configured, tokens, lane, now, n)
  }

  lemma {:induction false} TimeGrows(ss: seq<State>, ks: seq<Step>, i: nat, j: nat, w: WorkerId, x: Exec, calling: bool)
    requires i <= j <= |ks| && |ss| == |ks| + 1
    ensures TimeIn(ss, ks, i, w, x, calling) <= TimeIn(ss, ks, j, w, x, calling)
    decreases j
  {
    if i < j { TimeGrows(ss, ks, i, j - 1, w, x, calling); }
  }

  /** Nobody has spent time on a lease that was not handed out yet. */
  lemma {:induction false} FreshLease(cfg: Config, ss: seq<State>, ks: seq<Step>, i: nat, w: WorkerId, x: Exec, calling: bool)
    requires RunFromInit(cfg, ss, ks) && i < |ss| && x.lease !in ss[i].h.granted
    ensures TimeIn(ss, ks, i, w, x, calling) == 0
    decreases i
  {
    hide Apply, Enabled;
    if i > 0 {
      var s, s' := ss[i - 1], ss[i - 1 + 1];
      InvAlways(cfg, ss, ks, i - 1);
      assert Next(s, ks[i - 1], s');
      if x.lease in s.h.granted { GrantsStay(s, ks[i - 1], s', x.lease); }
      FreshLease(cfg, ss, ks, i - 1, w, x, calling);
      assert PcOf(s, w).Executing? ==> GrantedTo(s, PcOf(s, w).exec);
    }
  }

  /** While a worker still owns the row of its execution, the row's age is the time it spent. */
  ghost predicate Clocked(ss: seq<State>, ks: seq<Step>, i: nat, w: WorkerId)
    requires i <= |ks| && |ss| == |ks| + 1
  {
    PcOf(ss[i], w).Executing? ==>
      var s, x := ss[i], PcOf(ss[i], w).exec;
      x.task in s.db.tasks && Holds(s.db.tasks[x.task], x.lease) ==>
        && s.db.tasks[x.task].startedAt.Some?
        && s.now - s.db.tasks[x.task].startedAt.value == TimeIn(ss, ks, i, w, x, true) + TimeIn(ss, ks, i, w, x, false)
  }

  /** A worker that goes on executing still finds the row as it was, if it owns it at all. */
  lemma SameRow(s: State, k: Step, s': State, x: Exec)
    requires Inv(s) && CleanRows(s) && Next(s, k, s') && GrantedTo(s, x)
    requires x.task in s'.db.tasks && Holds(s'.db.tasks[x.task], x.lease)
    ensures x.task in s.db.tasks && s.db.tasks[x.task] == s'.db.tasks[x.task]
  {
    hide Apply, Enabled;
    RowsMoveStep(s, k, s');
    if s.db.tasks[x.task].status != Running { GrantIsExclusive(s, k, s', x.task); }
  }

  lemma TimePasses(s: State, k: Step, s': State)
    requires Next(s, k, s')
    ensures s'.now == s.now + if k.Tick? then k.seconds else 0
    ensures k.Tick? ==> s'.workers == s.workers
  {
    hide Enabled, ClaimTx, RecordAttemptTx, CompleteTx, FailTx, RecoverTx, ReapTx, SubmitTx, OutboxClaimTx, MarkTx, CleanupTx, Lrem,
         NamedIn, Entries, RecoverVerdict, Target, Granted;
  }

  /** A granted claim starts the clock of its execution. */
  lemma ClockStarts(s: State, k: Step, s': State, w: WorkerId)
    requires Inv(s) && Next(s, k, s') && k.Claim? && PcOf(s', w).Executing? && PcOf(s', w).exec.lease == ClaimLease(s)
    ensures var x := PcOf(s', w).exec;
            x.lease !in s.h.granted && x.task in s'.db.tasks && s'.db.tasks[x.task].startedAt == Some(s'.now)
  {
    assert PcOf(s, w).Executing? ==> GrantedTo(s, PcOf(s, w).exec);
  }

  lemma ClockedNext(cfg: Config, ss: seq<State>, ks: seq<Step>, i: nat, w: WorkerId)
    requires RunFromInit(cfg, ss, ks) && i < |ks| && Clocked(ss, ks, i, w)
    ensures Clocked(ss, ks, i + 1, w)
  {
    hide Apply, Enabled;
    var s, k, s' := ss[i], ks[i], ss[i + 1];
    InvAlways(cfg, ss, ks, i);
    CleanAlways(cfg, ss, ks, i);
    assert Next(s, k, s');
    TimePasses(s, k, s');
    if PcOf(s', w).Executing? {
      var x := PcOf(s', w).exec;
      ExecutionStarts(s, k, s', w);
      if PcOf(s, w).Executing? && PcOf(s, w).exec == x {
        assert GrantedTo(s, PcOf(s, w).exec);
        if x.task in s'.db.tasks && Holds(s'.db.tasks[x.task], x.lease) { SameRow(s, k, s', x); }
      } else {
        ClockStarts(s, k, s', w);
        FreshLease(cfg, ss, ks, i, w, x, true);
        FreshLease(cfg, ss, ks, i, w, x, false);
      }
    }
  }

  lemma {:induction false} ClockedAlways(cfg: Config, ss: seq<State>, ks: seq<Step>, i: nat, w: WorkerId)
    requires RunFromInit(cfg, ss, ks) && i < |ss|
    ensures Clocked(ss, ks, i, w)
    decreases i
  {
    hide Apply, Enabled;
    if i > 0 {
      ClockedAlways(cfg, ss, ks, i - 1, w);
      ClockedNext(cfg, ss, ks, i - 1, w);
    }
  }

  lemma WithinLease(cfg: Config, ss: seq<State>, ks: seq<Step>, slack: real, settle: real, retries: int, i: nat, w: WorkerId, x: Exec)
    requires |ss| == |ks| + 1 && i <= |ks|
    requires LeaseSuffices(cfg.leaseSeconds, slack + settle, retries) && OneCallEach(ss, ks, slack, settle, retries)
    ensures TimeIn(ss, ks, i, w, x, true) + TimeIn(ss, ks, i, w, x, false) <= cfg.leaseSeconds
  {
    hide TimeIn, Duration;
    TimeGrows(ss, ks, i, |ks|, w, x, true);
    TimeGrows(ss, ks, i, |ks|, w, x, false);
    assert TimeIn(ss, ks, |ks|, w, x, false) as real <= slack;
    var server, configured, tokens, lane, now, n :| Client.Punctual(server) &&
      TimeIn(ss, ks, |ks|, w, x, true) as real <= settle + Duration(server, retries, configured, tokens, lane, now, n);
    assert slack + settle + Duration(server, retries, configured, tokens, lane, now, n) <= cfg.leaseSeconds as real;
  }

  /** Settings that meet the condition discharge Q: in a run whose executions each make one call to
      a provider that respects its timeouts, and spend at most slack + settle elsewhere, the age of
      a running row is the time its execution spent, so no lease is stale while it is worked for. */
  lemma LeaseDischargesQ(cfg: Config, ss: seq<State>, ks: seq<Step>, slack: real, settle: real, retries: int)
    requires RunFromInit(cfg, ss, ks) && LeaseSuffices(cfg.leaseSeconds, slack + settle, retries)
    requires OneCallEach(ss, ks, slack, settle, retries)
    ensures RunQ(cfg, ss, ks)
  {
    hide Apply, Enabled, TimeIn, OneCallEach, LeaseSuffices;
    forall i | 0 <= i < |ss| ensures Timely(ss[i]) {
      SettingsNeverChange(cfg, ss, ks, i);
      forall w | w in ss[i].workers && ss[i].workers[w].Executing? ensures Clocked(ss, ks, i, w)
        ensures TimeIn(ss, ks, i, w, ss[i].workers[w].exec, true) + TimeIn(ss, ks, i, w, ss[i].workers[w].exec, false) <= cfg.leaseSeconds
      {
        ClockedAlways(cfg, ss, ks, i, w);
        WithinLease(cfg, ss, ks, slack, settle, retries, i, w, ss[i].workers[w].exec);
      }
    }
    TimelyRunsSatisfyQ(cfg, ss, ks);
  }

  // ------------------------------------------------------------------ the condition is exact

  const SLOW: Exec := Exec(FOREIGN_TASK, 1)

  /** Worker 1 claims a task and commits its attempt; no time has passed. */
  lemma SlowStart(cfg: Config) returns (ss: seq<State>, ks: seq<Step>)
    ensures |ks| == 4 && |ss| == 5 && ss[0] == Init(cfg) && forall i :: 0 <= i < 4 ==> Next(ss[i], ks[i], ss[i + 1]) && !ks[i].Tick?
    ensures Attempted(cfg, ss[4])
  {
    var s0 := Init(cfg);
    var s1 := Arrived(s0, DELIVERY);
    var s2 := MoveStep(s1, 1);
    assert s2.queue == [] && s2.processing == [DELIVERY] && PcOf(s2, 1) == Moved(DELIVERY);
    var s3, s4 := ClaimAndAttempt(cfg, s2);
    ss, ks := [s0, s1, s2, s3, s4], [Arrive(DELIVERY), Move(1), Claim(1, None), Attempt(1)];
    assert Next(s0, ks[0], s1) && Next(s1, ks[1], s2);
    hide Apply, Enabled;
  }

  ghost predicate Attempted(cfg: Config, s: State) {
    && s.cfg == cfg && s.now == 0 && s.processing == [DELIVERY] && PcOf(s, 1) == Executing(DELIVERY, SLOW, Recorded)
    && (forall w :: w != 1 ==> PcOf(s, w).Idle?)
    && FOREIGN_TASK in s.db.tasks && Holds(s.db.tasks[FOREIGN_TASK], 1) && s.db.tasks[FOREIGN_TASK].startedAt == Some(0)
  }

  lemma ClaimFirst(cfg: Config, s2: State) returns (s3: State)
    requires s2 == MoveStep(Arrived(Init(cfg), DELIVERY), 1)
    ensures Next(s2, Claim(1, None), s3)
    ensures s3.workers == map[1 := Executing(DELIVERY, SLOW, Claimed)] && s3.cfg == cfg && s3.now == 0 && s3.processing == [DELIVERY]
    ensures FOREIGN_TASK in s3.db.tasks && Holds(s3.db.tasks[FOREIGN_TASK], 1) && s3.db.tasks[FOREIGN_TASK].startedAt == Some(0)
  {
    assert s2.processing == [DELIVERY] && s2.workers == map[1 := Moved(DELIVERY)];
    assert Target(s2, DELIVERY) == FOREIGN_TASK && LatestInflight(s2.db.attempts, FOREIGN_TASK, None);
    s3 := ClaimStep(s2, 1, DELIVERY, None);
  }

  lemma ClaimAndAttempt(cfg: Config, s2: State) returns (s3: State, s4: State)
    requires s2 == MoveStep(Arrived(Init(cfg), DELIVERY), 1)
    ensures Next(s2, Claim(1, None), s3) && Next(s3, Attempt(1), s4) && Attempted(cfg, s4)
  {
    s3 := ClaimFirst(cfg, s2);
    s4 := At(s3.(db := RecordAttemptTx(s3.db, s3.now, SLOW)), 1, Executing(DELIVERY, SLOW, Recorded));
    hide ClaimStep, MoveStep;
  }

  /** It waits, calls and waits for the answer; another worker starts a recovery pass. */
  lemma SlowSteps(cfg: Config, s4: State, before: nat, during: nat) returns (s5: State, s6: State, s7: State, s8: State)
    requires Attempted(cfg, s4)
    ensures Next(s4, Tick(before), s5) && Next(s5, Call(1), s6) && Next(s6, Tick(during), s7) && Next(s7, Scan(3), s8)
    ensures s6.workers == s4.workers[1 := Executing(DELIVERY, SLOW, Called)]
    ensures s8.workers == s6.workers[3 := Recovering([DELIVERY])]
    ensures s8.db == s4.db && s8.cfg == cfg && s8.now == before + during
  {
    s5 := s4.(now := before);
    s6 := At(s5.(h := s5.h.(calls := s5.h.calls + [SLOW])), 1, Executing(DELIVERY, SLOW, Called));
    s7 := s6.(now := before + during);
    assert PcOf(s7, 3) == PcOf(s4, 3);
    s8 := At(s7, 3, Recovering([DELIVERY]));
  }

  /** The pass finds the lease stale although worker 1 is still executing. */
  lemma FoundStale(s: State)
    requires 1 in s.workers && s.workers[1] == Executing(DELIVERY, SLOW, Called) && PcOf(s, 3) == Recovering([DELIVERY])
    requires FOREIGN_TASK in s.db.tasks && Holds(s.db.tasks[FOREIGN_TASK], 1)
    requires s.db.tasks[FOREIGN_TASK].startedAt == Some(0) && s.now > s.cfg.leaseSeconds
    ensures Enabled(s, Judge(3)) && !LeaseOutlivesWork(s, Judge(3))
  {
    assert Live(s, SLOW);
  }

  lemma NobodyElse(s: State, s': State)
    requires PcOf(s, 1) == Executing(DELIVERY, SLOW, Recorded) && forall w :: w != 1 ==> PcOf(s, w).Idle?
    requires s'.workers == s.workers[1 := Executing(DELIVERY, SLOW, Called)]
    ensures forall w, x :: !Busy(s, w, x, true) && !Busy(s', w, x, false)
  {
    forall w, x ensures !Busy(s, w, x, true) && !Busy(s', w, x, false) {
      assert w != 1 ==> PcOf(s', w) == PcOf(s, w) && PcOf(s, w).Idle?;
    }
  }

  lemma SlowEnd(cfg: Config, s4: State, before: nat, during: nat) returns (ss: seq<State>, ks: seq<Step>)
    requires Attempted(cfg, s4) && before + during > cfg.leaseSeconds
    ensures |ks| == 5 && |ss| == 6 && ss[0] == s4 && forall i :: 0 <= i < 5 ==> Next(ss[i], ks[i], ss[i + 1])
    ensures ks == [Tick(before), Call(1), Tick(during), Scan(3), Judge(3)]
    ensures forall w, x :: !Busy(ss[0], w, x, true) && !Busy(ss[2], w, x, false)
    ensures !LeaseOutlivesWork(ss[4], ks[4])
  {
    hide Apply, Enabled, LeaseOutlivesWork, Busy;
    var s5, s6, s7, s8 := SlowSteps(cfg, s4, before, during);
    FoundStale(s8);
    NobodyElse(s4, s6);
    ks := [Tick(before), Call(1), Tick(during), Scan(3), Judge(3)];
    ss := [s4, s5, s6, s7, s8, Apply(s8, Judge(3))];
    assert Next(s8, Judge(3), Apply(s8, Judge(3)));
  }

  /** Only the two waits take time. */
  lemma TwoWaits(ss: seq<State>, ks: seq<Step>, w: WorkerId, x: Exec, calling: bool)
    requires |ks| == 9 && |ss| == 10 && forall i :: 0 <= i < 9 && ks[i].Tick? ==> i == 4 || i == 6
    requires ks[4].Tick? && ks[6].Tick? && !Busy(ss[if calling then 4 else 6], w, x, calling)
    ensures TimeIn(ss, ks, 9, w, x, calling) <= ks[if calling then 6 else 4].seconds
  {
    hide Busy;
    assert TimeIn(ss, ks, 2, w, x, calling) == 0 by { assert TimeIn(ss, ks, 1, w, x, calling) == 0; }
    assert TimeIn(ss, ks, 4, w, x, calling) == 0 by { assert TimeIn(ss, ks, 3, w, x, calling) == 0; }
    assert TimeIn(ss, ks, 6, w, x, calling) == TimeIn(ss, ks, 5, w, x, calling);
    assert TimeIn(ss, ks, 8, w, x, calling) == TimeIn(ss, ks, 7, w, x, calling);
  }

  /** The longest provider call, in whole seconds, is that of some punctual server. */
  lemma LongestCall(retries: int) returns (seconds: nat)
    ensures seconds as real == Client.CallBudget(retries)
    ensures exists server, configured, tokens, lane, now, n :: Client.Punctual(server) &&
              Duration(server, retries, configured, tokens, lane, now, n) == Client.CallBudget(retries)
  {
    seconds := 300 * Client.AtLeast0(retries) + 120 * Client.AtLeast0(retries - 1);
    hide Client.Punctual, Client.AuthorizedCall;
    if retries >= 1 {
      Client.BoundIsAttained(retries);
      assert Duration(Client.Hostile(retries), retries, {Client.Primary}, map[], Client.Primary, 0.0, 0) == Client.CallBudget(retries);
    } else {
      NoRetriesNoRequest(retries);
    }
  }

  /** A run whose executions each make one call and spend no more than slack and settle elsewhere,
      in which a lease is found stale under a live worker. */
  lemma ShortLeaseBreaksQ(cfg: Config, slack: nat, settle: nat, retries: int) returns (ss: seq<State>, ks: seq<Step>)
    requires !LeaseSuffices(cfg.leaseSeconds, (slack + settle) as real, retries)
    ensures RunFromInit(cfg, ss, ks) && OneCallEach(ss, ks, slack as real, settle as real, retries) && !RunQ(cfg, ss, ks)
  {
    hide Apply, Enabled, Duration, Client.CallBudget, TimeIn;
    LeaseCondition(cfg.leaseSeconds, (slack + settle) as real, retries);
    var longest := LongestCall(retries);
    var starts, first := SlowStart(cfg);
    var ends, second := SlowEnd(cfg, starts[4], slack, settle + longest);
    ss, ks := starts + ends[1..], first + second;
    assert RunFromInit(cfg, ss, ks) by {
      forall i | 0 <= i < |ks| ensures Next(ss[i], ks[i], ss[i + 1]) {
        assert if i < 4 then Next(starts[i], first[i], starts[i + 1]) else Next(ends[i - 4], second[i - 4], ends[i - 4 + 1]);
      }
    }
    assert ss[4] == ends[0] && ss[6] == ends[2] && ss[8] == ends[4] && !LeaseOutlivesWork(ss[8], ks[8]);
    forall w, x
      ensures TimeIn(ss, ks, |ks|, w, x, false) <= slack && TimeIn(ss, ks, |ks|, w, x, true) <= settle + longest
    {
      TwoWaits(ss, ks, w, x, false);
      TwoWaits(ss, ks, w, x, true);
    }
  }

  /** With the slack given in whole seconds the condition is exactly what Q takes: it holds if and
      only if every run with one call per execution and no more than the slack elsewhere satisfies Q. */
  lemma DischargesQExactly(cfg: Config, slack: nat, settle: nat, retries: int)
    ensures LeaseSuffices(cfg.leaseSeconds, (slack + settle) as real, retries) <==>
              forall ss, ks :: RunFromInit(cfg, ss, ks) && OneCallEach(ss, ks, slack as real, settle as real, retries) ==> RunQ(cfg, ss, ks)
  {
    hide LeaseSuffices, OneCallEach, RunFromInit, RunQ;
    if LeaseSuffices(cfg.leaseSeconds, (slack + settle) as real, retries) {
      forall ss, ks | RunFromInit(cfg, ss, ks) && OneCallEach(ss, ks, slack as real, settle as real, retries) ensures RunQ(cfg, ss, ks) {
        LeaseDischargesQ(cfg, ss, ks, slack as real, settle as real, retries);
      }
    } else {
      var ss, ks := ShortLeaseBreaksQ(cfg, slack, settle, retries);
    }
  }

  /** The defaults (lease 900 s, five attempts) do not meet the condition even with no slack at
      all; two attempts would, with three minutes to spare. */
  lemma DefaultLeaseIsTooShort()
    ensures !LeaseSuffices(900, 0.0, 5) && LeaseSuffices(900, 180.0, 2) && !LeaseSuffices(900, 0.0, 3)
  {
    LeaseCondition(900, 0.0, 5);
    LeaseCondition(900, 180.0, 2);
    LeaseCondition(900, 0.0, 3);
  }
}
