/** The hypotheses Q, C and R cannot be dropped: runs of the protocol that break each of them
    and, with it, the guarantee. */
module Necessity {
  import opened Wrappers
  import opened Protocol
  import opened Receipts
  import opened Lifecycle
  import opened AtMostOnce

  /** Playing ks from s ends in s'; q and c say which hypotheses every step respects. */
  ghost predicate Plays(s: State, ks: seq<Step>, s': State, q: bool, c: bool)
    decreases |ks|
  {
    if ks == [] then s' == s
    else
      && Enabled(s, ks[0]) && (q ==> LeaseOutlivesWork(s, ks[0])) && (c ==> ClaimWaits(s, ks[0]))
      && Plays(Apply(s, ks[0]), ks[1..], s', q, c)
  }

  lemma {:induction false} PlaysOn(s: State, ks: seq<Step>, mid: State, ls: seq<Step>, s': State, q: bool, c: bool)
    requires Plays(s, ks, mid, q, c) && Plays(mid, ls, s', q, c)
    ensures Plays(s, ks + ls, s', q, c)
    decreases |ks|
  {
    if ks == [] {
      assert ks + ls == ls;
    } else {
      PlaysOn(Apply(s, ks[0]), ks[1..], mid, ls, s', q, c);
      assert (ks + ls)[0] == ks[0] && (ks + ls)[1..] == ks[1..] + ls;
    }
  }

  lemma {:induction false} PlaysRun(s: State, ks: seq<Step>, s': State, q: bool, c: bool) returns (ss: seq<State>)
    requires Plays(s, ks, s', q, c)
    ensures Run(ss, ks) && ss[0] == s && ss[|ks|] == s'
    ensures q ==> forall i :: 0 <= i < |ks| ==> LeaseOutlivesWork(ss[i], ks[i])
    ensures c ==> forall i :: 0 <= i < |ks| ==> ClaimWaits(ss[i], ks[i])
    decreases |ks|
  {
    if ks == [] {
      ss := [s];
    } else {
      var rest := PlaysRun(Apply(s, ks[0]), ks[1..], s', q, c);
      ss := [s] + rest;
      forall i | 0 <= i < |ks|
        ensures Next(ss[i], ks[i], ss[i + 1])
        ensures q ==> LeaseOutlivesWork(ss[i], ks[i])
        ensures c ==> ClaimWaits(ss[i], ks[i])
      {
        if i > 0 { assert Next(rest[i - 1], ks[1..][i - 1], rest[i - 1 + 1]); }
      }
    }
  }

  /** Some run leads from s to s'. */
  ghost predicate Leads(s: State, s': State, q: bool, c: bool) {
    exists ks :: Plays(s, ks, s', q, c)
  }

  lemma Then(s: State, mid: State, s': State, q: bool, c: bool)
    requires Leads(s, mid, q, c) && Leads(mid, s', q, c)
    ensures Leads(s, s', q, c)
  {
    var ks, ls :| Plays(s, ks, mid, q, c) && Plays(mid, ls, s', q, c);
    PlaysOn(s, ks, mid, ls, s', q, c);
  }

  lemma One(s: State, k: Step, q: bool, c: bool)
    requires Enabled(s, k) && (q ==> LeaseOutlivesWork(s, k)) && (c ==> ClaimWaits(s, k))
    ensures Leads(s, Apply(s, k), q, c)
  {
    assert Plays(Apply(s, k), [], Apply(s, k), q, c);
    assert Plays(s, [k], Apply(s, k), q, c);
  }

  lemma Weaker(s: State, s': State, q: bool, c: bool)
    requires Leads(s, s', true, true)
    ensures Leads(s, s', q, c)
  {
    var ks :| Plays(s, ks, s', true, true);
    PlaysWeaker(s, ks, s', q, c);
  }

  lemma {:induction false} PlaysWeaker(s: State, ks: seq<Step>, s': State, q: bool, c: bool)
    requires Plays(s, ks, s', true, true)
    ensures Plays(s, ks, s', q, c)
    decreases |ks|
  {
    if ks != [] { PlaysWeaker(Apply(s, ks[0]), ks[1..], s', q, c); }
  }

  // ------------------------------------------------------------------ segments of runs

  const FOREIGN_TASK: TaskId := Foreign(0)
  const DELIVERY: Raw := Raw(0, Named(FOREIGN_TASK), GigaChat)

  ghost predicate NoInflight(s: State) {
    forall x :: x in s.db.attempts ==> !IsInflight(s.db.attempts, FOREIGN_TASK, x)
  }

  /** Everything but worker w's program counter and what the step lemmas name is unchanged. */
  ghost predicate Others(s: State, s': State, w: WorkerId) {
    && s'.cfg == s.cfg && s'.dead == s.dead
    && forall v :: v != w ==> PcOf(s', v) == PcOf(s, v)
  }

  /** w takes the only delivery and is granted the lease. */
  lemma TakeAndClaim(s: State, w: WorkerId) returns (s': State)
    requires PcOf(s, w).Idle? && s.queue == [DELIVERY] && NoInflight(s)
    requires FOREIGN_TASK in s.db.tasks ==> s.db.tasks[FOREIGN_TASK].status == Queued
    ensures Leads(s, s', true, true)
    ensures Others(s, s', w) && s'.now == s.now && s'.queue == [] && s'.processing == s.processing + [DELIVERY]
    ensures PcOf(s', w) == Executing(DELIVERY, Exec(FOREIGN_TASK, s.nextId + 1), Claimed) && s'.nextId == s.nextId + 2
    ensures FOREIGN_TASK in s'.db.tasks && Holds(s'.db.tasks[FOREIGN_TASK], s.nextId + 1)
    ensures s'.db.tasks[FOREIGN_TASK].startedAt == Some(s.now)
    ensures s'.db.attempts == s.db.attempts && s'.h.calls == s.h.calls && s'.h.abandoned == s.h.abandoned
  {
    hide Plays, Leads;
    var mid := MoveStep(s, w);
    assert PcOf(mid, w) == Moved(DELIVERY);
    assert LatestInflight(mid.db.attempts, FOREIGN_TASK, None);
    s' := ClaimStep(mid, w, DELIVERY, None);
    One(s, Move(w), true, true);
    One(mid, Claim(w, None), true, true);
    Then(s, mid, s', true, true);
  }

  /** w commits its attempt row and calls the provider. */
  lemma AttemptAndCall(s: State, w: WorkerId, x: Exec) returns (s': State)
    requires PcOf(s, w) == Executing(DELIVERY, x, Claimed) && x !in s.db.attempts
    ensures Leads(s, s', true, true)
    ensures Others(s, s', w) && s'.now == s.now && s'.queue == s.queue && s'.processing == s.processing && s'.nextId == s.nextId
    ensures PcOf(s', w) == Executing(DELIVERY, x, Called)
    ensures s'.db == RecordAttemptTx(s.db, s.now, x)
    ensures s'.h.calls == s.h.calls + [x] && s'.h.abandoned == s.h.abandoned
  {
    var mid := At(s.(db := RecordAttemptTx(s.db, s.now, x)), w, Executing(DELIVERY, x, Recorded));
    s' := At(mid.(h := mid.h.(calls := mid.h.calls + [x])), w, Executing(DELIVERY, x, Called));
    One(s, Attempt(w), true, true);
    One(mid, Call(w), true, true);
    Then(s, mid, s', true, true);
  }

  lemma WaitAndScan(s: State, r: WorkerId) returns (s': State)
    requires PcOf(s, r).Idle? && s.processing == [DELIVERY] && 0 <= s.cfg.leaseSeconds
    ensures Leads(s, s', true, true)
    ensures s' == At(s.(now := s.now + (s.cfg.leaseSeconds + 1)), r, Recovering([DELIVERY]))
  {
    var mid := s.(now := s.now + (s.cfg.leaseSeconds + 1));
    s' := At(mid, r, Recovering([DELIVERY]));
    One(s, Tick(s.cfg.leaseSeconds + 1), true, true);
    One(mid, Scan(r), true, true);
    Then(s, mid, s', true, true);
  }

  lemma JudgeAndSettle(s: State, r: WorkerId, q: bool) returns (s': State)
    requires PcOf(s, r) == Recovering([DELIVERY]) && s.queue == [] && s.processing == [DELIVERY]
    requires FOREIGN_TASK in s.db.tasks && Stale(s.db.tasks[FOREIGN_TASK], s.now, s.cfg) && s.db.tasks[FOREIGN_TASK].lease.Some?
    requires q ==> !Live(s, Exec(FOREIGN_TASK, s.db.tasks[FOREIGN_TASK].lease.value))
    ensures Leads(s, s', q, true)
    ensures s' == At(s.(db := RecoverTx(s.db, s.now, s.cfg, FOREIGN_TASK), queue := [DELIVERY], processing := []), r, Idle)
  {
    var mid := JudgeStep(s, r, DELIVERY, []);
    assert [DELIVERY][1..] == [];
    assert PcOf(mid, r) == Judged(DELIVERY, Requeue, []);
    s' := At(SettleLists(mid, DELIVERY, Requeue), r, Idle);
    assert s'.workers == s.workers[r := Idle];
    One(s, Judge(r), q, true);
    One(mid, Settle(r), q, true);
    Then(s, mid, s', q, true);
  }

  /** The lease grows stale and worker r recovers the only processing entry. */
  lemma WaitAndRecover(s: State, r: WorkerId, q: bool) returns (s': State)
    requires PcOf(s, r).Idle? && s.queue == [] && s.processing == [DELIVERY] && s.cfg.Valid()
    requires FOREIGN_TASK in s.db.tasks && s.db.tasks[FOREIGN_TASK].status == Running && s.db.tasks[FOREIGN_TASK].lease.Some?
    requires s.db.tasks[FOREIGN_TASK].startedAt.Some? && s.db.tasks[FOREIGN_TASK].startedAt.value <= s.now
    requires q ==> !Live(s, Exec(FOREIGN_TASK, s.db.tasks[FOREIGN_TASK].lease.value))
    ensures Leads(s, s', q, true)
    ensures Others(s, s', r) && PcOf(s', r).Idle? && s'.queue == [DELIVERY] && s'.processing == [] && s'.nextId == s.nextId
    ensures FOREIGN_TASK in s'.db.tasks && s'.db.tasks[FOREIGN_TASK].status == Queued
    ensures s'.db.attempts == s.db.attempts && s'.h == s.h
  {
    hide Apply, Enabled, Plays, Leads;
    var mid := WaitAndScan(s, r);
    Weaker(s, mid, q, true);
    assert q ==> !Live(mid, Exec(FOREIGN_TASK, s.db.tasks[FOREIGN_TASK].lease.value));
    s' := JudgeAndSettle(mid, r, q);
    Then(s, mid, s', q, true);
  }

  // ------------------------------------------------------------------ Q

  lemma Begin(cfg: Config) returns (s: State)
    ensures Leads(Init(cfg), s, true, true)
    ensures s == Init(cfg).(queue := [DELIVERY], h := Init(cfg).h.(arrived := multiset{DELIVERY}))
  {
    s := Arrived(Init(cfg), DELIVERY);
    One(Init(cfg), Arrive(DELIVERY), true, true);
  }

  /** Worker 1 outlives its lease and its delivery goes back to the task list. */
  lemma Overdue(cfg: Config) returns (s: State)
    requires cfg.Valid()
    ensures Leads(Init(cfg), s, false, true)
    ensures PcOf(s, 1) == Executing(DELIVERY, Exec(FOREIGN_TASK, 1), Claimed) && PcOf(s, 2).Idle?
    ensures s.queue == [DELIVERY] && s.nextId == 2 && FOREIGN_TASK in s.db.tasks && s.db.tasks[FOREIGN_TASK].status == Queued
    ensures s.db.attempts == map[] && s.h.calls == [] && s.h.abandoned == {}
  {
    hide Apply, Enabled, Plays, Leads;
    var s1 := Begin(cfg);
    var s2 := TakeAndClaim(s1, 1);
    Then(Init(cfg), s1, s2, true, true);
    Weaker(Init(cfg), s2, false, true);
    s := WaitAndRecover(s2, 3, false);
    Then(Init(cfg), s2, s, false, true);
  }

  /** Both workers call. */
  lemma BothCall(s: State) returns (s': State)
    requires PcOf(s, 1) == Executing(DELIVERY, Exec(FOREIGN_TASK, 1), Claimed) && PcOf(s, 2).Idle?
    requires s.queue == [DELIVERY] && s.nextId == 2 && FOREIGN_TASK in s.db.tasks && s.db.tasks[FOREIGN_TASK].status == Queued
    requires s.db.attempts == map[] && s.h.calls == [] && s.h.abandoned == {}
    ensures Leads(s, s', true, true)
    ensures s'.h.calls == [Exec(FOREIGN_TASK, 1), Exec(FOREIGN_TASK, 3)] && s'.h.abandoned == {}
  {
    hide Apply, Enabled, Plays, Leads;
    var s1 := TakeAndClaim(s, 2);
    var s2 := AttemptAndCall(s1, 1, Exec(FOREIGN_TASK, 1));
    Then(s, s1, s2, true, true);
    s' := AttemptAndCall(s2, 2, Exec(FOREIGN_TASK, 3));
    Then(s, s2, s', true, true);
  }

  lemma CountTwo(x: Exec, y: Exec)
    requires x.task == FOREIGN_TASK && y.task == FOREIGN_TASK
    ensures CallCount([x, y], FOREIGN_TASK) == 2
  {
    assert [x, y][..1] == [x] && [x][..0] == [];
    assert CallCount([x], FOREIGN_TASK) == 1;
  }

  /** Without Q (but with C): a worker slower than its lease and the worker that takes over both
      call the provider, although nobody crashed. */
  lemma WithoutQ(cfg: Config) returns (s: State)
    requires cfg.Valid()
    ensures Leads(Init(cfg), s, false, true)
    ensures CallCount(s.h.calls, FOREIGN_TASK) == 2 && s.h.abandoned == {}
  {
    hide Apply, Enabled, Plays, Leads;
    var mid := Overdue(cfg);
    s := BothCall(mid);
    Weaker(mid, s, false, true);
    Then(Init(cfg), mid, s, false, true);
    CountTwo(Exec(FOREIGN_TASK, 1), Exec(FOREIGN_TASK, 3));
  }

  // ------------------------------------------------------------------ C

  /** A duplicate delivery is claimed while worker 1 is calling: the attempt is written off as
      uncertain under a live worker, and the duplicate is acknowledged. */
  lemma DuplicateClaim(s: State, w: WorkerId, x: Exec) returns (s': State)
    requires PcOf(s, w).Idle? && s.queue == [DELIVERY] && s.processing == [DELIVERY] && x.task == FOREIGN_TASK
    requires x in s.db.attempts && s.db.attempts[x].status == Inflight && forall y :: y in s.db.attempts ==> y == x
    requires FOREIGN_TASK in s.db.tasks && s.db.tasks[FOREIGN_TASK].status == Running
    ensures Leads(s, s', true, false)
    ensures Others(s, s', w) && PcOf(s', w).Idle? && s'.now == s.now && s'.queue == [] && s'.processing == [DELIVERY]
    ensures s'.db == s.db.(attempts := s.db.attempts[x := s.db.attempts[x].(status := OutcomeUnknown)])
    ensures s'.h.calls == s.h.calls && s'.h.abandoned == s.h.abandoned && s.nextId <= s'.nextId
  {
    var s1 := MoveStep(s, w);
    One(s, Move(w), true, false);
    assert LatestInflight(s1.db.attempts, FOREIGN_TASK, Some(x));
    var s2 := ClaimStep(s1, w, DELIVERY, Some(x));
    One(s1, Claim(w, Some(x)), true, false);
    Then(s, s1, s2, true, false);
    s' := At(RemoveProcessing(s2, DELIVERY), w, Idle);
    assert s2.processing == [DELIVERY, DELIVERY];
    One(s2, Ack(w), true, false);
    Then(s, s2, s', true, false);
  }

  lemma Crash(s: State, w: WorkerId, x: Exec) returns (s': State)
    requires PcOf(s, w) == Executing(DELIVERY, x, Called) && x in s.db.attempts
    ensures Leads(s, s', true, true)
    ensures s' == At(s.(h := s.h.(abandoned := s.h.abandoned + {x})), w, Idle)
  {
    s' := StopStep(s, w, PcOf(s, w));
    One(s, Stop(w), true, true);
  }

  lemma CalledWithDuplicate(cfg: Config) returns (s: State)
    ensures Leads(Init(cfg), s, true, true)
    ensures s.cfg == cfg && s.now == 0 && PcOf(s, 1) == Executing(DELIVERY, Exec(FOREIGN_TASK, 1), Called)
    ensures forall v :: v != 1 ==> PcOf(s, v).Idle?
    ensures s.queue == [DELIVERY] && s.processing == [DELIVERY] && s.h.calls == [Exec(FOREIGN_TASK, 1)] && s.h.abandoned == {}
    ensures FOREIGN_TASK in s.db.tasks && Holds(s.db.tasks[FOREIGN_TASK], 1) && s.db.tasks[FOREIGN_TASK].startedAt == Some(0)
    ensures s.db.attempts == map[Exec(FOREIGN_TASK, 1) := AttemptRow(Inflight, 0)] && 2 <= s.nextId
  {
    hide Plays, Leads;
    var s1 := Begin(cfg);
    var s2 := TakeAndClaim(s1, 1);
    Then(Init(cfg), s1, s2, true, true);
    var s3 := AttemptAndCall(s2, 1, Exec(FOREIGN_TASK, 1));
    Then(Init(cfg), s2, s3, true, true);
    s := Arrived(s3, DELIVERY);
    One(s3, Arrive(DELIVERY), true, true);
    Then(Init(cfg), s3, s, true, true);
    forall v | v != 1 ensures PcOf(s, v).Idle? {
      assert PcOf(s3, v) == PcOf(s2, v) == PcOf(s1, v);
    }
  }

  lemma UncertainThenCrashed(cfg: Config) returns (s: State)
    ensures Leads(Init(cfg), s, true, false)
    ensures s.cfg == cfg && s.now == 0 && forall v :: PcOf(s, v).Idle?
    ensures s.queue == [] && s.processing == [DELIVERY] && s.h.calls == [Exec(FOREIGN_TASK, 1)] && s.h.abandoned == {Exec(FOREIGN_TASK, 1)}
    ensures FOREIGN_TASK in s.db.tasks && Holds(s.db.tasks[FOREIGN_TASK], 1) && s.db.tasks[FOREIGN_TASK].startedAt == Some(0)
    ensures s.db.attempts == map[Exec(FOREIGN_TASK, 1) := AttemptRow(OutcomeUnknown, 0)] && 2 <= s.nextId
  {
    hide Apply, Enabled, Plays, Leads;
    var s1 := CalledWithDuplicate(cfg);
    Weaker(Init(cfg), s1, true, false);
    var s2 := DuplicateClaim(s1, 2, Exec(FOREIGN_TASK, 1));
    Then(Init(cfg), s1, s2, true, false);
    s := Crash(s2, 1, Exec(FOREIGN_TASK, 1));
    Weaker(s2, s, true, false);
    Then(Init(cfg), s2, s, true, false);
    forall v ensures PcOf(s, v).Idle? {
      assert v != 2 ==> PcOf(s2, v) == PcOf(s1, v);
    }
  }

  lemma NobodyLive(s: State, x: Exec)
    requires forall v :: PcOf(s, v).Idle?
    ensures !Live(s, x)
  {
    assert forall v :: v in s.workers ==> s.workers[v] == PcOf(s, v);
  }

  /** The crashed execution is recovered ... */
  lemma RecoveredAfterCrash(cfg: Config) returns (s: State)
    requires cfg.Valid()
    ensures Leads(Init(cfg), s, true, false)
    ensures PcOf(s, 2).Idle? && s.queue == [DELIVERY] && s.processing == [] && 2 <= s.nextId
    ensures FOREIGN_TASK in s.db.tasks && s.db.tasks[FOREIGN_TASK].status == Queued
    ensures s.db.attempts == map[Exec(FOREIGN_TASK, 1) := AttemptRow(OutcomeUnknown, 0)]
    ensures s.h.calls == [Exec(FOREIGN_TASK, 1)] && s.h.abandoned == {Exec(FOREIGN_TASK, 1)}
  {
    hide Apply, Enabled, Plays, Leads, Live;
    var mid := UncertainThenCrashed(cfg);
    NobodyLive(mid, Exec(FOREIGN_TASK, 1));
    s := WaitAndRecover(mid, 3, true);
    Weaker(mid, s, true, false);
    Then(Init(cfg), mid, s, true, false);
    assert PcOf(mid, 2).Idle? && PcOf(s, 2) == PcOf(mid, 2);
  }

  /** ... and taken over: its attempt is no longer in flight, so nothing stops a second call. */
  lemma TakenOver(s: State) returns (s': State)
    requires PcOf(s, 2).Idle? && s.queue == [DELIVERY] && s.processing == [] && 2 <= s.nextId
    requires FOREIGN_TASK in s.db.tasks && s.db.tasks[FOREIGN_TASK].status == Queued
    requires s.db.attempts == map[Exec(FOREIGN_TASK, 1) := AttemptRow(OutcomeUnknown, 0)]
    requires s.h.calls == [Exec(FOREIGN_TASK, 1)]
    ensures Leads(s, s', true, false)
    ensures s'.h.calls == [Exec(FOREIGN_TASK, 1), Exec(FOREIGN_TASK, s.nextId + 1)] && s'.h.abandoned == s.h.abandoned
  {
    hide Apply, Enabled, Plays, Leads;
    var mid := TakeAndClaim(s, 2);
    s' := AttemptAndCall(mid, 2, Exec(FOREIGN_TASK, s.nextId + 1));
    Then(s, mid, s', true, true);
    Weaker(s, s', true, false);
  }

  /** Without C (but with Q): a duplicate delivery plus one crash replays the call, so the bound
      "one plus the abandoned executions" is attained and at-most-once is not. */
  lemma WithoutC(cfg: Config) returns (s: State)
    requires cfg.Valid()
    ensures Leads(Init(cfg), s, true, false)
    ensures CallCount(s.h.calls, FOREIGN_TASK) == 2 && |AbandonedOf(s, FOREIGN_TASK)| == 1
  {
    hide Apply, Enabled, Plays, Leads;
    var mid := RecoveredAfterCrash(cfg);
    s := TakenOver(mid);
    Then(Init(cfg), mid, s, true, false);
    CountTwo(Exec(FOREIGN_TASK, 1), Exec(FOREIGN_TASK, mid.nextId + 1));
    assert AbandonedOf(s, FOREIGN_TASK) == {Exec(FOREIGN_TASK, 1)};
  }
}
