/** What the reaper can and cannot miss while deliveries move between the lists. */
module Reaper {
  import opened Wrappers
  import opened Protocol
  import opened Interleaving
  import opened Necessity
  import opened Stranding

  /** Step k takes an occurrence of m out of the processing list. */
  ghost predicate TakesOut(s: State, k: Step, m: Raw) {
    || (k.Ack? && PcOf(s, k.w) == Acking(m))
    || (k.Settle? && PcOf(s, k.w).Judged? && PcOf(s, k.w).raw == m)
    || (k.Judge? && PcOf(s, k.w).Recovering? && PcOf(s, k.w).todo != [] && PcOf(s, k.w).todo[0] == m && !m.body.Named?)
  }

  lemma {:induction false} LremKeeps(list: seq<Raw>, raw: Raw, m: Raw)
    requires m in list && m != raw
    ensures m in Lrem(list, raw)
    decreases |list|
  {
    if list[0] != raw && list[0] != m { LremKeeps(list[1..], raw, m); }
  }

  lemma StaysInProcessing(s: State, k: Step, s': State, m: Raw)
    requires Next(s, k, s') && m in s.processing && !TakesOut(s, k, m)
    ensures m in s'.processing
  {
    hide ClaimTx, RecordAttemptTx, CompleteTx, FailTx, RecoverTx, ReapTx, SubmitTx, OutboxClaimTx, MarkTx, CleanupTx, NamedIn, Entries,
         IsBatch, LatestInflight, Lrem, RecoverVerdict, Granted, Target;
    if k.Ack? && PcOf(s, k.w).raw != m { LremKeeps(s.processing, PcOf(s, k.w).raw, m); }
    if k.Settle? && PcOf(s, k.w).raw != m { LremKeeps(s.processing, PcOf(s, k.w).raw, m); }
    if k.Judge? && PcOf(s, k.w).todo[0] != m { LremKeeps(s.processing, PcOf(s, k.w).todo[0], m); }
  }

  lemma {:induction false} StaysMeanwhile(ss: seq<State>, ks: seq<Step>, i: nat, j: nat, m: Raw)
    requires Run(ss, ks) && i <= j <= |ks| && m in ss[i].processing
    requires forall n :: i <= n < j ==> !TakesOut(ss[n], ks[n], m)
    ensures m in ss[j].processing
    decreases j
  {
    hide Apply, Enabled, TakesOut;
    if i < j {
      StaysMeanwhile(ss, ks, i, j - 1, m);
      assert Next(ss[j - 1], ks[j - 1], ss[j - 1 + 1]);
      StaysInProcessing(ss[j - 1], ks[j - 1], ss[j - 1 + 1], m);
    }
  }

  lemma {:induction false} PcStays(ss: seq<State>, ks: seq<Step>, i: nat, j: nat, w: WorkerId)
    requires Run(ss, ks) && i <= j <= |ks|
    requires forall n :: i <= n < j ==> !ByWorker(ks[n], w)
    ensures PcOf(ss[j], w) == PcOf(ss[i], w)
    decreases j
  {
    hide Apply, Enabled, PcOf;
    if i < j {
      PcStays(ss, ks, i, j - 1, w);
      assert Next(ss[j - 1], ks[j - 1], ss[j - 1 + 1]);
      ForeignStep(ss[j - 1], ks[j - 1], w);
    }
  }

  /** Some message of the list names t. */
  ghost predicate NamedBy(list: seq<Raw>, t: TaskId) {
    exists m :: m in list && m.body == Named(t)
  }

  lemma SeenExactly(queue: seq<Raw>, processing: seq<Raw>, t: TaskId)
    ensures t in NamedIn(queue) + NamedIn(processing) <==> NamedBy(queue, t) || NamedBy(processing, t)
  {
    if m :| m in queue && m.body == Named(t) { assert m.body.task in NamedIn(queue); }
    if m :| m in processing && m.body == Named(t) { assert m.body.task in NamedIn(processing); }
  }

  /** One pass of the reaper, whatever the others do meanwhile: it fails a task if and only if the
      task is queued and overdue when the pass commits, no message in the task list named it at
      the first read, and none in the processing list at the second. */
  lemma ReapedExactly(ss: seq<State>, ks: seq<Step>, i: nat, j: nat, l: nat, r: WorkerId, t: TaskId)
    requires Run(ss, ks) && i < j < l < |ks| && ks[i] == ReapScan(r) && ks[j] == ReapScanMore(r) && ks[l] == Reap(r)
    requires forall n :: i < n < l && n != j ==> !ByWorker(ks[n], r)
    requires t in ss[l].db.tasks
    ensures var row, s := ss[l].db.tasks[t], ss[l];
            && t in ss[l + 1].db.tasks
            && ss[l + 1].db.tasks[t] ==
               if row.status == Queued && row.createdAt < s.now - s.cfg.orphanSeconds
                  && !NamedBy(ss[i].queue, t) && !NamedBy(ss[j].processing, t)
               then FailRow(row, s.now) else row
  {
    assert Next(ss[i], ks[i], ss[i + 1]) && Next(ss[j], ks[j], ss[j + 1]) && Next(ss[l], ks[l], ss[l + 1]);
    PcStays(ss, ks, i + 1, j, r);
    PcStays(ss, ks, j + 1, l, r);
    SeenExactly(ss[i].queue, ss[j].processing, t);
    assert PcOf(ss[l], r).seen == NamedIn(ss[i].queue) + NamedIn(ss[j].processing);
    hide NamedBy, NamedIn, Run;
  }

  /** So a task is never reaped in a pass before which a delivery of it was in one of the two
      lists, unless the delivery was taken out of the processing list between the two reads: a
      delivery on its way from the task list to the processing list is always seen. */
  lemma ReaperSeesMovingDeliveries(ss: seq<State>, ks: seq<Step>, i: nat, j: nat, l: nat, r: WorkerId, m: Raw, t: TaskId)
    requires Run(ss, ks) && i < j < l < |ks| && ks[i] == ReapScan(r) && ks[j] == ReapScanMore(r) && ks[l] == Reap(r)
    requires forall n :: i < n < l && n != j ==> !ByWorker(ks[n], r)
    requires m.body == Named(t) && (m in ss[i].queue || m in ss[i].processing)
    requires forall n :: i <= n < j ==> !TakesOut(ss[n], ks[n], m)
    ensures t in ss[l].db.tasks ==> t in ss[l + 1].db.tasks && ss[l + 1].db.tasks[t] == ss[l].db.tasks[t]
  {
    if m in ss[i].processing { StaysMeanwhile(ss, ks, i, j, m); }
    assert NamedBy(ss[i].queue, t) || NamedBy(ss[j].processing, t);
    if t in ss[l].db.tasks { ReapedExactly(ss, ks, i, j, l, r, t); }
  }

  // ------------------------------------------------------------------ what it can miss

  /** Worker 1 takes the dispatched delivery of an old request and dies. */
  lemma OldAndMoved(cfg: Config) returns (s: State)
    requires cfg.Valid()
    ensures Leads(Init(cfg), s, true, true)
    ensures s.queue == [] && s.processing == [REQUEST] && s.cfg == cfg && s.now == cfg.orphanSeconds + 1
    ensures ACCEPTED_TASK in s.h.submitted && s.db.tasks == map[ACCEPTED_TASK := TaskRow(0, Queued, None, None, None, None)]
    ensures forall w :: PcOf(s, w).Idle?
  {
    hide Plays, Leads;
    var s0 := Dispatched(cfg, InOnePiece);
    ReachesLeads(Init(cfg), s0, InOnePiece);
    var s1 := s0.(now := s0.now + (cfg.orphanSeconds + 1));
    One(s0, Tick(cfg.orphanSeconds + 1), true, true);
    Then(Init(cfg), s0, s1, true, true);
    assert PcOf(s0, 1).Idle?;
    var s2 := MoveStep(s1, 1);
    assert s2.queue == [] && s2.processing == [REQUEST];
    One(s1, Move(1), true, true);
    Then(Init(cfg), s1, s2, true, true);
    s := StopStep(s2, 1, Moved(REQUEST));
    One(s2, Stop(1), true, true);
    Then(Init(cfg), s2, s, true, true);
    forall w ensures PcOf(s, w).Idle? {
      assert PcOf(s0, w).Idle?;
    }
  }

  /** The reaper reads the task list; a recovery pass puts the delivery back there; the reaper
      reads the processing list. */
  lemma RequeuedBetweenReads(s: State) returns (s': State)
    requires s.queue == [] && s.processing == [REQUEST] && s.db.tasks == map[ACCEPTED_TASK := TaskRow(0, Queued, None, None, None, None)]
    requires PcOf(s, 3).Idle? && PcOf(s, 4).Idle?
    ensures Leads(s, s', true, true)
    ensures s'.queue == [REQUEST] && s'.processing == [] && s'.db == s.db && s'.now == s.now && s'.cfg == s.cfg && s'.h == s.h
    ensures PcOf(s', 4) == ReapReady({})
  {
    hide Plays, Leads;
    var s1 := At(s, 4, Reaping({}));
    assert NamedIn([]) == {};
    One(s, ReapScan(4), true, true);
    var s2 := At(s1, 3, Recovering([REQUEST]));
    One(s1, Scan(3), true, true);
    Then(s, s1, s2, true, true);
    var s3 := RequeueOne(s2);
    Then(s, s2, s3, true, true);
    s' := At(s3, 4, ReapReady({}));
    assert {} + NamedIn([]) == {};
    One(s3, ReapScanMore(4), true, true);
    Then(s, s3, s', true, true);
  }

  lemma RequeueOne(s: State) returns (s': State)
    requires s.queue == [] && s.processing == [REQUEST] && s.db.tasks == map[ACCEPTED_TASK := TaskRow(0, Queued, None, None, None, None)]
    requires PcOf(s, 3) == Recovering([REQUEST])
    ensures Leads(s, s', true, true) && s' == At(s.(queue := [REQUEST], processing := []), 3, Idle)
  {
    hide Plays, Leads;
    var mid := At(s, 3, Judged(REQUEST, Requeue, []));
    assert [REQUEST][1..] == [];
    assert RecoverTx(s.db, s.now, s.cfg, ACCEPTED_TASK).tasks == s.db.tasks;
    One(s, Judge(3), true, true);
    s' := At(s.(queue := [REQUEST], processing := []), 3, Idle);
    assert s'.workers == mid.workers[3 := Idle];
    assert Lrem([REQUEST], REQUEST) == [] && [REQUEST] + [] == [REQUEST];
    One(mid, Settle(3), true, true);
    Then(s, mid, s', true, true);
  }

  /** The failing side of ReapedExactly: even with Q and C the reaper can fail an accepted request whose delivery never left the two
      lists: a dead worker's delivery goes back to the task list between the two reads. */
  lemma ReaperMissesRequeuedDelivery(cfg: Config) returns (s: State)
    requires cfg.Valid()
    ensures Leads(Init(cfg), s, true, true)
    ensures ACCEPTED_TASK in s.h.submitted && ACCEPTED_TASK in s.db.tasks && s.db.tasks[ACCEPTED_TASK].status == Failed
    ensures s.queue == [REQUEST]
  {
    hide Plays, Leads;
    var s1 := OldAndMoved(cfg);
    var s2 := RequeuedBetweenReads(s1);
    Then(Init(cfg), s1, s2, true, true);
    s := At(s2.(db := ReapTx(s2.db, s2.now, s2.cfg, {})), 4, Idle);
    One(s2, Reap(4), true, true);
    Then(Init(cfg), s2, s, true, true);
  }
}
