/** What R protects against: a recovery pass that overlaps a live worker can strand an accepted
    task for good. */
module Stranding {
  import opened Wrappers
  import opened Protocol
  import opened Receipts
  import opened AtMostOnce
  import opened Identifiers
  import opened Necessity
  import Durability

  predicate About(m: Raw, t: TaskId) { m.body == Named(t) }

  /** Running, but nobody executes it, its outbox row is spent, and no message names it. */
  ghost predicate Stranded(s: State, t: TaskId) {
    && t in s.h.submitted && (t.Minted? ==> t.n < s.nextId)
    && t in s.db.tasks && s.db.tasks[t].status == Running
    && (forall w :: w in s.workers && s.workers[w].Executing? ==> s.workers[w].exec.task != t)
    && (t in s.db.outbox ==> s.db.outbox[t].deliveredAt.Some?)
    && Circulates(s, m => !About(m, t))
  }

  /** Transactions about other tasks leave the row of t alone. */
  lemma Elsewhere(db: Db, now: int, cfg: Config, x: Exec, pick: Option<Exec>, t: TaskId)
    requires t in db.tasks && x.task != t
    ensures var c := ClaimTx(db, now, x.task, x.lease, pick); t in c.tasks && c.tasks[t] == db.tasks[t]
    ensures forall r :: t in CompleteTx(db, now, x, r).tasks && CompleteTx(db, now, x, r).tasks[t] == db.tasks[t]
    ensures t in FailTx(db, now, x).tasks && FailTx(db, now, x).tasks[t] == db.tasks[t]
    ensures t in RecoverTx(db, now, cfg, x.task).tasks && RecoverTx(db, now, cfg, x.task).tasks[t] == db.tasks[t]
  {
  }

  lemma StrandedRow(s: State, k: Step, s': State, t: TaskId)
    requires Stranded(s, t) && Next(s, k, s')
    ensures t in s'.db.tasks && s'.db.tasks[t] == s.db.tasks[t]
  {
    hide IsBatch, Lrem, NamedIn, Entries, RecoverVerdict, Known, LatestInflight, OutboxClaimTx, MarkTx, CleanupTx,
         ClaimTx, CompleteTx, FailTx, RecoverTx;
    if LeavesLedger(k) {
      LedgerKept(s, k, s');
    } else {
      var P := m => !About(m, t);
      CirculatesWeaken(s, m => !About(m, t), P);
      if HasActor(k) { ActorOnly(s, k.w, P); }
      match k
      case Claim(w, pick) => Elsewhere(s.db, s.now, s.cfg, Exec(Target(s, PcOf(s, w).raw), ClaimLease(s)), pick, t);
      case Complete(w, _, _) => Elsewhere(s.db, s.now, s.cfg, PcOf(s, w).exec, None, t);
      case Fail(w) => Elsewhere(s.db, s.now, s.cfg, PcOf(s, w).exec, None, t);
      case Judge(w) =>
        Tail(P, PcOf(s, w).todo);
        if PcOf(s, w).todo[0].body.Named? { Elsewhere(s.db, s.now, s.cfg, Exec(PcOf(s, w).todo[0].body.task, 0), None, t); }
      case _ =>
    }
  }

  lemma SpentRowStays(s: State, k: Step, s': State, t: TaskId)
    requires Next(s, k, s') && !LeavesOutbox(k) && t in s.h.submitted && (t.Minted? ==> t.n < s.nextId)
    requires t in s.db.outbox ==> s.db.outbox[t].deliveredAt.Some?
    ensures t in s'.db.outbox ==> s'.db.outbox[t].deliveredAt.Some?
    ensures t in s'.h.submitted
  {
    hide Lrem, NamedIn, InsertTask, ClaimTx, RecordAttemptTx, CompleteTx, FailTx, RecoverTx, ReapTx, LatestInflight, Target, Granted;
  }

  lemma StrandedOutbox(s: State, k: Step, s': State, t: TaskId)
    requires Stranded(s, t) && Next(s, k, s')
    ensures t in s'.db.outbox ==> s'.db.outbox[t].deliveredAt.Some?
    ensures s.nextId <= s'.nextId && t in s'.h.submitted
  {
    hide Apply, Enabled, Circulates;
    MintsOnly(s, k, s');
    if LeavesOutbox(k) {
      OutboxUntouched(s, k, s');
      SubmittedUntouched(s, k, s');
    } else {
      SpentRowStays(s, k, s', t);
    }
  }

  lemma ClaimElsewhere(s: State, w: WorkerId, raw: Raw, pick: Option<Exec>, t: TaskId)
    requires Stranded(s, t) && !About(raw, t) && PcOf(s, w) == Moved(raw) && (raw.body.Named? || raw.body.NoTaskId?)
    ensures var s' := ClaimStep(s, w, raw, pick);
            forall v :: v in s'.workers && s'.workers[v].Executing? ==> s'.workers[v].exec.task != t
  {
    hide ClaimTx, Circulates;
  }

  lemma StrandedWorkers(s: State, k: Step, s': State, t: TaskId)
    requires Stranded(s, t) && Next(s, k, s')
    ensures forall w :: w in s'.workers && s'.workers[w].Executing? ==> s'.workers[w].exec.task != t
  {
    if k.Claim? {
      var P := m => !About(m, t);
      CirculatesWeaken(s, m => !About(m, t), P);
      ActorOnly(s, k.w, P);
      hide ClaimStep, Circulates, LatestInflight;
      ClaimElsewhere(s, k.w, PcOf(s, k.w).raw, k.pick, t);
    } else {
      forall w | w in s'.workers && s'.workers[w].Executing? ensures s'.workers[w].exec.task != t {
        hide Next, Circulates;
        ExecutionStarts(s, k, s', w);
      }
    }
  }

  lemma StrandedStep(s: State, k: Step, s': State, t: TaskId)
    requires Stranded(s, t) && Next(s, k, s') && (k.Arrive? ==> k.raw.body != Named(t))
    ensures Stranded(s', t) && s'.db.tasks[t] == s.db.tasks[t]
  {
    StrandedRow(s, k, s', t);
    StrandedOutbox(s, k, s', t);
    StrandedWorkers(s, k, s', t);
    var P := m => !About(m, t);
    CirculatesWeaken(s, m => !About(m, t), P);
    CirculatesStep(s, k, s', P);
    CirculatesWeaken(s', P, m => !About(m, t));
  }

  lemma StrandedNext(ss: seq<State>, ks: seq<Step>, j: nat, t: TaskId)
    requires Run(ss, ks) && j < |ks| && Stranded(ss[j], t) && (ks[j].Arrive? ==> ks[j].raw.body != Named(t))
    ensures Stranded(ss[j + 1], t) && ss[j + 1].db.tasks[t] == ss[j].db.tasks[t]
  {
    hide Next;
    StrandedStep(ss[j], ks[j], ss[j + 1], t);
  }

  /** A stranded task stays running for ever: no worker, recovery pass, reaper or dispatcher can
      move it again. */
  lemma {:induction false} StrandedForever(ss: seq<State>, ks: seq<Step>, i: nat, j: nat, t: TaskId)
    requires Run(ss, ks) && i <= j < |ss| && Stranded(ss[i], t)
    requires forall n :: 0 <= n < |ks| && ks[n].Arrive? ==> ks[n].raw.body != Named(t)
    ensures Stranded(ss[j], t) && ss[j].db.tasks[t] == ss[i].db.tasks[t]
    decreases j
  {
    hide Next;
    if i < j {
      StrandedForever(ss, ks, i, j - 1, t);
      StrandedNext(ss, ks, j - 1, t);
    }
  }

  // ------------------------------------------------------------------ the two halves of R

  /** Recovery treats an entry in one piece; or it only touches deliveries left behind. */
  datatype Half = InOnePiece | LeftBehindOnly

  predicate Paired(ks: seq<Step>, i: nat)
    requires i < |ks|
  {
    && (ks[i].Judge? ==> i + 1 < |ks| && ks[i + 1] == Settle(ks[i].w))
    && (ks[i].Settle? ==> 0 < i && ks[i - 1] == Judge(ks[i].w))
  }

  /** Every judgement is carried out at once. */
  predicate Whole(ks: seq<Step>) {
    forall i: nat :: i < |ks| ==> Paired(ks, i)
  }

  /** Where recovery judges an entry and where it acts on one, a dead worker left it behind. */
  ghost predicate TouchesLeftBehind(s: State, k: Step) {
    && (k.Judge? && Enabled(s, k) && PcOf(s, k.w).todo[0].body.Named? ==>
          var raw := PcOf(s, k.w).todo[0];
          Durability.LeftBehind(s, raw, RecoverVerdict(s.db, s.now, s.cfg, raw.body.task)))
    && (k.Settle? && Enabled(s, k) ==> Durability.LeftBehind(s, PcOf(s, k.w).raw, PcOf(s, k.w).verdict))
  }

  ghost predicate AllLeftBehind(s: State, ks: seq<Step>)
    decreases |ks|
  {
    ks == [] || (Enabled(s, ks[0]) && TouchesLeftBehind(s, ks[0]) && AllLeftBehind(Apply(s, ks[0]), ks[1..]))
  }

  ghost predicate Heeds(s: State, ks: seq<Step>, half: Half) {
    match half
    case InOnePiece => Whole(ks)
    case LeftBehindOnly => AllLeftBehind(s, ks)
  }

  /** Some run under Q and C that heeds one half of R leads from s to s'. */
  ghost predicate Reaches(s: State, s': State, half: Half) {
    exists ks :: Plays(s, ks, s', true, true) && Heeds(s, ks, half)
  }

  /** Both halves together are what R asks of a recovery step. */
  lemma HalvesMakeR(s: State, w: WorkerId, mid: State, s': State)
    requires Next(s, Judge(w), mid) && PcOf(s, w).todo[0].body.Named? && Next(mid, Settle(w), s')
    ensures TouchesLeftBehind(s, Judge(w)) <==> Durability.NextR(s, Durability.Recover(w), s')
  {
  }

  lemma {:induction false} HeedsOn(s: State, ks: seq<Step>, mid: State, ls: seq<Step>)
    requires Plays(s, ks, mid, true, true) && AllLeftBehind(s, ks) && AllLeftBehind(mid, ls)
    ensures AllLeftBehind(s, ks + ls)
    decreases |ks|
  {
    hide Apply, Enabled;
    if ks == [] {
      assert ks + ls == ls;
    } else {
      HeedsOn(Apply(s, ks[0]), ks[1..], mid, ls);
      assert (ks + ls)[0] == ks[0] && (ks + ls)[1..] == ks[1..] + ls;
    }
  }

  lemma WholeJoins(ks: seq<Step>, ls: seq<Step>)
    requires Whole(ks) && Whole(ls)
    ensures Whole(ks + ls)
  {
    forall i: nat | i < |ks + ls| ensures Paired(ks + ls, i) {
      assert if i < |ks| then Paired(ks, i) else Paired(ls, i - |ks|);
    }
  }

  lemma ReachesThen(s: State, mid: State, s': State, half: Half)
    requires Reaches(s, mid, half) && Reaches(mid, s', half)
    ensures Reaches(s, s', half)
  {
    hide Plays, AllLeftBehind;
    var ks :| Plays(s, ks, mid, true, true) && Heeds(s, ks, half);
    var ls :| Plays(mid, ls, s', true, true) && Heeds(mid, ls, half);
    PlaysOn(s, ks, mid, ls, s', true, true);
    if half.InOnePiece? { WholeJoins(ks, ls); } else { HeedsOn(s, ks, mid, ls); }
    assert Heeds(s, ks + ls, half);
  }

  lemma PlaysOne(s: State, k: Step)
    requires Enabled(s, k) && LeaseOutlivesWork(s, k) && ClaimWaits(s, k)
    ensures Plays(s, [k], Apply(s, k), true, true)
    ensures TouchesLeftBehind(s, k) ==> AllLeftBehind(s, [k])
  {
    assert Plays(Apply(s, k), [], Apply(s, k), true, true);
    assert AllLeftBehind(Apply(s, k), []);
    assert [k][1..] == [];
  }

  lemma ReachesOne(s: State, k: Step, half: Half)
    requires Enabled(s, k) && LeaseOutlivesWork(s, k) && ClaimWaits(s, k)
    requires if k.Judge? || k.Settle? then half.LeftBehindOnly? && TouchesLeftBehind(s, k) else true
    ensures Reaches(s, Apply(s, k), half)
  {
    PlaysOne(s, k);
    assert Heeds(s, [k], half);
  }

  lemma ReachesPair(s: State, w: WorkerId)
    requires Enabled(s, Judge(w)) && LeaseOutlivesWork(s, Judge(w)) && PcOf(s, w).todo[0].body.Named?
    ensures Reaches(s, Apply(Apply(s, Judge(w)), Settle(w)), InOnePiece)
  {
    var mid := Apply(s, Judge(w));
    PlaysOne(s, Judge(w));
    PlaysOne(mid, Settle(w));
    PlaysOn(s, [Judge(w)], mid, [Settle(w)], Apply(mid, Settle(w)), true, true);
    assert Heeds(s, [Judge(w)] + [Settle(w)], InOnePiece);
  }

  lemma ReachesLeads(s: State, s': State, half: Half)
    requires Reaches(s, s', half)
    ensures Leads(s, s', true, true)
  {
  }

  // ------------------------------------------------------------------ runs that strand a task

  const ACCEPTED_TASK: TaskId := Minted(0)
  const REQUEST: Raw := Raw(0, Named(ACCEPTED_TASK), GigaChat)

  /** The accepted task waits to be claimed for the first time. */
  ghost predicate Waiting(s: State) {
    && s.db.tasks == map[ACCEPTED_TASK := TaskRow(0, Queued, None, None, None, None)] && s.db.attempts == map[]
    && s.db.outbox.Keys == {ACCEPTED_TASK} && s.db.outbox[ACCEPTED_TASK].deliveredAt.Some?
    && ACCEPTED_TASK in s.h.submitted && 2 <= s.nextId
  }

  /** It was claimed, and nobody committed an attempt. */
  ghost predicate Taken(s: State) {
    && s.db.tasks.Keys == {ACCEPTED_TASK} && s.db.tasks[ACCEPTED_TASK].status == Running && s.db.attempts == map[]
    && s.db.outbox.Keys == {ACCEPTED_TASK} && s.db.outbox[ACCEPTED_TASK].deliveredAt.Some?
    && ACCEPTED_TASK in s.h.submitted && 2 <= s.nextId
  }

  ghost predicate IdleBut(s: State, ws: set<WorkerId>) {
    forall w :: w !in ws ==> PcOf(s, w).Idle?
  }

  lemma Claimed0(cfg: Config, half: Half) returns (s: State)
    requires cfg.Valid()
    ensures Reaches(Init(cfg), s, half)
    ensures s.cfg == cfg && s.now == 0 && s.nextId == 2 && s.queue == [] && s.processing == []
    ensures s.db.tasks == map[ACCEPTED_TASK := TaskRow(0, Queued, None, None, None, None)] && s.db.attempts == map[]
    ensures s.db.outbox == map[ACCEPTED_TASK := OutboxRow(REQUEST, 0, None, Some(1), Some(0), 1)]
    ensures s.workers == map[0 := Dispatching(1, [Entry(ACCEPTED_TASK, REQUEST)])] && ACCEPTED_TASK in s.h.submitted
  {
    hide Plays, Reaches;
    var s1 := SubmitStep(Init(cfg), 0);
    ReachesOne(Init(cfg), Submit(0), half);
    assert EligibleSet(s1.db, s1.now, s1.cfg) == {ACCEPTED_TASK};
    assert IsBatch(s1.db, s1.now, s1.cfg, [ACCEPTED_TASK]);
    s := OutboxClaimStep(s1, 0, [ACCEPTED_TASK]);
    assert Entries(s1.db, [ACCEPTED_TASK]) == [Entry(ACCEPTED_TASK, REQUEST)];
    ReachesOne(s1, OutboxClaim(0, [ACCEPTED_TASK]), half);
    ReachesThen(Init(cfg), s1, s, half);
  }

  lemma PushAndMark(s: State, half: Half) returns (s': State)
    requires PcOf(s, 0) == Dispatching(1, [Entry(ACCEPTED_TASK, REQUEST)]) && s.queue == []
    requires Markable(s.db, ACCEPTED_TASK, 1)
    ensures Reaches(s, s', half)
    ensures s'.queue == [REQUEST] && s'.processing == s.processing && s'.nextId == s.nextId && s'.h.submitted == s.h.submitted
    ensures s'.db == MarkTx(s.db, s.now, ACCEPTED_TASK, 1) && s'.workers == s.workers[0 := Idle] && s'.now == s.now && s'.cfg == s.cfg
  {
    hide Plays, Reaches;
    var mid := PublishStep(s, 0, 1, Entry(ACCEPTED_TASK, REQUEST), []);
    assert [Entry(ACCEPTED_TASK, REQUEST)][1..] == [];
    ReachesOne(s, Publish(0), half);
    s' := MarkStep(mid, 0, 1, ACCEPTED_TASK, []);
    ReachesOne(mid, Mark(0), half);
    ReachesThen(s, mid, s', half);
  }

  /** The submitted request is in the task list and its outbox row is acknowledged. */
  lemma Dispatched(cfg: Config, half: Half) returns (s: State)
    requires cfg.Valid()
    ensures Reaches(Init(cfg), s, half)
    ensures Waiting(s) && s.queue == [REQUEST] && s.processing == [] && s.now == 0 && s.cfg == cfg && IdleBut(s, {})
  {
    hide Apply, Enabled, Plays, Reaches;
    var mid := Claimed0(cfg, half);
    s := PushAndMark(mid, half);
    ReachesThen(Init(cfg), mid, s, half);
  }

  lemma Take(s: State, w: WorkerId, half: Half) returns (s': State)
    requires PcOf(s, w).Idle? && s.queue == [REQUEST] && s.processing == []
    ensures Reaches(s, s', half) && s' == At(s.(queue := [], processing := [REQUEST]), w, Moved(REQUEST))
  {
    hide Plays, Reaches;
    ReachesOne(s, Move(w), half);
    s' := At(s.(queue := [], processing := [REQUEST]), w, Moved(REQUEST));
    assert s' == MoveStep(s, w);
  }

  lemma ScanOne(s: State, w: WorkerId, half: Half) returns (s': State)
    requires PcOf(s, w).Idle? && s.processing == [REQUEST]
    ensures Reaches(s, s', half) && s' == At(s, w, Recovering([REQUEST]))
  {
    hide Plays, Reaches;
    ReachesOne(s, Scan(w), half);
    s' := At(s, w, Recovering([REQUEST]));
  }

  /** Worker 1 claims the task and dies before it commits an attempt. */
  lemma ClaimAndDie(s: State, half: Half) returns (s': State)
    requires Waiting(s) && PcOf(s, 1) == Moved(REQUEST)
    ensures Reaches(s, s', half)
    ensures Taken(s') && s'.queue == s.queue && s'.processing == s.processing && PcOf(s', 1).Idle?
    ensures forall w :: w != 1 ==> PcOf(s', w) == PcOf(s, w)
  {
    hide Plays, Reaches;
    var mid := ClaimStep(s, 1, REQUEST, None);
    ReachesOne(s, Claim(1, None), half);
    s' := StopStep(mid, 1, PcOf(mid, 1));
    ReachesOne(mid, Stop(1), half);
    ReachesThen(s, mid, s', half);
  }

  /** Worker 2 finds the row running, takes the delivery for a duplicate and acknowledges it. */
  lemma TakenForDuplicate(s: State, half: Half) returns (s': State)
    requires Taken(s) && s.queue == [REQUEST] && s.processing == [] && IdleBut(s, {})
    ensures Reaches(s, s', half) && Stranded(s', ACCEPTED_TASK)
  {
    hide Plays, Reaches, Stranded;
    var s1 := Take(s, 2, half);
    var s2 := ClaimStep(s1, 2, REQUEST, None);
    ReachesOne(s1, Claim(2, None), half);
    ReachesThen(s, s1, s2, half);
    s' := At(RemoveProcessing(s2, REQUEST), 2, Idle);
    ReachesOne(s2, Ack(2), half);
    ReachesThen(s, s2, s', half);
    assert Lrem([REQUEST], REQUEST) == [];
    forall w ensures PcOf(s', w).Idle? {
      assert PcOf(s, w).Idle?;
    }
    NothingLeft(s');
  }

  lemma NothingLeft(s: State)
    requires Taken(s) && s.queue == [] && s.processing == [] && IdleBut(s, {})
    ensures Stranded(s, ACCEPTED_TASK)
  {
    forall w | w in s.workers ensures s.workers[w].Idle? {
      assert PcOf(s, w).Idle?;
    }
  }

  // ------------------------------------------------------------------ in one piece, but under a live worker

  /** Worker 1 takes the delivery; worker 3 judges it and requeues it at once. */
  lemma RequeuedUnderLiveWorker(s: State) returns (s': State)
    requires Waiting(s) && s.queue == [REQUEST] && s.processing == [] && IdleBut(s, {})
    ensures Reaches(s, s', InOnePiece)
    ensures Waiting(s') && s'.queue == [REQUEST] && s'.processing == [] && PcOf(s', 1) == Moved(REQUEST) && IdleBut(s', {1})
  {
    hide Plays, Reaches;
    assert PcOf(s, 1).Idle? && PcOf(s, 3).Idle?;
    var s1 := Take(s, 1, InOnePiece);
    var s2 := ScanOne(s1, 3, InOnePiece);
    ReachesThen(s, s1, s2, InOnePiece);
    s' := JudgedAndSettled(s2);
    ReachesThen(s, s2, s', InOnePiece);
    forall w | w !in {1} ensures PcOf(s', w).Idle? {
      assert PcOf(s, w).Idle?;
    }
  }

  lemma JudgedAndSettled(s: State) returns (s': State)
    requires Waiting(s) && s.queue == [] && s.processing == [REQUEST] && PcOf(s, 3) == Recovering([REQUEST])
    ensures Reaches(s, s', InOnePiece) && Waiting(s') && s'.queue == [REQUEST] && s'.processing == []
    ensures s'.workers == s.workers[3 := Idle]
  {
    hide Plays, Reaches;
    ReachesPair(s, 3);
    var mid := JudgeStep(s, 3, REQUEST, []);
    assert [REQUEST][1..] == [];
    assert mid == Apply(s, Judge(3));
    s' := At(SettleLists(mid, REQUEST, Requeue), 3, Idle);
    assert s'.workers == s.workers[3 := Idle];
    assert Lrem([REQUEST], REQUEST) == [];
  }

  /** Treating entries in one piece is not enough: the requeued delivery of a live worker comes
      back as a duplicate of itself, and is acknowledged after that worker died. */
  lemma WithoutLeftBehind(cfg: Config) returns (s: State)
    requires cfg.Valid()
    ensures Reaches(Init(cfg), s, InOnePiece) && Stranded(s, ACCEPTED_TASK)
  {
    hide Apply, Enabled, Plays, Reaches, Stranded;
    var s1 := Dispatched(cfg, InOnePiece);
    var s2 := RequeuedUnderLiveWorker(s1);
    ReachesThen(Init(cfg), s1, s2, InOnePiece);
    var s3 := ClaimAndDie(s2, InOnePiece);
    ReachesThen(Init(cfg), s2, s3, InOnePiece);
    s := TakenForDuplicate(s3, InOnePiece);
    ReachesThen(Init(cfg), s3, s, InOnePiece);
  }

  // ------------------------------------------------------------------ left behind, but in two pieces

  lemma OneSpare(s: State)
    requires s.processing == [REQUEST] && forall w :: !Durability.Carries(PcOf(s, w), REQUEST)
    ensures Durability.Spare(s, REQUEST) == 1
  {
    forall w | w in s.workers ensures !Durability.Carries(s.workers[w], REQUEST) {
      assert !Durability.Carries(PcOf(s, w), REQUEST);
    }
    assert Durability.Carriers(s, REQUEST) == {};
  }

  /** Worker w judges a delivery that was left behind. */
  lemma JudgeLeftBehind(s: State, w: WorkerId) returns (s': State)
    requires Waiting(s) && s.processing == [REQUEST] && PcOf(s, w).Idle?
    requires forall v :: !Durability.Carries(PcOf(s, v), REQUEST)
    ensures Reaches(s, s', LeftBehindOnly) && Waiting(s')
    ensures s'.queue == s.queue && s'.processing == [REQUEST] && s'.workers == s.workers[w := Judged(REQUEST, Requeue, [])]
  {
    hide Plays, Reaches;
    var mid := ScanOne(s, w, LeftBehindOnly);
    forall v ensures !Durability.Carries(PcOf(mid, v), REQUEST) {
      assert !Durability.Carries(PcOf(s, v), REQUEST);
    }
    OneSpare(mid);
    s' := JudgeStep(mid, w, REQUEST, []);
    assert [REQUEST][1..] == [];
    ReachesOne(mid, Judge(w), LeftBehindOnly);
    ReachesThen(s, mid, s', LeftBehindOnly);
    assert s'.workers == s.workers[w := Judged(REQUEST, Requeue, [])];
  }

  /** Worker w requeues it, now or later. */
  lemma RequeueLeftBehind(s: State, w: WorkerId) returns (s': State)
    requires s.queue == [] && s.processing == [REQUEST] && PcOf(s, w) == Judged(REQUEST, Requeue, [])
    requires forall v :: !Durability.Carries(PcOf(s, v), REQUEST)
    ensures Reaches(s, s', LeftBehindOnly)
    ensures s' == At(s.(queue := [REQUEST], processing := []), w, Idle)
  {
    hide Plays, Reaches;
    OneSpare(s);
    assert Lrem([REQUEST], REQUEST) == [];
    ReachesOne(s, Settle(w), LeftBehindOnly);
    s' := At(s.(queue := [REQUEST], processing := []), w, Idle);
    assert s' == At(SettleLists(s, REQUEST, Requeue), w, Idle);
  }

  /** Worker 1 takes the delivery and dies; both 3 and 4 judge it, 4 requeues it. */
  lemma JudgedTwice(s: State) returns (s': State)
    requires Waiting(s) && s.queue == [REQUEST] && s.processing == [] && IdleBut(s, {})
    ensures Reaches(s, s', LeftBehindOnly)
    ensures Waiting(s') && s'.queue == [REQUEST] && s'.processing == []
    ensures PcOf(s', 3) == Judged(REQUEST, Requeue, []) && IdleBut(s', {3})
  {
    hide Apply, Enabled, Plays, Reaches;
    assert forall w :: PcOf(s, w).Idle?;
    var s1 := Take(s, 1, LeftBehindOnly);
    var s2 := DieMoved(s1);
    ReachesThen(s, s1, s2, LeftBehindOnly);
    assert forall w :: PcOf(s2, w).Idle? by { forall w ensures PcOf(s2, w).Idle? { assert PcOf(s, w).Idle?; } }
    var s3 := JudgeLeftBehind(s2, 3);
    ReachesThen(s, s2, s3, LeftBehindOnly);
    assert forall w :: w != 3 ==> PcOf(s3, w) == PcOf(s2, w);
    var s4 := JudgeLeftBehind(s3, 4);
    ReachesThen(s, s3, s4, LeftBehindOnly);
    assert forall w :: w != 4 ==> PcOf(s4, w) == PcOf(s3, w);
    s' := RequeueLeftBehind(s4, 4);
    ReachesThen(s, s4, s', LeftBehindOnly);
    assert forall w :: w != 4 ==> PcOf(s', w) == PcOf(s4, w);
  }

  lemma DieMoved(s: State) returns (s': State)
    requires PcOf(s, 1) == Moved(REQUEST)
    ensures Reaches(s, s', LeftBehindOnly) && s' == At(s, 1, Idle)
  {
    hide Plays, Reaches;
    ReachesOne(s, Stop(1), LeftBehindOnly);
    s' := At(s, 1, Idle);
  }

  /** Touching only what dead workers left behind is not enough: between the judgement and the
      requeue another worker may claim the task and die. */
  lemma WithoutOnePiece(cfg: Config) returns (s: State)
    requires cfg.Valid()
    ensures Reaches(Init(cfg), s, LeftBehindOnly) && Stranded(s, ACCEPTED_TASK)
  {
    hide Apply, Enabled, Plays, Reaches, Stranded;
    var s1 := Dispatched(cfg, LeftBehindOnly);
    var s2 := JudgedTwice(s1);
    ReachesThen(Init(cfg), s1, s2, LeftBehindOnly);
    var s3 := ClaimedMeanwhile(s2);
    ReachesThen(Init(cfg), s2, s3, LeftBehindOnly);
    s := TakenForDuplicate(s3, LeftBehindOnly);
    ReachesThen(Init(cfg), s3, s, LeftBehindOnly);
  }

  /** Worker 1 claims and dies; worker 3 carries out its old judgement. */
  lemma ClaimedMeanwhile(s: State) returns (s': State)
    requires Waiting(s) && s.queue == [REQUEST] && s.processing == []
    requires PcOf(s, 3) == Judged(REQUEST, Requeue, []) && IdleBut(s, {3})
    ensures Reaches(s, s', LeftBehindOnly)
    ensures Taken(s') && s'.queue == [REQUEST] && s'.processing == [] && IdleBut(s', {})
  {
    hide Apply, Enabled, Plays, Reaches;
    assert PcOf(s, 1).Idle?;
    var s1 := Take(s, 1, LeftBehindOnly);
    assert forall w :: w != 1 ==> PcOf(s1, w) == PcOf(s, w);
    var s2 := ClaimAndDie(s1, LeftBehindOnly);
    ReachesThen(s, s1, s2, LeftBehindOnly);
    forall w ensures !Durability.Carries(PcOf(s2, w), REQUEST) {
      assert w != 1 && w != 3 ==> PcOf(s, w).Idle?;
    }
    s' := RequeueLeftBehind(s2, 3);
    ReachesThen(s, s2, s', LeftBehindOnly);
    forall w ensures PcOf(s', w).Idle? {
      assert w != 1 && w != 3 ==> PcOf(s, w).Idle?;
    }
  }

  /** So without R, even with Q and C, an accepted and dispatched task can be stranded. */
  lemma WithoutR(cfg: Config) returns (s: State)
    requires cfg.Valid()
    ensures Leads(Init(cfg), s, true, true) && Stranded(s, ACCEPTED_TASK)
  {
    s := WithoutLeftBehind(cfg);
    ReachesLeads(Init(cfg), s, InOnePiece);
  }
}
