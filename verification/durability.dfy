/** No accepted task is lost, when recovery only touches deliveries nobody is working on. */
module Durability {
  import opened Wrappers
  import opened Protocol
  import opened Receipts
  import opened Lifecycle
  import opened Outbox
  import opened Deliveries
  import opened Identifiers

  // ------------------------------------------------------------------ run hypothesis R

  predicate Carries(pc: Pc, m: Raw) {
    (pc.Moved? || pc.Executing? || pc.Acking?) && pc.raw == m
  }

  /** The live workers that each took one occurrence of m off the task list. */
  function Carriers(s: State, m: Raw): set<WorkerId> {
    set w | w in s.workers && Carries(s.workers[w], m)
  }

  /** Occurrences of m in the processing list whose worker died or returned False. */
  function Spare(s: State, m: Raw): int {
    multiset(s.processing)[m] - |Carriers(s, m)|
  }

  /** R: recovery treats an entry in one piece, and requeues or removes it only when a dead
      worker left an occurrence of it behind. */
  datatype RStep = Plain(k: Step) | Recover(w: WorkerId)

  ghost predicate LeftBehind(s: State, raw: Raw, verdict: Verdict) {
    match verdict
    case Requeue => Spare(s, raw) > 0
    case Settled => Spare(s, raw) > 0 || raw !in s.processing
    case Leave => true
  }

  ghost predicate NextR(s: State, r: RStep, s': State) {
    match r
    case Plain(k) => !k.Judge? && !k.Settle? && Next(s, k, s')
    case Recover(w) =>
      && Enabled(s, Judge(w))
      && var raw := PcOf(s, w).todo[0];
         var mid := Apply(s, Judge(w));
         if raw.body.Named?
         then Next(mid, Settle(w), s') && LeftBehind(s, raw, RecoverVerdict(s.db, s.now, s.cfg, raw.body.task))
         else s' == mid
  }

  ghost predicate RunR(cfg: Config, ss: seq<State>, rs: seq<RStep>) {
    && |ss| == |rs| + 1 && ss[0] == Init(cfg)
    && forall i :: 0 <= i < |rs| ==> NextR(ss[i], rs[i], ss[i + 1])
  }

  // ------------------------------------------------------------------ what keeps a task alive

  ghost predicate QueuedFor(s: State, t: TaskId) {
    exists m :: m in s.queue && m.body == Named(t)
  }

  ghost predicate MovedFor(s: State, t: TaskId) {
    exists w :: w in s.workers && s.workers[w].Moved? && s.workers[w].raw.body == Named(t)
  }

  ghost predicate SpareFor(s: State, t: TaskId) {
    exists m: Raw :: m.body == Named(t) && Spare(s, m) > 0
  }

  ghost predicate ExecutedFor(s: State, t: TaskId) {
    && t in s.db.tasks
    && exists w :: w in s.workers && s.workers[w].Executing? && s.workers[w].exec.task == t && Holds(s.db.tasks[t], s.workers[w].exec.lease)
  }

  /** A running task is executed by its lease holder, or a delivery of it was left behind for
      recovery; a queued task has a delivery ahead of a claim, or was never pushed. */
  ghost predicate Supported(s: State, t: TaskId) {
    && t in s.db.tasks
    && (s.db.tasks[t].status == Running ==> ExecutedFor(s, t) || SpareFor(s, t))
    && (s.db.tasks[t].status == Queued ==> QueuedFor(s, t) || MovedFor(s, t) || SpareFor(s, t) || !WasPushed(s, t))
  }

  /** A worker executes the task its delivery names; anonymous deliveries get ids of their own. */
  ghost predicate CarrierOk(s: State, pc: Pc) {
    pc.Executing? ==>
      pc.raw.body == Named(pc.exec.task) ||
      (pc.raw.body.NoTaskId? && pc.exec.task.Minted? && pc.exec.task.n < s.nextId && pc.exec.task !in s.h.submitted)
  }

  ghost predicate NoneShort(s: State) {
    forall m: Raw :: m.body.Named? ==> Spare(s, m) >= 0
  }

  ghost predicate Durable(s: State) {
    && (forall w :: w in s.workers ==> CarrierOk(s, s.workers[w]) && !s.workers[w].Judged?)
    && NoneShort(s)
    && (forall t :: t in s.h.submitted ==> Supported(s, t))
  }

  // ------------------------------------------------------------------ counting carriers

  lemma CarriersChange(s: State, s': State, w: WorkerId, pc: Pc, m: Raw)
    requires s'.workers == s.workers[w := pc]
    ensures |Carriers(s', m)| == |Carriers(s, m)| + (if Carries(pc, m) then 1 else 0) - (if Carries(PcOf(s, w), m) then 1 else 0)
  {
    if Carries(pc, m) {
      assert Carriers(s', m) == Carriers(s, m) + {w};
    } else {
      assert Carriers(s', m) == Carriers(s, m) - {w};
    }
  }

  /** Evidence for t survives a step of w that leaves t's row alone. */
  lemma SupportKept(s: State, s': State, w: WorkerId, pc: Pc, t: TaskId)
    requires Supported(s, t) && s'.workers == s.workers[w := pc]
    requires t in s'.db.tasks && s'.db.tasks[t] == s.db.tasks[t]
    requires forall m: Raw :: m.body == Named(t) ==> Spare(s', m) >= Spare(s, m)
    requires forall m :: m in s.queue && m.body == Named(t) ==> m in s'.queue || pc == Moved(m)
    requires PcOf(s, w).Moved? && PcOf(s, w).raw.body == Named(t) && s.db.tasks[t].status == Queued ==> SpareFor(s', t)
    requires PcOf(s, w).Executing? && PcOf(s, w).exec.task == t && Holds(s.db.tasks[t], PcOf(s, w).exec.lease) ==>
               (pc.Executing? && pc.exec == PcOf(s, w).exec) || SpareFor(s', t)
    requires WasPushed(s', t) ==> WasPushed(s, t) || QueuedFor(s', t)
    ensures Supported(s', t)
  {
    if SpareFor(s, t) {
      var m: Raw :| m.body == Named(t) && Spare(s, m) > 0;
      assert Spare(s', m) > 0;
    }
    if MovedFor(s, t) && s.db.tasks[t].status == Queued {
      var v :| v in s.workers && s.workers[v].Moved? && s.workers[v].raw.body == Named(t);
      assert v in s'.workers && (v != w ==> s'.workers[v] == s.workers[v]);
      assert MovedFor(s', t) || SpareFor(s', t);
    }
    if ExecutedFor(s, t) {
      var v :| v in s.workers && s.workers[v].Executing? && s.workers[v].exec.task == t && Holds(s.db.tasks[t], s.workers[v].exec.lease);
      assert v in s'.workers && (v != w ==> s'.workers[v] == s.workers[v]);
      assert ExecutedFor(s', t) || SpareFor(s', t);
    }
    if QueuedFor(s, t) {
      var m :| m in s.queue && m.body == Named(t);
      assert m in s'.queue || s'.workers[w] == Moved(m);
      assert QueuedFor(s', t) || MovedFor(s', t);
    }
  }

  ghost predicate WorkersOk(s: State) {
    forall w :: w in s.workers ==> CarrierOk(s, s.workers[w]) && !s.workers[w].Judged?
  }

  lemma WorkersMove(s: State, s': State, w: WorkerId, pc: Pc)
    requires WorkersOk(s) && s'.workers == s.workers[w := pc] && s.nextId <= s'.nextId
    requires s'.h.submitted == s.h.submitted && CarrierOk(s', pc) && !pc.Judged?
    ensures WorkersOk(s')
  {
  }

  /** Processing list untouched, w goes on carrying what it carried. */
  lemma SpareSame(s: State, s': State, w: WorkerId, pc: Pc)
    requires s'.workers == s.workers[w := pc] && s'.processing == s.processing
    requires forall m: Raw :: m.body.Named? ==> (Carries(pc, m) <==> Carries(PcOf(s, w), m))
    ensures forall m: Raw :: m.body.Named? ==> Spare(s', m) == Spare(s, m)
  {
    forall m: Raw | m.body.Named? ensures Spare(s', m) == Spare(s, m) {
      CarriersChange(s, s', w, pc, m);
    }
  }

  lemma DurableMove(s: State, w: WorkerId, s': State)
    requires Durable(s) && PcOf(s, w).Idle? && s.queue != [] && s' == MoveStep(s, w)
    ensures Durable(s')
  {
    var raw := s.queue[0];
    WorkersMove(s, s', w, Moved(raw));
    assert s.queue == [raw] + s.queue[1..];
    forall m: Raw ensures Spare(s', m) == Spare(s, m) {
      CarriersChange(s, s', w, Moved(raw), m);
    }
    forall t | t in s'.h.submitted ensures Supported(s', t) {
      SupportKept(s, s', w, Moved(raw), t);
    }
  }

  lemma DurableClaim(s: State, w: WorkerId, raw: Raw, pick: Option<Exec>, s': State)
    requires Durable(s) && Logs(s) && PcOf(s, w) == Moved(raw) && (raw.body.Named? || raw.body.NoTaskId?)
    requires s' == ClaimStep(s, w, raw, pick)
    ensures Durable(s')
  {
    var pc := s'.workers[w];
    WorkersMove(s, s', w, pc);
    SpareSame(s, s', w, pc);
    forall t | t in s'.h.submitted ensures Supported(s', t) {
      if t == Target(s, raw) {
        assert t in s.db.tasks;
        ClaimSupports(s, w, raw, pick, s');
      } else {
        SupportKept(s, s', w, pc, t);
      }
    }
  }

  lemma ClaimSupports(s: State, w: WorkerId, raw: Raw, pick: Option<Exec>, s': State)
    requires PcOf(s, w) == Moved(raw) && s' == ClaimStep(s, w, raw, pick) && Supported(s, Target(s, raw))
    requires forall m: Raw :: m.body.Named? ==> Spare(s', m) == Spare(s, m)
    ensures Supported(s', Target(s, raw))
  {
    var t := Target(s, raw);
    if s.db.tasks[t].status == Queued {
      if pick.None? {
        assert s'.workers[w] == Executing(raw, Exec(t, ClaimLease(s)), Claimed);
        assert ExecutedFor(s', t);
      }
    } else if s.db.tasks[t].status == Running {
      SupportKept(s, s', w, s'.workers[w], t);
    }
  }

  /** A lease holder's steps that keep its delivery: attempt, call, completion, exception, failure. */
  lemma DurableWork(s: State, w: WorkerId, pc: Pc, s': State)
    requires Durable(s) && PcOf(s, w).Executing? && TxMoves(s.db, s'.db)
    requires s'.workers == s.workers[w := pc] && ((pc.Executing? && pc == PcOf(s, w).(phase := pc.phase)) || pc == Acking(PcOf(s, w).raw))
    requires s'.processing == s.processing && s'.queue == s.queue && s'.nextId == s.nextId
    requires s'.h.submitted == s.h.submitted && s'.h.pushes == s.h.pushes
    requires forall t :: t in s.db.tasks && s'.db.tasks[t] != s.db.tasks[t] ==> Terminal(s'.db.tasks[t])
    requires pc.Acking? ==>
               var x := PcOf(s, w).exec; x.task in s.db.tasks && Holds(s.db.tasks[x.task], x.lease) ==> Terminal(s'.db.tasks[x.task])
    ensures Durable(s')
  {
    WorkersMove(s, s', w, pc);
    SpareSame(s, s', w, pc);
    forall t | t in s'.h.submitted ensures Supported(s', t) {
      if s'.db.tasks[t] == s.db.tasks[t] { SupportKept(s, s', w, pc, t); }
    }
  }

  /** A delivery a dead worker carried stays behind for recovery. */
  lemma DurableStop(s: State, w: WorkerId, s': State)
    requires Durable(s) && s' == StopStep(s, w, PcOf(s, w))
    ensures Durable(s')
  {
    WorkersMove(s, s', w, Idle);
    forall m: Raw ensures Spare(s', m) == Spare(s, m) + (if Carries(PcOf(s, w), m) then 1 else 0) {
      CarriersChange(s, s', w, Idle, m);
    }
    forall t | t in s'.h.submitted ensures Supported(s', t) {
      if PcOf(s, w).Executing? && PcOf(s, w).exec.task == t {
        assert PcOf(s, w).raw.body == Named(t);
      }
      if (PcOf(s, w).Moved? || PcOf(s, w).Executing?) && PcOf(s, w).raw.body == Named(t) {
        assert Spare(s', PcOf(s, w).raw) > 0;
      }
      SupportKept(s, s', w, Idle, t);
    }
  }

  /** The occurrence a worker acknowledges is the one it carried. */
  lemma AckKeepsSpare(s: State, w: WorkerId, raw: Raw, s': State, m: Raw)
    requires PcOf(s, w) == Acking(raw) && s' == At(RemoveProcessing(s, raw), w, Idle)
    requires m == raw ==> Spare(s, m) >= 0
    ensures Spare(s', m) == Spare(s, m)
  {
    LremCounts(s.processing, raw);
    CarriersChange(s, s', w, Idle, m);
    hide Lrem;
    if m == raw {
      assert w in Carriers(s, m);
    }
  }

  lemma DurableAck(s: State, w: WorkerId, raw: Raw, s': State)
    requires Durable(s) && PcOf(s, w) == Acking(raw) && s' == At(RemoveProcessing(s, raw), w, Idle)
    ensures Durable(s')
  {
    assert forall t :: t in s.h.submitted ==> Supported(s, t) && t in s.db.tasks;
    hide Lrem, Spare, Supported;
    WorkersMove(s, s', w, Idle);
    forall m: Raw | m.body.Named? ensures Spare(s', m) == Spare(s, m) {
      AckKeepsSpare(s, w, raw, s', m);
    }
    forall t | t in s'.h.submitted ensures Supported(s', t) {
      assert Supported(s, t);
      SupportKept(s, s', w, Idle, t);
    }
  }

  lemma DurableReap(s: State, w: WorkerId, seen: set<TaskId>, s': State)
    requires Durable(s) && PcOf(s, w).ReapReady? && s' == At(s.(db := ReapTx(s.db, s.now, s.cfg, seen)), w, Idle)
    ensures Durable(s')
  {
    WorkersMove(s, s', w, Idle);
    SpareSame(s, s', w, Idle);
    forall t | t in s'.h.submitted ensures Supported(s', t) {
      if s'.db.tasks[t] == s.db.tasks[t] { SupportKept(s, s', w, Idle, t); }
    }
  }

  lemma DurableSubmit(s: State, text: nat, s': State)
    requires Durable(s) && Logs(s) && WellMinted(s) && s' == SubmitStep(s, text)
    ensures Durable(s')
  {
    var t0 := Minted(s.nextId);
    forall m: Raw ensures Spare(s', m) == Spare(s, m) {
      assert Carriers(s', m) == Carriers(s, m);
    }
    forall t | t in s'.h.submitted ensures Supported(s', t) {
      if t == t0 {
        assert t !in s.db.tasks;
        assert !WasPushed(s', t);
      } else {
        SupportStays(s, s', t);
      }
    }
  }

  /** Evidence for t survives a step that leaves workers and the processing list alone. */
  lemma SupportStays(s: State, s': State, t: TaskId)
    requires Supported(s, t) && t in s'.db.tasks && s'.db.tasks[t] == s.db.tasks[t] && s'.workers == s.workers
    requires forall m: Raw :: Spare(s', m) == Spare(s, m)
    requires forall m :: m in s.queue ==> m in s'.queue
    requires WasPushed(s', t) ==> WasPushed(s, t)
    ensures Supported(s', t)
  {
    if SpareFor(s, t) {
      var m: Raw :| m.body == Named(t) && Spare(s, m) > 0;
      assert Spare(s', m) > 0;
    }
    if QueuedFor(s, t) {
      var m :| m in s.queue && m.body == Named(t);
      assert m in s'.queue;
    }
    if MovedFor(s, t) {
      var v :| v in s.workers && s.workers[v].Moved? && s.workers[v].raw.body == Named(t);
      assert s'.workers[v].Moved?;
    }
    if ExecutedFor(s, t) {
      var v :| v in s.workers && s.workers[v].Executing? && s.workers[v].exec.task == t && Holds(s.db.tasks[t], s.workers[v].exec.lease);
      assert s'.workers[v].Executing?;
    }
  }

  lemma DurableBookkeeping(s: State, k: Step, s': State)
    requires Durable(s) && Next(s, k, s') && (k.Tick? || k.Arrive? || k.Cleanup?)
    ensures Durable(s')
  {
    assert s'.workers == s.workers && s'.processing == s.processing && s'.db.tasks == s.db.tasks;
    forall m: Raw ensures Spare(s', m) == Spare(s, m) {
      assert Carriers(s', m) == Carriers(s, m);
    }
    forall t | t in s'.h.submitted ensures Supported(s', t) {
      SupportStays(s, s', t);
    }
  }

  /** Reading the lists, dispatching, burying: no row moves, no delivery changes hands. */
  predicate Watches(k: Step) {
    k.Bury? || k.Scan? || k.ReapScan? || k.ReapScanMore? || k.OutboxClaim? || k.Publish? || k.Mark? || k.Drop?
  }

  lemma WatchFrame(s: State, k: Step, s': State)
    requires Next(s, k, s') && Watches(k)
    ensures s'.db.tasks == s.db.tasks && s'.processing == s.processing && s'.h.submitted == s.h.submitted && s.nextId <= s'.nextId
    ensures s'.workers == s.workers[k.w := PcOf(s', k.w)]
    ensures !PcOf(s', k.w).Executing? && !PcOf(s', k.w).Moved? && !PcOf(s', k.w).Judged? && !PcOf(s, k.w).Executing?
    ensures forall m: Raw :: m.body.Named? ==> (Carries(PcOf(s', k.w), m) <==> Carries(PcOf(s, k.w), m))
    ensures PcOf(s, k.w).Moved? ==> !PcOf(s, k.w).raw.body.Named?
  {
  }

  lemma WatchQueue(s: State, k: Step, s': State, t: TaskId)
    requires Next(s, k, s') && Watches(k)
    ensures forall m :: m in s.queue ==> m in s'.queue
    ensures WasPushed(s', t) ==> WasPushed(s, t) || QueuedFor(s', t)
  {
    if k.Publish? {
      var entry := PcOf(s, k.w).rest[0];
      assert s'.queue == s.queue + [entry.payload] && s'.h.pushes == s.h.pushes + [(entry.task, PcOf(s, k.w).claim)];
      assert entry.payload in s'.queue;
      if WasPushed(s', t) && t != entry.task {
        var p :| p in s'.h.pushes && p.0 == t;
        assert p in s.h.pushes;
      }
    } else {
      assert s'.queue == s.queue && s'.h.pushes == s.h.pushes;
    }
  }

  lemma DurableWatch(s: State, k: Step, s': State)
    requires Durable(s) && Next(s, k, s') && Watches(k)
    ensures Durable(s')
  {
    WatchFrame(s, k, s');
    WorkersMove(s, s', k.w, PcOf(s', k.w));
    SpareSame(s, s', k.w, PcOf(s', k.w));
    forall t | t in s'.h.submitted ensures Supported(s', t) {
      WatchQueue(s, k, s', t);
      SupportKept(s, s', k.w, PcOf(s', k.w), t);
    }
  }

  // ------------------------------------------------------------------ recovery in one piece

  /** Requeueing a delivery somebody left behind makes its task queued with a delivery ahead. */
  lemma DurableRequeue(s: State, w: WorkerId, raw: Raw, todo: seq<Raw>, s': State)
    requires Durable(s) && PcOf(s, w).Recovering? && raw.body.Named? && Spare(s, raw) > 0
    requires RecoverVerdict(s.db, s.now, s.cfg, raw.body.task) == Requeue
    requires s' == At(SettleLists(s.(db := RecoverTx(s.db, s.now, s.cfg, raw.body.task)), raw, Requeue), w, RecoverPc(todo))
    ensures Durable(s')
  {
    var pc := RecoverPc(todo);
    assert raw in s.processing;
    LremCounts(s.processing, raw);
    WorkersMove(s, s', w, pc);
    forall m: Raw ensures Spare(s', m) == Spare(s, m) - (if m == raw then 1 else 0) {
      CarriersChange(s, s', w, pc, m);
    }
    forall t | t in s'.h.submitted ensures Supported(s', t) {
      if t == raw.body.task {
        assert raw in s'.queue;
      } else {
        SupportKept(s, s', w, pc, t);
      }
    }
  }

  lemma DurableSettled(s: State, w: WorkerId, raw: Raw, todo: seq<Raw>, s': State)
    requires Durable(s) && PcOf(s, w).Recovering? && raw.body.Named?
    requires raw.body.task in s.db.tasks && Terminal(s.db.tasks[raw.body.task])
    requires Spare(s, raw) > 0 || raw !in s.processing
    requires s' == At(RemoveProcessing(s, raw), w, RecoverPc(todo))
    ensures Durable(s')
  {
    var pc := RecoverPc(todo);
    LremCounts(s.processing, raw);
    WorkersMove(s, s', w, pc);
    forall m: Raw ensures Spare(s', m) == Spare(s, m) - (if m == raw && raw in s.processing then 1 else 0) {
      CarriersChange(s, s', w, pc, m);
    }
    forall t | t in s'.h.submitted ensures Supported(s', t) {
      if t != raw.body.task {
        SupportKept(s, s', w, pc, t);
      }
    }
  }

  lemma DurableDeadLetter(s: State, w: WorkerId, raw: Raw, todo: seq<Raw>, s': State)
    requires Durable(s) && PcOf(s, w).Recovering? && !raw.body.Named? && s' == JudgeStep(s, w, raw, todo)
    ensures Durable(s')
  {
    var pc := RecoverPc(todo);
    LremCounts(s.processing, raw);
    WorkersMove(s, s', w, pc);
    forall m: Raw | m.body.Named? ensures Spare(s', m) == Spare(s, m) {
      CarriersChange(s, s', w, pc, m);
    }
    forall t | t in s'.h.submitted ensures Supported(s', t) {
      SupportKept(s, s', w, pc, t);
    }
  }

  lemma DurableRecover(s: State, w: WorkerId, s': State)
    requires Durable(s) && NextR(s, Recover(w), s')
    ensures Durable(s')
  {
    var raw, todo := PcOf(s, w).todo[0], PcOf(s, w).todo[1..];
    if !raw.body.Named? {
      DurableDeadLetter(s, w, raw, todo, s');
    } else {
      RecoverInOnePiece(s, w, s');
      var verdict := RecoverVerdict(s.db, s.now, s.cfg, raw.body.task);
      match verdict
      case Requeue => DurableRequeue(s, w, raw, todo, s');
      case Settled => DurableSettled(s, w, raw, todo, s');
      case Leave =>
        WorkersMove(s, s', w, RecoverPc(todo));
        SpareSame(s, s', w, RecoverPc(todo));
        forall t | t in s'.h.submitted ensures Supported(s', t) {
          SupportKept(s, s', w, RecoverPc(todo), t);
        }
    }
  }

  lemma RecoverInOnePiece(s: State, w: WorkerId, s': State)
    requires NextR(s, Recover(w), s') && PcOf(s, w).todo[0].body.Named?
    ensures var raw := PcOf(s, w).todo[0];
            s' == At(SettleLists(s.(db := RecoverTx(s.db, s.now, s.cfg, raw.body.task)), raw,
                                 RecoverVerdict(s.db, s.now, s.cfg, raw.body.task)),
                     w, RecoverPc(PcOf(s, w).todo[1..]))
  {
    var raw := PcOf(s, w).todo[0];
    var verdict := RecoverVerdict(s.db, s.now, s.cfg, raw.body.task);
    var mid := Apply(s, Judge(w));
    assert PcOf(mid, w) == Judged(raw, verdict, PcOf(s, w).todo[1..]);
    assert s'.workers == s.workers[w := RecoverPc(PcOf(s, w).todo[1..])];
  }

  lemma WorkFrame(s: State, k: Step, s': State)
    requires Next(s, k, s') && (k.Attempt? || k.Call? || k.Complete? || k.Raise? || k.Fail?)
    ensures var pc := PcOf(s', k.w);
            && s'.workers == s.workers[k.w := pc]
            && ((pc.Executing? && pc == PcOf(s, k.w).(phase := pc.phase)) || pc == Acking(PcOf(s, k.w).raw))
            && (forall t :: t in s.db.tasks ==> t in s'.db.tasks && (s'.db.tasks[t] != s.db.tasks[t] ==> Terminal(s'.db.tasks[t])))
            && (pc.Acking? ==> var x := PcOf(s, k.w).exec;
                  x.task in s.db.tasks && Holds(s.db.tasks[x.task], x.lease) ==> Terminal(s'.db.tasks[x.task]))
    ensures s'.processing == s.processing && s'.queue == s.queue && s'.nextId == s.nextId
    ensures s'.h.submitted == s.h.submitted && s'.h.pushes == s.h.pushes
  {
  }

  lemma DurableStep(s: State, r: RStep, s': State)
    requires Durable(s) && CleanRows(s) && Logs(s) && WellMinted(s) && NextR(s, r, s')
    ensures Durable(s')
  {
    match r
    case Recover(w) => DurableRecover(s, w, s');
    case Plain(k) =>
      if Watches(k) {
        DurableWatch(s, k, s');
      } else if k.Tick? || k.Arrive? || k.Cleanup? {
        DurableBookkeeping(s, k, s');
      } else if k.Attempt? || k.Call? || k.Complete? || k.Raise? || k.Fail? {
        WorkFrame(s, k, s');
        RowsMoveStep(s, k, s');
        DurableWork(s, k.w, PcOf(s', k.w), s');
      } else {
        match k
        case Submit(text) => DurableSubmit(s, text, s');
        case Move(w) => DurableMove(s, w, s');
        case Claim(w, pick) => DurableClaim(s, w, PcOf(s, w).raw, pick, s');
        case Ack(w) => DurableAck(s, w, PcOf(s, w).raw, s');
        case Stop(w) => DurableStop(s, w, s');
        case Reap(w) => DurableReap(s, w, PcOf(s, w).seen, s');
      }
  }

  // ------------------------------------------------------------------ whole runs

  ghost predicate InvR(s: State) {
    CleanRows(s) && OutInv(s) && WellMinted(s) && Durable(s)
  }

  /** A step under R is one or two steps of the unrestricted protocol, so everything those keep holds. */
  lemma PlainFacts(s: State, k: Step, s': State)
    requires CleanRows(s) && OutInv(s) && WellMinted(s) && Next(s, k, s')
    ensures CleanRows(s') && OutInv(s') && WellMinted(s')
  {
    CleanStep(s, k, s');
    OutStep(s, k, s');
    MintedStep(s, k, s');
  }

  lemma FactsR(s: State, r: RStep, s': State)
    requires CleanRows(s) && OutInv(s) && WellMinted(s) && NextR(s, r, s')
    ensures CleanRows(s') && OutInv(s') && WellMinted(s')
  {
    match r
    case Plain(k) => PlainFacts(s, k, s');
    case Recover(w) =>
      var mid := Apply(s, Judge(w));
      PlainFacts(s, Judge(w), mid);
      if PcOf(s, w).todo[0].body.Named? { PlainFacts(mid, Settle(w), s'); }
  }

  lemma InvRInit(cfg: Config)
    ensures InvR(Init(cfg))
  {
    var s := Init(cfg);
    forall m: Raw ensures Spare(s, m) == 0 {
      assert Carriers(s, m) == {};
    }
  }

  lemma InvRNext(cfg: Config, ss: seq<State>, rs: seq<RStep>, i: nat)
    requires RunR(cfg, ss, rs) && i < |rs| && InvR(ss[i])
    ensures InvR(ss[i + 1])
  {
    FactsR(ss[i], rs[i], ss[i + 1]);
    DurableStep(ss[i], rs[i], ss[i + 1]);
  }

  lemma {:induction false} InvRAlways(cfg: Config, ss: seq<State>, rs: seq<RStep>, i: nat)
    requires RunR(cfg, ss, rs) && i < |ss|
    ensures InvR(ss[i])
    decreases i
  {
    if i == 0 {
      InvRInit(cfg);
    } else {
      InvRAlways(cfg, ss, rs, i - 1);
      InvRNext(cfg, ss, rs, i - 1);
    }
  }

  lemma CarriedIsThere(s: State, w: WorkerId)
    requires NoneShort(s) && w in s.workers && (s.workers[w].Moved? || s.workers[w].Executing?) && s.workers[w].raw.body.Named?
    ensures s.workers[w].raw in s.processing
  {
    var m := s.workers[w].raw;
    assert w in Carriers(s, m) && Spare(s, m) >= 0;
  }

  ghost predicate ProcessingFor(s: State, t: TaskId) {
    exists m :: m in s.processing && m.body == Named(t)
  }

  /** What a worker moves, executes or left behind for t is a message in the processing list. */
  lemma DeliveryIsThere(s: State, t: TaskId)
    requires Durable(s) && t in s.h.submitted && (MovedFor(s, t) || ExecutedFor(s, t) || SpareFor(s, t))
    ensures ProcessingFor(s, t)
  {
    if MovedFor(s, t) {
      var w :| w in s.workers && s.workers[w].Moved? && s.workers[w].raw.body == Named(t);
      CarriedIsThere(s, w);
    } else if ExecutedFor(s, t) {
      var w :| w in s.workers && s.workers[w].Executing? && s.workers[w].exec.task == t && Holds(s.db.tasks[t], s.workers[w].exec.lease);
      assert CarrierOk(s, s.workers[w]);
      CarriedIsThere(s, w);
    } else {
      var m: Raw :| m.body == Named(t) && Spare(s, m) > 0;
      assert m in s.processing;
    }
  }

  /** No accepted task is lost under R: at every moment it is terminal, or its outbox row still
      awaits delivery, or a delivery naming it waits in the task list, is on its way to a claim,
      is executed by the lease holder, or was left behind in the processing list for recovery
      (so it is not merely a duplicate somebody is about to acknowledge); in the last three cases
      a message naming it is in the processing list. */
  lemma NoAcceptedTaskIsLost(cfg: Config, ss: seq<State>, rs: seq<RStep>, i: nat, t: TaskId)
    requires RunR(cfg, ss, rs) && i < |ss| && t in ss[i].h.submitted
    ensures t in ss[i].db.tasks
    ensures || Terminal(ss[i].db.tasks[t])
            || (t in ss[i].db.outbox && ss[i].db.outbox[t].deliveredAt.None? && ss[i].db.outbox[t].payload == ss[i].h.submitted[t])
            || QueuedFor(ss[i], t) || MovedFor(ss[i], t) || ExecutedFor(ss[i], t) || SpareFor(ss[i], t)
    ensures MovedFor(ss[i], t) || ExecutedFor(ss[i], t) || SpareFor(ss[i], t) ==> ProcessingFor(ss[i], t)
    ensures ss[i].db.tasks[t].status == Running ==> ExecutedFor(ss[i], t) || SpareFor(ss[i], t)
  {
    InvRAlways(cfg, ss, rs, i);
    var s := ss[i];
    assert Supported(s, t);
    if t in s.db.outbox { assert OutboxRowOk(s, t, s.db.outbox[t]); }
    hide RunR, Supported, OutboxRowOk, MovedFor, ExecutedFor, SpareFor, ProcessingFor;
    if MovedFor(s, t) || ExecutedFor(s, t) || SpareFor(s, t) { DeliveryIsThere(s, t); }
  }

  /** No other producer reuses an identifier the dashboard minted. */
  ghost predicate RunOwn(cfg: Config, ss: seq<State>, rs: seq<RStep>) {
    && RunR(cfg, ss, rs)
    && forall i :: 0 <= i < |rs| && rs[i].Plain? && rs[i].k.Arrive? ==> Genuine(rs[i].k.raw, ss[i].h.submitted)
  }

  ghost predicate OwnPayloads(s: State) {
    Circulates(s, m => Genuine(m, s.h.submitted))
  }

  lemma OwnNext(cfg: Config, ss: seq<State>, rs: seq<RStep>, i: nat)
    requires RunOwn(cfg, ss, rs) && i < |rs| && OwnPayloads(ss[i])
    ensures OwnPayloads(ss[i + 1])
  {
    assert Logs(ss[i]) by { InvRAlways(cfg, ss, rs, i); }
    assert NextR(ss[i], rs[i], ss[i + 1]);
    match rs[i]
    case Plain(k) => GenuineStep(ss[i], k, ss[i + 1]);
    case Recover(w) =>
      var mid := Apply(ss[i], Judge(w));
      assert mid.h == ss[i].h && mid.nextId == ss[i].nextId;
      GenuineStep(ss[i], Judge(w), mid);
      if PcOf(ss[i], w).todo[0].body.Named? { GenuineStep(mid, Settle(w), ss[i + 1]); }
  }

  lemma {:induction false} OwnAlways(cfg: Config, ss: seq<State>, rs: seq<RStep>, i: nat)
    requires RunOwn(cfg, ss, rs) && i < |ss|
    ensures OwnPayloads(ss[i])
    decreases i
  {
    if i > 0 {
      OwnAlways(cfg, ss, rs, i - 1);
      OwnNext(cfg, ss, rs, i - 1);
    }
  }

  /** The request itself survives: until its task is terminal or while its outbox row awaits
      delivery, the submitted payload is in the task list or in the processing list. */
  lemma PayloadIsNotLost(cfg: Config, ss: seq<State>, rs: seq<RStep>, i: nat, t: TaskId)
    requires RunOwn(cfg, ss, rs) && i < |ss| && t in ss[i].h.submitted
    ensures t in ss[i].db.tasks
    ensures || Terminal(ss[i].db.tasks[t])
            || (t in ss[i].db.outbox && ss[i].db.outbox[t].deliveredAt.None? && ss[i].db.outbox[t].payload == ss[i].h.submitted[t])
            || ss[i].h.submitted[t] in ss[i].queue
            || ss[i].h.submitted[t] in ss[i].processing
  {
    var s := ss[i];
    NoAcceptedTaskIsLost(cfg, ss, rs, i, t);
    assert Durable(s) && Logs(s) by { InvRAlways(cfg, ss, rs, i); }
    assert t.Minted?;
    OwnAlways(cfg, ss, rs, i);
    var P := m => Genuine(m, s.h.submitted);
    CirculatesWeaken(s, m => Genuine(m, s.h.submitted), P);
    if MovedFor(s, t) {
      var w :| w in s.workers && s.workers[w].Moved? && s.workers[w].raw.body == Named(t);
      ActorOnly(s, w, P);
      CarriedIsThere(s, w);
    } else if ExecutedFor(s, t) {
      var w :| w in s.workers && s.workers[w].Executing? && s.workers[w].exec.task == t && Holds(s.db.tasks[t], s.workers[w].exec.lease);
      assert CarrierOk(s, s.workers[w]);
      ActorOnly(s, w, P);
      CarriedIsThere(s, w);
    } else if SpareFor(s, t) {
      var m: Raw :| m.body == Named(t) && Spare(s, m) > 0;
      assert m in s.processing;
    }
  }
}
