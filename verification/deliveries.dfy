/** Where deliveries go: conservation of occurrences over the three Redis lists. */
module Deliveries {
  import opened Wrappers
  import opened Protocol

  lemma {:induction false} LremCounts(list: seq<Raw>, raw: Raw)
    ensures raw in list ==> multiset(Lrem(list, raw)) == multiset(list) - multiset{raw}
    ensures raw !in list ==> Lrem(list, raw) == list
    decreases |list|
  {
    if list != [] {
      assert list == [list[0]] + list[1..];
      if list[0] != raw {
        LremCounts(list[1..], raw);
        if raw in list { assert raw in list[1..]; }
      }
    }
  }

  /** Occurrences of m over the three lists. */
  function Total(s: State, m: Raw): nat {
    multiset(s.queue)[m] + multiset(s.processing)[m] + multiset(s.dead)[m]
  }

  /** Every occurrence ever pushed is in exactly one list, or was removed by an acknowledgement. */
  ghost predicate Balanced(s: State) {
    forall m :: Total(s, m) + s.h.removed[m] == s.h.arrived[m] + s.h.buried[m]
  }

  /** BLMOVE, the Lua requeue script and the Lua dead-letter script each move one occurrence. */
  lemma ScriptsConserve(s: State, raw: Raw, s': State)
    requires raw in s.processing
    requires || s' == s.(processing := Lrem(s.processing, raw), queue := [raw] + s.queue)
             || s' == s.(processing := Lrem(s.processing, raw), dead := s.dead + [raw])
    ensures forall m :: Total(s', m) == Total(s, m)
  {
    LremCounts(s.processing, raw);
  }

  lemma BlmoveConserves(s: State, w: WorkerId)
    requires s.queue != []
    ensures forall m :: Total(MoveStep(s, w), m) == Total(s, m)
  {
    assert s.queue == [s.queue[0]] + s.queue[1..];
  }

  lemma BalancedSame(s: State, s': State)
    requires Balanced(s) && forall m :: Total(s', m) == Total(s, m)
    requires s'.h.removed == s.h.removed && s'.h.arrived == s.h.arrived && s'.h.buried == s.h.buried
    ensures Balanced(s')
  {
    forall m ensures Total(s', m) + s'.h.removed[m] == s'.h.arrived[m] + s'.h.buried[m] {
      assert Total(s, m) + s.h.removed[m] == s.h.arrived[m] + s.h.buried[m];
    }
  }

  lemma BalancedRemove(s: State, raw: Raw)
    requires Balanced(s)
    ensures Balanced(RemoveProcessing(s, raw))
  {
    LremCounts(s.processing, raw);
    var s' := RemoveProcessing(s, raw);
    forall m ensures Total(s', m) + s'.h.removed[m] == s'.h.arrived[m] + s'.h.buried[m] {
      assert Total(s, m) + s.h.removed[m] == s.h.arrived[m] + s.h.buried[m];
    }
  }

  lemma BalancedJudge(s: State, w: WorkerId, raw: Raw, rest: seq<Raw>)
    requires Balanced(s)
    ensures Balanced(JudgeStep(s, w, raw, rest))
  {
    if !raw.body.Named? && raw in s.processing {
      ScriptsConserve(s, raw, s.(processing := Lrem(s.processing, raw), dead := s.dead + [raw]));
      BalancedSame(s, s.(processing := Lrem(s.processing, raw), dead := s.dead + [raw]));
    }
  }

  lemma BalancedSettle(s: State, raw: Raw, verdict: Verdict)
    requires Balanced(s)
    ensures Balanced(SettleLists(s, raw, verdict))
  {
    match verdict
    case Requeue =>
      if raw in s.processing {
        ScriptsConserve(s, raw, SettleLists(s, raw, Requeue));
        BalancedSame(s, SettleLists(s, raw, Requeue));
      }
    case Settled => BalancedRemove(s, raw);
    case Leave =>
  }

  lemma BalancedPush(s: State, s': State, raw: Raw)
    requires Balanced(s) && s'.processing == s.processing && s'.h.removed == s.h.removed
    requires || (s'.queue == s.queue + [raw] && s'.dead == s.dead && s'.h.arrived == s.h.arrived + multiset{raw} && s'.h.buried == s.h.buried)
             || (s'.queue == s.queue && s'.dead == s.dead + [raw] && s'.h.arrived == s.h.arrived && s'.h.buried == s.h.buried + multiset{raw})
    ensures Balanced(s')
  {
    forall m ensures Total(s', m) + s'.h.removed[m] == s'.h.arrived[m] + s'.h.buried[m] {
      assert Total(s, m) + s.h.removed[m] == s.h.arrived[m] + s.h.buried[m];
    }
  }

  predicate MovesDeliveries(k: Step) {
    k.Arrive? || k.Move? || k.Bury? || k.Ack? || k.Judge? || k.Settle? || k.Publish?
  }

  lemma ListsKept(s: State, k: Step, s': State)
    requires Next(s, k, s') && !MovesDeliveries(k)
    ensures s'.queue == s.queue && s'.processing == s.processing && s'.dead == s.dead
    ensures s'.h.arrived == s.h.arrived && s'.h.buried == s.h.buried && s'.h.removed == s.h.removed
  {
  }

  lemma BalancedAt(s: State, w: WorkerId, pc: Pc)
    requires Balanced(s)
    ensures Balanced(At(s, w, pc))
  {
    BalancedSame(s, At(s, w, pc));
  }

  lemma BalancedPushes(s: State, k: Step, s': State)
    requires Balanced(s) && Next(s, k, s') && (k.Arrive? || k.Publish? || k.Bury? || k.Move?)
    ensures Balanced(s')
  {
    match k
    case Arrive(raw) => BalancedPush(s, s', raw);
    case Publish(w) => BalancedPush(s, s', PcOf(s, w).rest[0].payload);
    case Bury(w) => BalancedPush(s, s', PcOf(s, w).raw);
    case Move(w) => BlmoveConserves(s, w); BalancedSame(s, s');
  }

  lemma BalancedRemoves(s: State, k: Step, s': State)
    requires Balanced(s) && Next(s, k, s') && (k.Ack? || k.Judge? || k.Settle?)
    ensures Balanced(s')
  {
    match k
    case Ack(w) =>
      BalancedRemove(s, PcOf(s, w).raw);
      BalancedAt(RemoveProcessing(s, PcOf(s, w).raw), w, Idle);
    case Judge(w) => BalancedJudge(s, w, PcOf(s, w).todo[0], PcOf(s, w).todo[1..]);
    case Settle(w) =>
      BalancedSettle(s, PcOf(s, w).raw, PcOf(s, w).verdict);
      BalancedAt(SettleLists(s, PcOf(s, w).raw, PcOf(s, w).verdict), w, RecoverPc(PcOf(s, w).todo));
  }

  lemma BalancedStep(s: State, k: Step, s': State)
    requires Balanced(s) && Next(s, k, s')
    ensures Balanced(s')
  {
    if k.Arrive? || k.Publish? || k.Bury? || k.Move? {
      BalancedPushes(s, k, s');
    } else if k.Ack? || k.Judge? || k.Settle? {
      BalancedRemoves(s, k, s');
    } else {
      ListsKept(s, k, s');
      BalancedSame(s, s');
    }
  }

  // ------------------------------------------------------------------ who handles what

  ghost predicate PcFits(pc: Pc) {
    match pc
    case Executing(raw, x, _) => (raw.body.Named? && x.task == raw.body.task) || (raw.body.NoTaskId? && x.task.Minted?)
    case Acking(raw) => !raw.body.BadTaskId?
    case Judged(raw, _, _) => raw.body.Named?
    case _ => true
  }

  function Ackers(s: State, m: Raw): set<WorkerId> {
    set w | w in s.workers && s.workers[w] == Acking(m)
  }

  /** Rejected messages are acknowledged only after their dead-letter copy was pushed; only
      undeliverable messages are ever on the dead list. */
  ghost predicate DeadOk(s: State) {
    && (forall w :: w in s.workers ==> PcFits(s.workers[w]))
    && (forall m :: m in s.dead ==> !m.body.Named?)
    && (forall m :: m in s.h.buried ==> !LaneAccepted(m))
    && (forall m :: m in s.h.removed ==> !m.body.BadTaskId?)
    && (forall m :: !LaneAccepted(m) ==> |Ackers(s, m)| + s.h.removed[m] <= s.h.buried[m])
  }

  lemma AckersChange(s: State, s': State, w: WorkerId, pc: Pc, m: Raw)
    requires s'.workers == s.workers[w := pc]
    ensures pc == Acking(m) && PcOf(s, w) != Acking(m) ==> |Ackers(s', m)| == |Ackers(s, m)| + 1
    ensures pc != Acking(m) && PcOf(s, w) == Acking(m) ==> |Ackers(s', m)| == |Ackers(s, m)| - 1
    ensures (pc == Acking(m) <==> PcOf(s, w) == Acking(m)) ==> Ackers(s', m) == Ackers(s, m)
  {
    if pc == Acking(m) {
      assert Ackers(s', m) == Ackers(s, m) + {w};
    } else {
      assert Ackers(s', m) == Ackers(s, m) - {w};
    }
  }

  /** A step of w that pushes or removes no occurrence of a rejected message. */
  lemma DeadQuiet(s: State, s': State, w: WorkerId, pc: Pc)
    requires DeadOk(s) && s'.workers == s.workers[w := pc] && PcFits(pc)
    requires forall m :: m in s'.dead ==> m in s.dead || !m.body.Named?
    requires s'.h.buried == s.h.buried && s'.h.removed == s.h.removed
    requires pc.Acking? ==> LaneAccepted(pc.raw)
    ensures DeadOk(s')
  {
    forall m | !LaneAccepted(m) ensures |Ackers(s', m)| + s'.h.removed[m] <= s'.h.buried[m] {
      AckersChange(s, s', w, pc, m);
    }
  }

  lemma DeadBury(s: State, w: WorkerId, raw: Raw, s': State)
    requires DeadOk(s) && PcOf(s, w) == Moved(raw) && !LaneAccepted(raw) && s' == BuryStep(s, w, raw)
    ensures DeadOk(s')
  {
    forall m | !LaneAccepted(m) ensures |Ackers(s', m)| + s'.h.removed[m] <= s'.h.buried[m] {
      AckersChange(s, s', w, Acking(raw), m);
    }
  }

  lemma DeadAck(s: State, w: WorkerId, raw: Raw, s': State)
    requires DeadOk(s) && PcOf(s, w) == Acking(raw) && s' == At(RemoveProcessing(s, raw), w, Idle)
    ensures DeadOk(s')
  {
    forall m | !LaneAccepted(m) ensures |Ackers(s', m)| + s'.h.removed[m] <= s'.h.buried[m] {
      AckersChange(s, s', w, Idle, m);
    }
  }

  lemma DeadSettle(s: State, w: WorkerId, s': State)
    requires DeadOk(s) && PcOf(s, w).Judged?
    requires s' == At(SettleLists(s, PcOf(s, w).raw, PcOf(s, w).verdict), w, RecoverPc(PcOf(s, w).todo))
    ensures DeadOk(s')
  {
    hide Lrem;
    var raw := PcOf(s, w).raw;
    assert s'.dead == s.dead && s'.h.buried == s.h.buried;
    assert forall m :: m != raw ==> s'.h.removed[m] == s.h.removed[m];
    assert s'.h.removed == s.h.removed || LaneAccepted(raw);
    forall m | !LaneAccepted(m) ensures |Ackers(s', m)| + s'.h.removed[m] <= s'.h.buried[m] {
      AckersChange(s, s', w, RecoverPc(PcOf(s, w).todo), m);
    }
  }

  predicate Bookkeeping(k: Step) {
    k.Tick? || k.Submit? || k.Arrive? || k.Cleanup?
  }

  lemma DeadListSteps(s: State, k: Step, s': State)
    requires DeadOk(s) && Next(s, k, s') && !k.Bury? && !k.Ack? && !k.Settle?
    ensures s'.h.buried == s.h.buried && s'.h.removed == s.h.removed
    ensures forall m :: m in s'.dead ==> m in s.dead || !m.body.Named?
    ensures Bookkeeping(k) ==> s'.workers == s.workers
  {
    hide DeadOk, Enabled, ClaimTx, RecordAttemptTx, CompleteTx, FailTx, RecoverTx, ReapTx, SubmitTx, OutboxClaimTx, MarkTx, CleanupTx,
         Lrem, NamedIn, Entries, RecoverVerdict, Target, Granted, Droppable;
  }

  lemma PcSteps(s: State, k: Step, s': State)
    requires Next(s, k, s') && !k.Bury? && !k.Ack? && !k.Settle? && !Bookkeeping(k) && PcFits(PcOf(s, k.w))
    ensures s'.workers == s.workers[k.w := PcOf(s', k.w)] && PcFits(PcOf(s', k.w))
    ensures PcOf(s', k.w).Acking? ==> LaneAccepted(PcOf(s', k.w).raw)
  {
  }

  lemma DeadStep(s: State, k: Step, s': State)
    requires DeadOk(s) && Next(s, k, s')
    ensures DeadOk(s')
  {
    if k.Bury? {
      DeadBury(s, k.w, PcOf(s, k.w).raw, s');
    } else if k.Ack? {
      DeadAck(s, k.w, PcOf(s, k.w).raw, s');
    } else if k.Settle? {
      DeadSettle(s, k.w, s');
    } else {
      DeadListSteps(s, k, s');
      if Bookkeeping(k) {
        DeadIdle(s, s');
      } else {
        PcSteps(s, k, s');
        DeadQuiet(s, s', k.w, PcOf(s', k.w));
      }
    }
  }

  lemma DeadIdle(s: State, s': State)
    requires DeadOk(s) && s'.workers == s.workers && s'.h.buried == s.h.buried && s'.h.removed == s.h.removed
    requires forall m :: m in s'.dead ==> m in s.dead || !m.body.Named?
    ensures DeadOk(s')
  {
    forall m | !LaneAccepted(m) ensures |Ackers(s', m)| + s'.h.removed[m] <= s'.h.buried[m] {
      assert Ackers(s', m) == Ackers(s, m);
    }
  }

  // ------------------------------------------------------------------ whole runs

  lemma {:induction false} DeliveriesAlways(cfg: Config, ss: seq<State>, ks: seq<Step>, i: nat)
    requires RunFromInit(cfg, ss, ks) && i < |ss|
    ensures Balanced(ss[i]) && DeadOk(ss[i])
    decreases i
  {
    if i == 0 {
      assert forall m :: Ackers(Init(cfg), m) == {};
    } else {
      DeliveriesAlways(cfg, ss, ks, i - 1);
      BalancedStep(ss[i - 1], ks[i - 1], ss[i - 1 + 1]);
      DeadStep(ss[i - 1], ks[i - 1], ss[i - 1 + 1]);
    }
  }

  /** Delivery conservation in every reachable state: occurrences are accounted for exactly; a
      message the handler rejects is never lost, despite a crash between the dead-letter push
      and the acknowledgement; one with a bad task id is neither lost nor copied; and the dead
      list never holds a message with a valid lane and a valid task id. */
  lemma NothingVanishes(cfg: Config, ss: seq<State>, ks: seq<Step>, i: nat, m: Raw)
    requires RunFromInit(cfg, ss, ks) && i < |ss|
    ensures Total(ss[i], m) + ss[i].h.removed[m] == ss[i].h.arrived[m] + ss[i].h.buried[m]
    ensures !LaneAccepted(m) ==> Total(ss[i], m) >= ss[i].h.arrived[m]
    ensures m.body.BadTaskId? ==> Total(ss[i], m) == ss[i].h.arrived[m]
    ensures m.body.Named? ==> multiset(ss[i].dead)[m] == 0 && Total(ss[i], m) + ss[i].h.removed[m] == ss[i].h.arrived[m]
  {
    DeliveriesAlways(cfg, ss, ks, i);
    assert Total(ss[i], m) + ss[i].h.removed[m] == ss[i].h.arrived[m] + ss[i].h.buried[m];
    assert m in ss[i].dead <==> multiset(ss[i].dead)[m] > 0;
  }
}
