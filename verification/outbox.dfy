/** The dispatch outbox with any number of competing dispatchers. */
module Outbox {
  import opened Wrappers
  import opened Protocol
  import opened Receipts
  import opened Lifecycle

  type Token = (TaskId, ClaimId)

  function ClaimsOf(s: State, t: TaskId): set<Token> {
    set p | p in s.h.claims && p.0 == t
  }

  ghost predicate EntryOk(s: State, c: ClaimId, entry: Entry) {
    && entry.task in s.h.submitted && entry.payload == s.h.submitted[entry.task]
    && (entry.task, c) in s.h.claims && (entry.task, c) !in s.h.pushes
  }

  ghost predicate BatchOk(s: State, c: ClaimId, rest: seq<Entry>) {
    && (forall i :: 0 <= i < |rest| ==> EntryOk(s, c, rest[i]))
    && (forall i, j :: 0 <= i < j < |rest| ==> rest[i].task != rest[j].task)
  }

  predicate Dispatches(pc: Pc) { pc.Dispatching? || pc.Pushed? }

  ghost predicate DispatcherOk(s: State, pc: Pc) {
    && (Dispatches(pc) ==> pc.claim < s.nextId && BatchOk(s, pc.claim, pc.rest))
    && (pc.Pushed? ==> (pc.task, pc.claim) in s.h.pushes)
    && (pc.Pushed? ==> forall i :: 0 <= i < |pc.rest| ==> pc.rest[i].task != pc.task)
  }

  ghost predicate Dispatchers(s: State) {
    && (forall w :: w in s.workers ==> DispatcherOk(s, s.workers[w]))
    && (forall v, w :: v in s.workers && w in s.workers && v != w && Dispatches(s.workers[v]) && Dispatches(s.workers[w]) ==>
          s.workers[v].claim != s.workers[w].claim)
  }

  ghost predicate OutboxRowOk(s: State, t: TaskId, row: OutboxRow) {
    && t in s.h.submitted && row.payload == s.h.submitted[t]
    && row.deliveryAttempts == |ClaimsOf(s, t)|
    && (row.claim.Some? ==> (t, row.claim.value) in s.h.claims)
    && (row.deliveredAt.Some? <==> t in s.h.acks)
  }

  ghost predicate WasPushed(s: State, t: TaskId) {
    exists p :: p in s.h.pushes && p.0 == t
  }

  ghost predicate Logs(s: State) {
    && (forall p :: p in s.h.claims ==> p.1 < s.nextId && p.0 in s.h.submitted)
    && (forall p :: p in s.h.pushes ==> p in s.h.claims)
    && Distinct(s.h.pushes) && Distinct(s.h.acks)
    && (forall t :: t in s.h.acks ==> WasPushed(s, t))
    && (forall t :: t in s.h.submitted ==> t.Minted? && t.n < s.nextId)
    && (forall t :: t in s.h.acks ==> t in s.h.submitted)
  }

  ghost predicate OutboxRows(s: State) {
    && (forall t :: t in s.db.outbox ==> OutboxRowOk(s, t, s.db.outbox[t]))
    && (forall t :: t in s.h.submitted ==>
          && t in s.db.tasks
          && (t in s.db.outbox || (t in s.h.acks && Terminal(s.db.tasks[t]))))
  }

  ghost predicate OutInv(s: State) {
    Dispatchers(s) && Logs(s) && OutboxRows(s)
  }

  // ------------------------------------------------------------------ steps

  predicate TouchesOutbox(k: Step) {
    k.Submit? || k.OutboxClaim? || k.Publish? || k.Mark? || k.Drop? || k.Cleanup?
  }

  /** Steps elsewhere: outbox and its logs stay; dispatchers stay or end. */
  lemma OutboxKept(s: State, k: Step, s': State)
    requires Next(s, k, s') && !TouchesOutbox(k)
    ensures s'.db.outbox == s.db.outbox && s.nextId <= s'.nextId
    ensures s'.h.claims == s.h.claims && s'.h.pushes == s.h.pushes && s'.h.acks == s.h.acks && s'.h.submitted == s.h.submitted
  {
  }

  lemma DispatchersKept(s: State, k: Step, s': State)
    requires Next(s, k, s') && !TouchesOutbox(k)
    ensures forall w :: w in s'.workers && Dispatches(s'.workers[w]) ==> w in s.workers && s'.workers[w] == s.workers[w]
  {
  }

  lemma OutKept(s: State, s': State)
    requires OutInv(s) && TxMoves(s.db, s'.db)
    requires s'.db.outbox == s.db.outbox && s.nextId <= s'.nextId
    requires s'.h.claims == s.h.claims && s'.h.pushes == s.h.pushes && s'.h.acks == s.h.acks && s'.h.submitted == s.h.submitted
    requires forall w :: w in s'.workers && Dispatches(s'.workers[w]) ==> w in s.workers && s'.workers[w] == s.workers[w]
    ensures OutInv(s')
  {
    assert forall t :: ClaimsOf(s', t) == ClaimsOf(s, t);
  }

  lemma SubmitKeepsLogs(s: State, text: nat, s': State)
    requires Logs(s) && s' == SubmitStep(s, text)
    ensures Logs(s')
  {
    assert forall t :: WasPushed(s, t) ==> WasPushed(s', t);
    hide SubmitTx;
  }

  lemma SubmitKeepsDispatchers(s: State, text: nat, s': State)
    requires Logs(s) && Dispatchers(s) && s' == SubmitStep(s, text)
    ensures Dispatchers(s')
  {
    hide SubmitTx;
  }

  lemma SubmitKeepsRows(s: State, text: nat, s': State)
    requires Logs(s) && OutboxRows(s) && s' == SubmitStep(s, text)
    ensures OutboxRows(s')
  {
    var t := Minted(s.nextId);
    assert t !in s.h.submitted && t !in s.db.outbox && t !in s.h.acks;
    assert forall u :: ClaimsOf(s', u) == ClaimsOf(s, u);
    assert forall p :: p in s.h.claims ==> p.0 != t;
    assert ClaimsOf(s', t) == {};
  }

  lemma OutSubmit(s: State, text: nat, s': State)
    requires OutInv(s) && s' == SubmitStep(s, text)
    ensures OutInv(s')
  {
    hide Logs, Dispatchers, OutboxRows, SubmitStep;
    SubmitKeepsLogs(s, text, s');
    SubmitKeepsDispatchers(s, text, s');
    SubmitKeepsRows(s, text, s');
  }

  /** The claims, pushes and acknowledgements of other tokens are untouched by claim c. */
  lemma ClaimsGrow(s: State, s': State, batch: seq<TaskId>, c: ClaimId)
    requires Logs(s) && c == s.nextId
    requires s'.h.claims == s.h.claims + (set t | t in batch :: (t, c))
    ensures forall t :: |ClaimsOf(s', t)| == |ClaimsOf(s, t)| + (if t in batch then 1 else 0)
    ensures forall t :: t in batch ==> (t, c) in s'.h.claims && (t, c) !in s.h.pushes
  {
    forall t ensures |ClaimsOf(s', t)| == |ClaimsOf(s, t)| + (if t in batch then 1 else 0) {
      if t in batch {
        assert ClaimsOf(s', t) == ClaimsOf(s, t) + {(t, c)};
        assert (t, c) !in ClaimsOf(s, t);
      } else {
        assert ClaimsOf(s', t) == ClaimsOf(s, t);
      }
    }
  }

  /** Worker w moves to pc; the tokens it may have pushed carry a claim nobody else works on. */
  lemma DispatchersMove(s: State, s': State, w: WorkerId, pc: Pc, c: ClaimId)
    requires Dispatchers(s) && s'.workers == s.workers[w := pc] && s.nextId <= s'.nextId
    requires s'.h.submitted == s.h.submitted && forall p :: p in s.h.claims ==> p in s'.h.claims
    requires forall p :: p in s.h.pushes ==> p in s'.h.pushes
    requires forall p :: p in s'.h.pushes ==> p in s.h.pushes || p.1 == c
    requires forall v :: v in s.workers && v != w && Dispatches(s.workers[v]) ==> s.workers[v].claim != c
    requires DispatcherOk(s', pc) && (Dispatches(pc) ==> pc.claim == c)
    ensures Dispatchers(s')
  {
    forall v | v in s'.workers && v != w ensures DispatcherOk(s', s'.workers[v]) {
      assert DispatcherOk(s, s.workers[v]);
    }
  }

  lemma LogsClaim(s: State, s': State, batch: seq<TaskId>)
    requires Logs(s) && OutboxRows(s) && (forall t :: t in batch ==> t in s.db.outbox)
    requires s'.nextId == s.nextId + 1 && s'.h == s.h.(claims := s.h.claims + (set t | t in batch :: (t, s.nextId)))
    ensures Logs(s')
  {
    forall t | t in s'.h.acks ensures WasPushed(s', t) {
      assert WasPushed(s, t);
    }
  }

  lemma RowsClaim(s: State, s': State, batch: seq<TaskId>, c: ClaimId)
    requires OutboxRows(s) && s'.db == OutboxClaimTx(s.db, s.now, c, batch)
    requires s'.h.submitted == s.h.submitted && s'.h.acks == s.h.acks
    requires forall t :: |ClaimsOf(s', t)| == |ClaimsOf(s, t)| + (if t in batch then 1 else 0)
    requires forall t :: t in batch ==> (t, c) in s'.h.claims
    requires forall p :: p in s.h.claims ==> p in s'.h.claims
    ensures OutboxRows(s')
  {
    forall t | t in s'.db.outbox ensures OutboxRowOk(s', t, s'.db.outbox[t]) {
      assert OutboxRowOk(s, t, s.db.outbox[t]);
    }
  }

  lemma ClaimedBatchOk(s: State, w: WorkerId, batch: seq<TaskId>, s': State)
    requires OutboxRows(s) && Logs(s) && IsBatch(s.db, s.now, s.cfg, batch) && forall t :: t in batch ==> t in s.db.outbox
    requires s' == OutboxClaimStep(s, w, batch)
    ensures BatchOk(s', s.nextId, Entries(s.db, batch))
  {
    ClaimsGrow(s, s', batch, s.nextId);
    hide OutboxClaimTx;
    forall t | t in batch ensures s.db.outbox[t].payload == s.h.submitted[t] && t in s.h.submitted {
      assert OutboxRowOk(s, t, s.db.outbox[t]);
    }
  }

  lemma OutClaim(s: State, w: WorkerId, batch: seq<TaskId>, s': State)
    requires OutInv(s) && PcOf(s, w).Idle? && IsBatch(s.db, s.now, s.cfg, batch)
    requires s' == OutboxClaimStep(s, w, batch)
    ensures OutInv(s')
  {
    var c := s.nextId;
    ClaimedBatchOk(s, w, batch, s');
    ClaimsGrow(s, s', batch, c);
    LogsClaim(s, s', batch);
    RowsClaim(s, s', batch, c);
    hide BatchOk, OutboxRows, Logs, IsBatch;
    DispatchersMove(s, s', w, DispatchPc(c, Entries(s.db, batch)), c);
  }

  lemma LogsPush(s: State, s': State, token: Token)
    requires Logs(s) && token in s.h.claims && token !in s.h.pushes
    requires s'.nextId == s.nextId && s'.h.claims == s.h.claims && s'.h.submitted == s.h.submitted && s'.h.acks == s.h.acks
    requires s'.h.pushes == s.h.pushes + [token]
    ensures Logs(s')
  {
    forall t | t in s'.h.acks ensures WasPushed(s', t) {
      var p :| p in s.h.pushes && p.0 == t;
      assert p in s'.h.pushes;
    }
  }

  lemma RowsSame(s: State, s': State)
    requires OutboxRows(s) && s'.db == s.db
    requires s'.h.claims == s.h.claims && s'.h.submitted == s.h.submitted && s'.h.acks == s.h.acks
    ensures OutboxRows(s')
  {
    assert forall t :: ClaimsOf(s', t) == ClaimsOf(s, t);
  }

  lemma OutPublish(s: State, w: WorkerId, s': State)
    requires OutInv(s) && PcOf(s, w).Dispatching? && PcOf(s, w).rest != []
    requires s' == PublishStep(s, w, PcOf(s, w).claim, PcOf(s, w).rest[0], PcOf(s, w).rest[1..])
    ensures OutInv(s')
  {
    var pc := PcOf(s, w);
    var token := (pc.rest[0].task, pc.claim);
    assert DispatcherOk(s, pc) && EntryOk(s, pc.claim, pc.rest[0]);
    LogsPush(s, s', token);
    RowsSame(s, s');
    assert forall p :: p in s'.h.pushes <==> p in s.h.pushes || p == token;
    DispatchersMove(s, s', w, Pushed(pc.claim, pc.rest[0].task, pc.rest[1..]), pc.claim);
  }

  lemma LogsAck(s: State, s': State, t: TaskId)
    requires Logs(s) && WasPushed(s, t) && t in s.h.submitted && t !in s.h.acks
    requires s'.nextId == s.nextId && s'.h == s.h.(acks := s.h.acks + [t])
    ensures Logs(s')
  {
    forall u | u in s'.h.acks ensures WasPushed(s', u) {
      assert WasPushed(s, u);
      var p :| p in s.h.pushes && p.0 == u;
      assert p in s'.h.pushes;
    }
  }

  lemma RowsAck(s: State, s': State, t: TaskId, c: ClaimId)
    requires OutboxRows(s) && Markable(s.db, t, c) && s'.db == MarkTx(s.db, s.now, t, c)
    requires s'.h == s.h.(acks := s.h.acks + [t])
    ensures OutboxRows(s')
  {
    assert forall u :: ClaimsOf(s', u) == ClaimsOf(s, u);
    forall u | u in s'.db.outbox ensures OutboxRowOk(s', u, s'.db.outbox[u]) {
      assert OutboxRowOk(s, u, s.db.outbox[u]);
    }
  }

  lemma OutMark(s: State, w: WorkerId, s': State)
    requires OutInv(s) && PcOf(s, w).Pushed?
    requires s' == MarkStep(s, w, PcOf(s, w).claim, PcOf(s, w).task, PcOf(s, w).rest)
    ensures OutInv(s')
  {
    var pc := PcOf(s, w);
    assert DispatcherOk(s, pc) && (pc.task, pc.claim) in s.h.pushes;
    DispatchersMove(s, s', w, DispatchPc(pc.claim, pc.rest), pc.claim);
    if Markable(s.db, pc.task, pc.claim) {
      assert WasPushed(s, pc.task) && OutboxRowOk(s, pc.task, s.db.outbox[pc.task]);
      LogsAck(s, s', pc.task);
      RowsAck(s, s', pc.task, pc.claim);
    } else {
      RowsSame(s, s');
      assert forall t :: WasPushed(s, t) ==> WasPushed(s', t);
    }
  }

  lemma OutDrop(s: State, w: WorkerId, s': State)
    requires OutInv(s) && Droppable(PcOf(s, w)) && s' == At(s, w, Dropped(PcOf(s, w)))
    ensures OutInv(s')
  {
    var pc := PcOf(s, w);
    assert DispatcherOk(s, pc);
    if Dispatches(pc) { DispatchersMove(s, s', w, s'.workers[w], pc.claim); }
    RowsSame(s, s');
    assert forall t :: WasPushed(s, t) ==> WasPushed(s', t);
  }

  lemma OutCleanup(s: State, s': State)
    requires OutInv(s) && s' == s.(db := CleanupTx(s.db, s.now, s.cfg))
    ensures OutInv(s')
  {
    assert forall t :: ClaimsOf(s', t) == ClaimsOf(s, t);
  }

  lemma OutStep(s: State, k: Step, s': State)
    requires OutInv(s) && CleanRows(s) && Next(s, k, s')
    ensures OutInv(s')
  {
    if TouchesOutbox(k) {
      match k
      case Submit(text) => OutSubmit(s, text, s');
      case OutboxClaim(w, batch) => OutClaim(s, w, batch, s');
      case Publish(w) => OutPublish(s, w, s');
      case Mark(w) => OutMark(s, w, s');
      case Drop(w) => OutDrop(s, w, s');
      case Cleanup(w) => OutCleanup(s, s');
    } else {
      OutboxKept(s, k, s');
      DispatchersKept(s, k, s');
      RowsMoveStep(s, k, s');
      OutKept(s, s');
    }
  }

  lemma OutNext(cfg: Config, ss: seq<State>, ks: seq<Step>, i: nat)
    requires RunFromInit(cfg, ss, ks) && i < |ks| && OutInv(ss[i])
    ensures OutInv(ss[i + 1])
  {
    CleanAlways(cfg, ss, ks, i);
    OutStep(ss[i], ks[i], ss[i + 1]);
  }

  lemma {:induction false} OutAlways(cfg: Config, ss: seq<State>, ks: seq<Step>, i: nat)
    requires RunFromInit(cfg, ss, ks) && i < |ss|
    ensures OutInv(ss[i])
    decreases i
  {
    if i > 0 {
      OutAlways(cfg, ss, ks, i - 1);
      OutNext(cfg, ss, ks, i - 1);
    }
  }

  // ------------------------------------------------------------------ what dispatchers guarantee

  function PushCount(pushes: seq<Token>, t: TaskId): nat {
    if pushes == [] then 0
    else PushCount(pushes[..|pushes| - 1], t) + (if pushes[|pushes| - 1].0 == t then 1 else 0)
  }

  lemma {:induction false} PushesWithin(pushes: seq<Token>, t: TaskId, S: set<Token>)
    requires Distinct(pushes) && forall p :: p in pushes && p.0 == t ==> p in S
    ensures PushCount(pushes, t) <= |S|
    decreases |pushes|
  {
    if pushes != [] {
      var front, last := pushes[..|pushes| - 1], pushes[|pushes| - 1];
      if last.0 == t {
        PushesWithin(front, t, S - {last});
      } else {
        PushesWithin(front, t, S);
      }
    }
  }

  lemma {:induction false} PushedOnce(pushes: seq<Token>, t: TaskId, p: Token)
    requires p in pushes && p.0 == t
    ensures PushCount(pushes, t) >= 1
    decreases |pushes|
  {
    if pushes[|pushes| - 1] != p {
      assert p in pushes[..|pushes| - 1];
      PushedOnce(pushes[..|pushes| - 1], t, p);
    }
  }

  /** Outbox safety in every reachable state: a row is pushed at most as often as it was
      claimed, and at least once before it counts as delivered; of all competing
      acknowledgements of a row at most one takes effect. */
  lemma OutboxSafety(cfg: Config, ss: seq<State>, ks: seq<Step>, i: nat, t: TaskId)
    requires RunFromInit(cfg, ss, ks) && i < |ss|
    ensures t in ss[i].db.outbox ==> PushCount(ss[i].h.pushes, t) <= ss[i].db.outbox[t].deliveryAttempts
    ensures t in ss[i].db.outbox && ss[i].db.outbox[t].deliveredAt.Some? ==> PushCount(ss[i].h.pushes, t) >= 1
    ensures Distinct(ss[i].h.acks)
    ensures t in ss[i].db.outbox ==> (ss[i].db.outbox[t].deliveredAt.Some? <==> t in ss[i].h.acks)
  {
    OutAlways(cfg, ss, ks, i);
    var s := ss[i];
    if t in s.db.outbox {
      assert OutboxRowOk(s, t, s.db.outbox[t]);
      forall p | p in s.h.pushes && p.0 == t ensures p in ClaimsOf(s, t) { }
      PushesWithin(s.h.pushes, t, ClaimsOf(s, t));
      if t in s.h.acks {
        assert WasPushed(s, t);
        var p :| p in s.h.pushes && p.0 == t;
        PushedOnce(s.h.pushes, t, p);
      }
    }
  }

  /** The original payload is retained until the row is delivered and its task is terminal. */
  lemma PayloadRetained(cfg: Config, ss: seq<State>, ks: seq<Step>, i: nat, t: TaskId)
    requires RunFromInit(cfg, ss, ks) && i < |ss| && t in ss[i].h.submitted
    ensures t in ss[i].db.tasks
    ensures || (t in ss[i].db.outbox && ss[i].db.outbox[t].payload == ss[i].h.submitted[t])
            || (t in ss[i].h.acks && Terminal(ss[i].db.tasks[t]))
  {
    OutAlways(cfg, ss, ks, i);
    if t in ss[i].db.outbox {
      assert OutboxRowOk(ss[i], t, ss[i].db.outbox[t]);
    }
  }

  lemma UnmarkableStep(s: State, k: Step, s': State, t: TaskId, c: ClaimId)
    requires Next(s, k, s') && c < s.nextId && !Markable(s.db, t, c)
    ensures c < s'.nextId && !Markable(s'.db, t, c)
  {
  }

  /** An acknowledgement whose claim was superseded, or whose row was already acknowledged, stays
      a no-op for ever: no later step can revive it. */
  lemma {:induction false} SupersededClaimNeverAcks(cfg: Config, ss: seq<State>, ks: seq<Step>, i: nat, j: nat, t: TaskId, c: ClaimId)
    requires RunFromInit(cfg, ss, ks) && i <= j < |ss|
    requires c < ss[i].nextId && !Markable(ss[i].db, t, c)
    ensures c < ss[j].nextId && MarkTx(ss[j].db, ss[j].now, t, c) == ss[j].db
    decreases j
  {
    if i < j {
      SupersededClaimNeverAcks(cfg, ss, ks, i, j - 1, t, c);
      UnmarkableStep(ss[j - 1], ks[j - 1], ss[j - 1 + 1], t, c);
    }
  }
}
