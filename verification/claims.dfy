/** The life of an outbox claim: which rows it may take, how long it keeps others off them, and
    that what a stopped dispatcher dropped is delivered once the claim has expired. */
module OutboxClaims {
  import opened Wrappers
  import opened Protocol
  import opened Necessity
  import opened Provenance
  import opened Drain
  import Outbox

  /** The row of t may be claimed now: its task waits, it was not delivered, and nobody claimed it
      within the last claimSeconds. */
  predicate Free(s: State, t: TaskId) {
    && t in s.db.outbox && t in s.db.tasks
    && s.db.tasks[t].status == Queued && s.db.outbox[t].deliveredAt == None
    && match s.db.outbox[t].claimedAt
       case None => true
       case Some(at) => at + s.cfg.claimSeconds < s.now
  }

  /** A claim takes free rows only, and leaves a free row behind only when its batch is full of
      rows that are at least as old. */
  lemma TakesExactly(s: State, w: WorkerId, batch: seq<TaskId>, t: TaskId)
    requires Enabled(s, OutboxClaim(w, batch))
    ensures t in batch ==> Free(s, t)
    ensures Free(s, t) && t !in batch ==>
              |batch| == s.cfg.batchSize && forall u :: u in batch ==> u in s.db.outbox && s.db.outbox[u].createdAt <= s.db.outbox[t].createdAt
  {
    if t in batch { assert Eligible(s.db, s.now, s.cfg, t); }
    if Free(s, t) && t !in batch {
      assert t in EligibleSet(s.db, s.now, s.cfg);
      forall u | u in batch ensures u in s.db.outbox && s.db.outbox[u].createdAt <= s.db.outbox[t].createdAt {
        assert Eligible(s.db, s.now, s.cfg, u);
      }
      if |batch| < s.cfg.batchSize { AllTaken(s, batch, t); }
    }
  }

  lemma AllTaken(s: State, batch: seq<TaskId>, t: TaskId)
    requires IsBatch(s.db, s.now, s.cfg, batch) && t in EligibleSet(s.db, s.now, s.cfg) && |batch| < s.cfg.batchSize
    ensures t in batch
  {
    var all := EligibleSet(s.db, s.now, s.cfg);
    assert forall u :: u in batch ==> Eligible(s.db, s.now, s.cfg, u);
    DistinctSize(batch);
    assert Elements(batch) <= all && |batch| == |all|;
    SameSize(Elements(batch), all);
    assert t in Elements(batch);
  }

  lemma SameSize(a: set<TaskId>, b: set<TaskId>)
    requires a <= b && |a| == |b|
    ensures a == b
  {
    assert |b - a| == |b| - |a|;
  }

  // ------------------------------------------------------------------ two claims of one row

  /** The row of t, if it is still there, was delivered or is under a claim made at `since` or later;
      and the identifier cannot be submitted again. */
  ghost predicate HeldSince(s: State, t: TaskId, since: int) {
    && (t in s.db.outbox && s.db.outbox[t].deliveredAt.None? ==> s.db.outbox[t].claimedAt.Some? && since <= s.db.outbox[t].claimedAt.value)
    && t.Minted? && t.n < s.nextId && since <= s.now
  }

  lemma TimeGoesOn(s: State, k: Step, s': State)
    requires Next(s, k, s')
    ensures s.now <= s'.now && s.nextId <= s'.nextId && s'.cfg == s.cfg
  {
    hide Enabled, Lrem, NamedIn, RecoverVerdict, ClaimTx, RecordAttemptTx, CompleteTx, FailTx, RecoverTx, ReapTx, SubmitTx, OutboxClaimTx, MarkTx,
         CleanupTx, Entries, Target, Granted;
  }

  lemma HeldNext(s: State, k: Step, s': State, t: TaskId, since: int)
    requires Next(s, k, s') && HeldSince(s, t, since)
    ensures HeldSince(s', t, since)
  {
    TimeGoesOn(s, k, s');
    if t in s'.db.outbox { OutboxIsWritten(s, k, s', t); }
    hide Next;
  }

  lemma {:induction false} HeldOn(ss: seq<State>, ks: seq<Step>, i: nat, j: nat, t: TaskId, since: int)
    requires Run(ss, ks) && i <= j < |ss| && HeldSince(ss[i], t, since)
    ensures HeldSince(ss[j], t, since)
    decreases j
  {
    hide Next, HeldSince;
    if i < j {
      HeldOn(ss, ks, i, j - 1, t, since);
      HeldNext(ss[j - 1], ks[j - 1], ss[j - 1 + 1], t, since);
    }
  }

  lemma HeldAfter(cfg: Config, ss: seq<State>, ks: seq<Step>, i: nat, v: WorkerId, a: seq<TaskId>, t: TaskId)
    requires RunFromInit(cfg, ss, ks) && i < |ks| && ks[i] == OutboxClaim(v, a) && t in a
    ensures HeldSince(ss[i + 1], t, ss[i].now)
  {
    var s, k, s' := ss[i], ks[i], ss[i + 1];
    assert Next(s, k, s');
    Outbox.OutAlways(cfg, ss, ks, i);
    assert Free(s, t) by { TakesExactly(s, v, a, t); }
    assert Outbox.OutboxRowOk(s, t, s.db.outbox[t]);
    TimeGoesOn(s, k, s');
    if t in s'.db.outbox { OutboxIsWritten(s, k, s', t); }
  }

  lemma {:induction false} SameSettings(cfg: Config, ss: seq<State>, ks: seq<Step>, i: nat)
    requires RunFromInit(cfg, ss, ks) && i < |ss|
    ensures ss[i].cfg == cfg
    decreases i
  {
    hide Next;
    if i > 0 {
      SameSettings(cfg, ss, ks, i - 1);
      TimeGoesOn(ss[i - 1], ks[i - 1], ss[i - 1 + 1]);
    }
  }

  /** Whoever claims a row again does so more than claimSeconds after the claim before, and only
      because nobody acknowledged the row meanwhile. */
  lemma ClaimsAreApart(cfg: Config, ss: seq<State>, ks: seq<Step>, i: nat, j: nat, v: WorkerId, w: WorkerId, a: seq<TaskId>, b: seq<TaskId>, t: TaskId)
    requires RunFromInit(cfg, ss, ks) && i < j < |ks|
    requires ks[i] == OutboxClaim(v, a) && ks[j] == OutboxClaim(w, b) && t in a && t in b
    ensures ss[i].now + cfg.claimSeconds < ss[j].now
    ensures t in ss[j].db.outbox && ss[j].db.outbox[t].deliveredAt.None?
  {
    HeldAfter(cfg, ss, ks, i, v, a, t);
    HeldOn(ss, ks, i + 1, j, t, ss[i].now);
    SameSettings(cfg, ss, ks, j);
    assert Next(ss[j], ks[j], ss[j + 1]);
    TakesExactly(ss[j], w, b, t);
  }

  // ------------------------------------------------------------------ expired claims

  lemma {:induction false} Earlier(ss: seq<State>, ks: seq<Step>, i: nat, j: nat)
    requires Run(ss, ks) && i <= j < |ss|
    ensures ss[i].now <= ss[j].now
    decreases j
  {
    hide Next;
    if i < j {
      Earlier(ss, ks, i, j - 1);
      TimeGoesOn(ss[j - 1], ks[j - 1], ss[j - 1 + 1]);
    }
  }

  lemma ClaimedInThePast(cfg: Config, ss: seq<State>, ks: seq<Step>, i: nat, t: TaskId)
    requires RunFromInit(cfg, ss, ks) && i < |ss| && t in ss[i].db.outbox && ss[i].db.outbox[t].claimedAt.Some?
    ensures ss[i].db.outbox[t].claimedAt.value <= ss[i].now
  {
    OutboxTellsItsStory(cfg, ss, ks, i, t);
    var row := ss[i].db.outbox[t];
    var j :| 0 <= j < i && Takes(ss[j], ks[j], t, row.claim.value) && row.claimedAt.value == ss[j].now;
    Earlier(ss, ks, j, i);
  }

  /** In every reachable state, every claim has expired once more than claimSeconds have passed:
      no pending row is held back any longer. */
  lemma AllClaimsExpire(cfg: Config, ss: seq<State>, ks: seq<Step>, i: nat, wait: nat)
    requires RunFromInit(cfg, ss, ks) && i < |ss| && cfg.claimSeconds < wait
    ensures Drain.Ready(ss[i].db, cfg, ss[i].now + wait)
  {
    var s := ss[i];
    forall t | t in Pending(s.db) ensures t in EligibleSet(s.db, s.now + wait, cfg) {
      if s.db.outbox[t].claimedAt.Some? { ClaimedInThePast(cfg, ss, ks, i, t); }
    }
  }

  /** The row of t was pushed once more, acknowledged, and its payload is among the new messages. */
  ghost predicate Served(s: State, t: TaskId, s': State) {
    && t in s.db.outbox && t in s'.db.outbox
    && s'.db.outbox[t].deliveredAt.Some? && s'.db.outbox[t].deliveryAttempts == s.db.outbox[t].deliveryAttempts + 1
    && s.queue <= s'.queue && s.db.outbox[t].payload in s'.queue[|s.queue|..]
  }

  lemma ServedBy(s: State, order: seq<TaskId>, t: TaskId, s': State)
    requires t in Elements(order) && Appended(s.db, s.queue, order, s'.queue) && ExactlyThese(s.db, s'.db, order)
    ensures Served(s, t, s')
  {
    var n :| 0 <= n < |order| && order[n] == t;
    assert s'.queue[|s.queue| + n] == s.db.outbox[t].payload;
    assert s'.queue[|s.queue|..][n] == s.db.outbox[t].payload;
  }

  ghost predicate EnoughRounds(db: Db, cfg: Config, rounds: nat)
    requires cfg.Valid()
  {
    (|Pending(db)| + cfg.batchSize - 1) / cfg.batchSize <= rounds
  }

  lemma DrainServes(s: State, t: TaskId, w: WorkerId, shifts: seq<Shift>, s': State)
    requires s.cfg.Valid() && PcOf(s, w).Idle? && OwnPayload(s.db) && Drain.Ready(s.db, s.cfg, s.now) && t in Pending(s.db)
    requires Session(s, w, shifts, s') && EnoughRounds(s.db, s.cfg, |shifts|)
    ensures Leads(s, s', true, true) && Served(s, t, s')
  {
    hide Plays, Leads, Session, Drain.Ready, OwnPayload, Pending, Batches, Elements, Appended, ExactlyThese, Served, PcOf;
    DispatcherDrains(s, w, shifts, s');
    ServedBy(s, Batches(shifts), t, s');
  }

  /** Whatever dispatchers did and however they stopped: when none of them has been at work for more
      than claimSeconds, one that hits no error pushes and acknowledges every pending row, in
      particular each one a stopped dispatcher had claimed and dropped. */
  lemma DroppedRowIsServed(cfg: Config, ss: seq<State>, ks: seq<Step>, i: nat, t: TaskId, w: WorkerId, wait: nat, shifts: seq<Shift>, s': State)
    requires cfg.Valid() && RunFromInit(cfg, ss, ks) && i < |ss| && cfg.claimSeconds < wait
    requires t in ss[i].db.outbox && ss[i].db.outbox[t].deliveredAt.None?
    requires t in ss[i].db.tasks && ss[i].db.tasks[t].status == Queued && PcOf(ss[i], w).Idle?
    requires Session(Later(ss[i], wait), w, shifts, s') && EnoughRounds(ss[i].db, cfg, |shifts|)
    ensures Leads(ss[i], s', true, true) && Served(ss[i], t, s')
  {
    var s := ss[i];
    assert t in Pending(s.db) && PcOf(Later(s, wait), w) == PcOf(s, w);
    hide RunFromInit, Leads, Session, Drain.Ready, OwnPayload, Pending, Served, EnoughRounds;
    SameSettings(cfg, ss, ks, i);
    OutboxAlwaysOwn(cfg, ss, ks, i);
    AllClaimsExpire(cfg, ss, ks, i, wait);
    DrainServes(Later(s, wait), t, w, shifts, s');
    WaitThen(s, wait, s');
    ServedLater(s, wait, t, s');
  }

  lemma ServedLater(s: State, wait: nat, t: TaskId, s': State)
    requires Served(Later(s, wait), t, s')
    ensures Served(s, t, s')
  {
  }

  lemma WaitThen(s: State, wait: nat, s': State)
    requires Leads(Later(s, wait), s', true, true)
    ensures Leads(s, s', true, true)
  {
    hide Plays, Leads;
    One(s, Tick(wait), true, true);
    Then(s, Later(s, wait), s', true, true);
  }
}
