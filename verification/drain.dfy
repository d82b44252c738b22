/** A fault-free dispatcher empties the outbox. */
module Drain {
  import opened Wrappers
  import opened Protocol
  import opened Necessity
  import Identifiers
  import Outbox

  // ------------------------------------------------------------------ one round

  /** Publish-and-acknowledge over the rest of a claimed batch. */
  function Deliver(db: Db, now: int, c: ClaimId, rest: seq<Entry>): Db
    decreases |rest|
  {
    if rest == [] then db else Deliver(MarkTx(db, now, rest[0].task, c), now, c, rest[1..])
  }

  function Payloads(rest: seq<Entry>): seq<Raw> {
    seq(|rest|, i requires 0 <= i < |rest| => rest[i].payload)
  }

  function RoundDb(db: Db, now: int, c: ClaimId, batch: seq<TaskId>): Db
    requires forall t :: t in batch ==> t in db.outbox
  {
    Deliver(OutboxClaimTx(db, now, c, batch), now, c, Entries(db, batch))
  }

  /** The dashboard stores payloads that name their own row, so publishing never refuses them. */
  ghost predicate OwnPayload(db: Db) {
    forall t :: t in db.outbox ==> db.outbox[t].payload.body == Named(t)
  }

  function DeliveredRow(row: OutboxRow, now: int): OutboxRow {
    row.(deliveredAt := Some(now), claim := None, claimedAt := None)
  }

  lemma {:induction false} DeliverEffect(db: Db, now: int, c: ClaimId, rest: seq<Entry>)
    requires forall i, j :: 0 <= i < j < |rest| ==> rest[i].task != rest[j].task
    requires forall i :: 0 <= i < |rest| ==> Markable(db, rest[i].task, c)
    ensures var r := Deliver(db, now, c, rest);
            && r.tasks == db.tasks && r.attempts == db.attempts && r.costs == db.costs && r.outbox.Keys == db.outbox.Keys
            && (forall t :: t in db.outbox && (forall i :: 0 <= i < |rest| ==> rest[i].task != t) ==> r.outbox[t] == db.outbox[t])
            && (forall i :: 0 <= i < |rest| ==> rest[i].task in db.outbox && r.outbox[rest[i].task] == DeliveredRow(db.outbox[rest[i].task], now))
    decreases |rest|
  {
    if rest != [] {
      var mid := MarkTx(db, now, rest[0].task, c);
      DeliverEffect(mid, now, c, rest[1..]);
      var r := Deliver(db, now, c, rest);
      forall t | t in db.outbox && (forall i :: 0 <= i < |rest| ==> rest[i].task != t) ensures r.outbox[t] == db.outbox[t] {
        assert rest[0].task != t;
        assert forall i :: 0 <= i < |rest[1..]| ==> rest[1..][i].task == rest[i + 1].task;
      }
      forall i | 0 <= i < |rest| ensures r.outbox[rest[i].task] == DeliveredRow(db.outbox[rest[i].task], now) {
        if i > 0 { assert rest[1..][i - 1] == rest[i]; }
      }
    }
  }

  /** What one round does: exactly the batch is acknowledged, each row counted one more attempt. */
  lemma RoundEffect(db: Db, now: int, cfg: Config, c: ClaimId, batch: seq<TaskId>)
    requires IsBatch(db, now, cfg, batch)
    ensures var r := RoundDb(db, now, c, batch);
            && r.tasks == db.tasks && r.outbox.Keys == db.outbox.Keys
            && forall t :: t in db.outbox ==>
                 r.outbox[t] == if t in batch then DeliveredRow(db.outbox[t], now).(deliveryAttempts := db.outbox[t].deliveryAttempts + 1)
                                else db.outbox[t]
  {
    var rest := Entries(db, batch);
    var mid := OutboxClaimTx(db, now, c, batch);
    forall i | 0 <= i < |rest| ensures Markable(mid, rest[i].task, c) {
      assert batch[i] in batch && Eligible(db, now, cfg, batch[i]);
    }
    DeliverEffect(mid, now, c, rest);
    var r := RoundDb(db, now, c, batch);
    forall t | t in db.outbox
      ensures r.outbox[t] == if t in batch then DeliveredRow(db.outbox[t], now).(deliveryAttempts := db.outbox[t].deliveryAttempts + 1)
                             else db.outbox[t]
    {
      if t in batch {
        var i :| 0 <= i < |batch| && batch[i] == t;
        assert rest[i].task == t;
      }
    }
  }

  // ------------------------------------------------------------------ rounds are runs

  /** A dispatcher that hits no error publishes and acknowledges entry by entry. */
  function RestState(s: State, w: WorkerId, c: ClaimId, rest: seq<Entry>): State
    decreases |rest|
  {
    if rest == [] then s
    else RestState(MarkStep(PublishStep(s, w, c, rest[0], rest[1..]), w, c, rest[0].task, rest[1..]), w, c, rest[1..])
  }

  /** One call of dispatch_pending_outbox without errors. */
  function RoundState(s: State, w: WorkerId, batch: seq<TaskId>): State
    requires forall t :: t in batch ==> t in s.db.outbox
  {
    RestState(OutboxClaimStep(s, w, batch), w, s.nextId, Entries(s.db, batch))
  }

  /** Each round is a run of the protocol by one dispatcher. */
  lemma RoundIsRun(s: State, w: WorkerId, batch: seq<TaskId>)
    requires PcOf(s, w).Idle? && IsBatch(s.db, s.now, s.cfg, batch) && OwnPayload(s.db)
    ensures var s' := RoundState(s, w, batch);
            && Leads(s, s', true, true)
            && s'.db == RoundDb(s.db, s.now, s.nextId, batch) && s'.queue == s.queue + Payloads(Entries(s.db, batch))
            && s'.now == s.now && s'.cfg == s.cfg && PcOf(s', w).Idle?
  {
    var mid := OutboxClaimStep(s, w, batch);
    One(s, OutboxClaim(w, batch), true, true);
    RestIsRun(mid, w, s.nextId, Entries(s.db, batch));
    Then(s, mid, RoundState(s, w, batch), true, true);
  }

  /** What delivering the rest of a batch leads to. */
  ghost predicate RestDone(s: State, w: WorkerId, c: ClaimId, rest: seq<Entry>) {
    var s' := RestState(s, w, c, rest);
    && Leads(s, s', true, true)
    && s'.db == Deliver(s.db, s.now, c, rest) && s'.queue == s.queue + Payloads(rest)
    && s'.now == s.now && s'.cfg == s.cfg && PcOf(s', w).Idle?
  }

  lemma RestStep(s: State, w: WorkerId, c: ClaimId, rest: seq<Entry>, mid: State)
    requires rest != [] && mid == MarkStep(PublishStep(s, w, c, rest[0], rest[1..]), w, c, rest[0].task, rest[1..])
    requires Leads(s, mid, true, true) && RestDone(mid, w, c, rest[1..])
    requires mid.db == MarkTx(s.db, s.now, rest[0].task, c) && mid.queue == s.queue + [rest[0].payload]
    requires mid.now == s.now && mid.cfg == s.cfg
    ensures RestDone(s, w, c, rest)
  {
    hide Plays, Leads, MarkStep, PublishStep, MarkTx, PcOf;
    Then(s, mid, RestState(s, w, c, rest), true, true);
    assert Payloads(rest) == [rest[0].payload] + Payloads(rest[1..]);
  }

  lemma RestEnd(s: State, w: WorkerId, c: ClaimId)
    requires PcOf(s, w).Idle?
    ensures RestDone(s, w, c, [])
  {
    assert Plays(s, [], s, true, true);
  }

  lemma {:induction false} RestIsRun(s: State, w: WorkerId, c: ClaimId, rest: seq<Entry>)
    requires PcOf(s, w) == DispatchPc(c, rest) && forall i :: 0 <= i < |rest| ==> rest[i].payload.body == Named(rest[i].task)
    ensures RestDone(s, w, c, rest)
    decreases |rest|
  {
    if rest == [] {
      RestEnd(s, w, c);
    } else {
      hide RestDone, Leads, MarkStep, PublishStep, MarkTx;
      var mid := PublishOne(s, w, c, rest);
      RestIsRun(mid, w, c, rest[1..]);
      RestStep(s, w, c, rest, mid);
    }
  }

  lemma PublishOne(s: State, w: WorkerId, c: ClaimId, rest: seq<Entry>) returns (s': State)
    requires rest != [] && PcOf(s, w) == Dispatching(c, rest) && rest[0].payload.body == Named(rest[0].task)
    ensures s' == MarkStep(PublishStep(s, w, c, rest[0], rest[1..]), w, c, rest[0].task, rest[1..])
    ensures Leads(s, s', true, true)
    ensures s'.db == MarkTx(s.db, s.now, rest[0].task, c) && s'.queue == s.queue + [rest[0].payload]
    ensures s'.now == s.now && s'.cfg == s.cfg && s'.workers == s.workers[w := DispatchPc(c, rest[1..])]
  {
    hide Plays, Leads;
    var mid := PublishStep(s, w, c, rest[0], rest[1..]);
    One(s, Publish(w), true, true);
    s' := MarkStep(mid, w, c, rest[0].task, rest[1..]);
    One(mid, Mark(w), true, true);
    Then(s, mid, s', true, true);
  }

  // ------------------------------------------------------------------ draining

  /** One dispatch round: when, under which claim, and which rows claim_pending_outbox returned. */
  datatype Round = Round(now: int, claim: ClaimId, batch: seq<TaskId>)

  ghost predicate Drains(db: Db, cfg: Config, from: int, rounds: seq<Round>, db': Db)
    decreases |rounds|
  {
    if rounds == [] then db' == db
    else
      && from <= rounds[0].now && IsBatch(db, rounds[0].now, cfg, rounds[0].batch)
      && Drains(RoundDb(db, rounds[0].now, rounds[0].claim, rounds[0].batch), cfg, from, rounds[1..], db')
  }

  function Pending(db: Db): set<TaskId> {
    set t | t in db.outbox && t in db.tasks && db.outbox[t].deliveredAt.None? && db.tasks[t].status == Queued
  }

  /** No pending row is held back by an unexpired claim. */
  ghost predicate Ready(db: Db, cfg: Config, from: int) {
    EligibleSet(db, from, cfg) == Pending(db)
  }

  function Elements(batch: seq<TaskId>): set<TaskId> {
    set t | t in batch
  }

  lemma {:induction false} DistinctSize(batch: seq<TaskId>)
    requires forall i, j :: 0 <= i < j < |batch| ==> batch[i] != batch[j]
    ensures |Elements(batch)| == |batch|
    decreases |batch|
  {
    if batch != [] {
      var front, last := batch[..|batch| - 1], batch[|batch| - 1];
      DistinctSize(front);
      assert batch == front + [last];
      assert Elements(batch) == Elements(front) + {last};
    }
  }

  /** A round removes exactly its batch from the pending rows. */
  lemma OneRound(db: Db, cfg: Config, from: int, r: Round)
    requires Ready(db, cfg, from) && from <= r.now && IsBatch(db, r.now, cfg, r.batch)
    ensures var db' := RoundDb(db, r.now, r.claim, r.batch);
            && Pending(db') == Pending(db) - Elements(r.batch) && Elements(r.batch) <= Pending(db)
            && Ready(db', cfg, from)
            && |r.batch| == Min(cfg.batchSize, |Pending(db)|) && |Pending(db')| == |Pending(db)| - |r.batch|
  {
    RoundEffect(db, r.now, cfg, r.claim, r.batch);
    assert forall t :: t in Pending(db) ==> t in EligibleSet(db, from, cfg);
    assert EligibleSet(db, r.now, cfg) == Pending(db);
    var db' := RoundDb(db, r.now, r.claim, r.batch);
    assert Pending(db') == Pending(db) - Elements(r.batch);
    assert EligibleSet(db', from, cfg) == Pending(db');
    assert forall t :: t in r.batch ==> Eligible(db, r.now, cfg, t);
    DistinctSize(r.batch);
    assert Elements(r.batch) <= Pending(db);
  }

  /** A round leaves the rows behind as they were, and none of them is older than a row it takes. */
  lemma RoundTakesOldest(db: Db, cfg: Config, from: int, r: Round, t: TaskId, u: TaskId)
    requires Ready(db, cfg, from) && from <= r.now && IsBatch(db, r.now, cfg, r.batch)
    requires t in r.batch && u in Pending(db) && u !in r.batch
    ensures t in db.outbox && db.outbox[t].createdAt <= db.outbox[u].createdAt
  {
    assert u in EligibleSet(db, from, cfg);
    assert u in EligibleSet(db, r.now, cfg);
  }

  /** All batches of a drain, in order. */
  function Flat(rounds: seq<Round>): seq<TaskId>
    decreases |rounds|
  {
    if rounds == [] then [] else rounds[0].batch + Flat(rounds[1..])
  }

  /** Rows acknowledged by the drain, each with one more attempt; the others untouched. */
  ghost predicate ExactlyThese(db: Db, db': Db, taken: seq<TaskId>) {
    && db'.tasks == db.tasks && db'.outbox.Keys == db.outbox.Keys
    && forall t :: t in db.outbox ==>
         if t in taken
         then db'.outbox[t].deliveredAt.Some? && db'.outbox[t].deliveryAttempts == db.outbox[t].deliveryAttempts + 1
              && db'.outbox[t].createdAt == db.outbox[t].createdAt
         else db'.outbox[t] == db.outbox[t]
  }

  lemma Pieces(before: set<TaskId>, mid: set<TaskId>, after: set<TaskId>, a: seq<TaskId>, b: seq<TaskId>)
    requires mid == before - Elements(a) && Elements(a) <= before && after == mid - Elements(b) && Elements(b) <= mid
    requires forall i, j :: 0 <= i < j < |a| ==> a[i] != a[j]
    requires forall i, j :: 0 <= i < j < |b| ==> b[i] != b[j]
    ensures Elements(a + b) <= before && after == before - Elements(a + b)
    ensures forall i, j :: 0 <= i < j < |a + b| ==> (a + b)[i] != (a + b)[j]
  {
    assert Elements(a + b) == Elements(a) + Elements(b);
    DrainDistinct(a, b, mid);
  }

  lemma {:induction false} DrainPending(db: Db, cfg: Config, from: int, rounds: seq<Round>, db': Db)
    requires Drains(db, cfg, from, rounds, db') && Ready(db, cfg, from)
    ensures Elements(Flat(rounds)) <= Pending(db) && Pending(db') == Pending(db) - Elements(Flat(rounds))
    ensures forall i, j :: 0 <= i < j < |Flat(rounds)| ==> Flat(rounds)[i] != Flat(rounds)[j]
    decreases |rounds|
  {
    if rounds != [] {
      var r := rounds[0];
      var mid := RoundDb(db, r.now, r.claim, r.batch);
      OneRound(db, cfg, from, r);
      DrainPending(mid, cfg, from, rounds[1..], db');
      Pieces(Pending(db), Pending(mid), Pending(db'), r.batch, Flat(rounds[1..]));
    }
  }

  lemma DrainsHead(db: Db, cfg: Config, from: int, rounds: seq<Round>, db': Db)
    requires rounds != [] && Drains(db, cfg, from, rounds, db')
    ensures from <= rounds[0].now && IsBatch(db, rounds[0].now, cfg, rounds[0].batch)
    ensures forall t :: t in rounds[0].batch ==> t in db.outbox
    ensures Drains(RoundDb(db, rounds[0].now, rounds[0].claim, rounds[0].batch), cfg, from, rounds[1..], db')
  {
    hide RoundDb;
  }

  /** How many rows k full batches hold. */
  function Capacity(k: nat, b: nat): nat {
    if k == 0 then 0 else b + Capacity(k - 1, b)
  }

  lemma {:induction false} CapacityIsProduct(k: nat, b: nat)
    ensures Capacity(k, b) == k * b
    decreases k
  {
    if k > 0 {
      CapacityIsProduct(k - 1, b);
      assert k * b == (k - 1) * b + b;
    }
  }

  lemma PendingShrinks(db: Db, cfg: Config, from: int, rounds: seq<Round>, db': Db)
    requires Drains(db, cfg, from, rounds, db') && Ready(db, cfg, from)
    ensures |Pending(db)| == 0 ==> |Pending(db')| == 0
  {
    DrainPending(db, cfg, from, rounds, db');
    hide Drains, Ready, Pending, Flat;
    Shrunk(Pending(db), Pending(db'), Elements(Flat(rounds)));
  }

  lemma RoundCounts(db: Db, cfg: Config, from: int, r: Round)
    requires Ready(db, cfg, from) && from <= r.now && IsBatch(db, r.now, cfg, r.batch) && forall t :: t in r.batch ==> t in db.outbox
    ensures var mid := RoundDb(db, r.now, r.claim, r.batch);
            Ready(mid, cfg, from) && |r.batch| == Min(cfg.batchSize, |Pending(db)|) && |Pending(mid)| == |Pending(db)| - |r.batch|
  {
    OneRound(db, cfg, from, r);
    hide IsBatch, RoundDb, Ready, Pending;
  }

  lemma CountEnd(db: Db, cfg: Config, from: int, db': Db)
    requires Drains(db, cfg, from, [], db')
    ensures |Pending(db')| == |Pending(db)| - Capacity(0, cfg.batchSize)
  {
  }

  lemma {:induction false} DrainCount(db: Db, cfg: Config, from: int, rounds: seq<Round>, db': Db)
    requires Drains(db, cfg, from, rounds, db') && Ready(db, cfg, from)
    ensures |Pending(db')| <= |Pending(db)| - Capacity(|rounds|, cfg.batchSize) || |Pending(db')| == 0
    decreases |rounds|
  {
    hide Drains, RoundDb, IsBatch, Ready, Pending, Capacity;
    if rounds == [] {
      CountEnd(db, cfg, from, db');
    } else {
      DrainsHead(db, cfg, from, rounds, db');
      RoundCounts(db, cfg, from, rounds[0]);
      var mid := RoundDb(db, rounds[0].now, rounds[0].claim, rounds[0].batch);
      DrainCount(mid, cfg, from, rounds[1..], db');
      PendingShrinks(mid, cfg, from, rounds[1..], db');
      OneLess(|rounds|, cfg.batchSize, |Pending(db)|, |Pending(mid)|, |Pending(db')|, |rounds[0].batch|);
    }
  }

  lemma Shrunk(mid: set<TaskId>, after: set<TaskId>, taken: set<TaskId>)
    requires after == mid - taken
    ensures |mid| == 0 ==> |after| == 0
  {
    assert mid == {} ==> after == {};
  }

  lemma OneLess(k: nat, b: nat, before: nat, mid: nat, after: nat, taken: nat)
    requires 1 <= k && taken == Min(b, before) && mid == before - taken
    requires after <= mid - Capacity(k - 1, b) || after == 0
    requires mid == 0 ==> after == 0
    ensures after <= before - Capacity(k, b) || after == 0
  {
  }

  lemma {:induction false} DrainEffect(db: Db, cfg: Config, from: int, rounds: seq<Round>, db': Db)
    requires Drains(db, cfg, from, rounds, db') && Ready(db, cfg, from)
    ensures ExactlyThese(db, db', Flat(rounds))
    decreases |rounds|
  {
    if rounds != [] {
      var r := rounds[0];
      var mid := RoundDb(db, r.now, r.claim, r.batch);
      OneRound(db, cfg, from, r);
      DrainEffect(mid, cfg, from, rounds[1..], db');
      DrainPending(mid, cfg, from, rounds[1..], db');
      Compose(db, cfg, r, mid, Flat(rounds[1..]), db');
    }
  }

  lemma Compose(db: Db, cfg: Config, r: Round, mid: Db, rest: seq<TaskId>, db': Db)
    requires IsBatch(db, r.now, cfg, r.batch) && mid == RoundDb(db, r.now, r.claim, r.batch)
    requires ExactlyThese(mid, db', rest) && Elements(rest) !! Elements(r.batch)
    ensures ExactlyThese(db, db', r.batch + rest)
  {
    RoundEffect(db, r.now, cfg, r.claim, r.batch);
    forall t | t in db.outbox && t in r.batch ensures t !in rest {
      assert t in Elements(r.batch);
    }
  }

  lemma DrainDistinct(a: seq<TaskId>, b: seq<TaskId>, rest: set<TaskId>)
    requires forall i, j :: 0 <= i < j < |a| ==> a[i] != a[j]
    requires forall i, j :: 0 <= i < j < |b| ==> b[i] != b[j]
    requires Elements(b) <= rest && rest !! Elements(a)
    ensures forall i, j :: 0 <= i < j < |a + b| ==> (a + b)[i] != (a + b)[j]
  {
    forall i, j | 0 <= i < j < |a + b| ensures (a + b)[i] != (a + b)[j] {
      if i < |a| <= j {
        assert a[i] in Elements(a) && b[j - |a|] in Elements(b);
      }
    }
  }

  /** Earlier-created rows go out in earlier batches. */
  lemma {:induction false} OldestFirst(db: Db, cfg: Config, from: int, rounds: seq<Round>, db': Db, i: nat, j: nat, t: TaskId, u: TaskId)
    requires Drains(db, cfg, from, rounds, db') && Ready(db, cfg, from)
    requires i < j < |rounds| && t in rounds[i].batch && u in rounds[j].batch
    ensures t in db.outbox && u in db.outbox && db.outbox[t].createdAt <= db.outbox[u].createdAt
    decreases |rounds|
  {
    var r := rounds[0];
    var mid := RoundDb(db, r.now, r.claim, r.batch);
    OneRound(db, cfg, from, r);
    if i > 0 {
      OldestFirst(mid, cfg, from, rounds[1..], db', i - 1, j - 1, t, u);
      RoundEffect(db, r.now, cfg, r.claim, r.batch);
    } else {
      LaterInFlat(rounds[1..], j - 1, u);
      DrainPending(mid, cfg, from, rounds[1..], db');
      assert u in Elements(Flat(rounds[1..])) && t in Elements(r.batch);
      RoundTakesOldest(db, cfg, from, r, t, u);
    }
  }

  lemma {:induction false} LaterInFlat(rounds: seq<Round>, j: nat, u: TaskId)
    requires j < |rounds| && u in rounds[j].batch
    ensures u in Flat(rounds)
    decreases |rounds|
  {
    if j > 0 { LaterInFlat(rounds[1..], j - 1, u); }
  }

  /** n pending rows, none of them held back, are each pushed and acknowledged exactly once within
      ceil(n / batch size) rounds, and no other row is touched. */
  lemma OutboxDrains(db: Db, cfg: Config, from: int, rounds: seq<Round>, db': Db)
    requires cfg.Valid() && Drains(db, cfg, from, rounds, db') && Ready(db, cfg, from)
    requires (|Pending(db)| + cfg.batchSize - 1) / cfg.batchSize <= |rounds|
    ensures Pending(db') == {}
    ensures Elements(Flat(rounds)) == Pending(db) && |Flat(rounds)| == |Pending(db)|
    ensures ExactlyThese(db, db', Flat(rounds))
  {
    DrainEffect(db, cfg, from, rounds, db');
    AllDrained(db, cfg, from, rounds, db');
    DrainedExactly(db, cfg, from, rounds, db');
    hide Drains, Ready, Pending, Flat, ExactlyThese;
    AllTaken(Pending(db), Pending(db'), Elements(Flat(rounds)));
  }

  lemma DrainedExactly(db: Db, cfg: Config, from: int, rounds: seq<Round>, db': Db)
    requires Drains(db, cfg, from, rounds, db') && Ready(db, cfg, from)
    ensures Elements(Flat(rounds)) <= Pending(db) && Pending(db') == Pending(db) - Elements(Flat(rounds))
    ensures |Elements(Flat(rounds))| == |Flat(rounds)|
  {
    DrainPending(db, cfg, from, rounds, db');
    hide Drains, Ready, Pending, Flat, Elements;
    DistinctSize(Flat(rounds));
  }

  lemma AllTaken(before: set<TaskId>, after: set<TaskId>, taken: set<TaskId>)
    requires taken <= before && after == before - taken && after == {}
    ensures taken == before
  {
    forall t | t in before ensures t in taken {
      assert t !in before - taken;
    }
  }

  lemma AllDrained(db: Db, cfg: Config, from: int, rounds: seq<Round>, db': Db)
    requires cfg.Valid() && Drains(db, cfg, from, rounds, db') && Ready(db, cfg, from)
    requires (|Pending(db)| + cfg.batchSize - 1) / cfg.batchSize <= |rounds|
    ensures Pending(db') == {}
  {
    DrainCount(db, cfg, from, rounds, db');
    hide Drains, Ready, Pending;
    CeilEnough(|Pending(db)|, cfg.batchSize, |rounds|);
    CapacityIsProduct(|rounds|, cfg.batchSize);
    assert |Pending(db')| == 0;
  }

  // ------------------------------------------------------------------ sessions

  /** The dispatcher waits, then claims and delivers the batch claim_pending_outbox returns. */
  datatype Shift = Shift(wait: nat, batch: seq<TaskId>)

  function Later(s: State, seconds: nat): State { s.(now := s.now + seconds) }

  ghost predicate Session(s: State, w: WorkerId, shifts: seq<Shift>, s': State)
    decreases |shifts|
  {
    if shifts == [] then s' == s
    else
      var mid := Later(s, shifts[0].wait);
      && IsBatch(mid.db, mid.now, mid.cfg, shifts[0].batch)
      && Session(RoundState(mid, w, shifts[0].batch), w, shifts[1..], s')
  }

  function Batches(shifts: seq<Shift>): seq<TaskId>
    decreases |shifts|
  {
    if shifts == [] then [] else shifts[0].batch + Batches(shifts[1..])
  }

  /** `after` is `before` followed by the payloads of the named rows, in that order. */
  ghost predicate Appended(db: Db, before: seq<Raw>, order: seq<TaskId>, after: seq<Raw>) {
    && |after| == |before| + |order| && after[..|before|] == before
    && forall i :: 0 <= i < |order| ==> order[i] in db.outbox && after[|before| + i] == db.outbox[order[i]].payload
  }

  lemma AppendedTwice(db: Db, mid: Db, before: seq<Raw>, a: seq<TaskId>, between: seq<Raw>, b: seq<TaskId>, after: seq<Raw>)
    requires Appended(db, before, a, between) && Appended(mid, between, b, after) && SamePayloads(db, mid)
    ensures Appended(db, before, a + b, after)
  {
    forall i | 0 <= i < |a + b|
      ensures (a + b)[i] in db.outbox && after[|before| + i] == db.outbox[(a + b)[i]].payload
    {
      if i < |a| {
        assert after[|before| + i] == after[..|between|][|before| + i];
      } else {
        assert after[|between| + (i - |a|)] == mid.outbox[b[i - |a|]].payload;
      }
    }
    assert after[..|before|] == after[..|between|][..|before|];
  }

  ghost predicate SamePayloads(db: Db, db': Db) {
    db'.outbox.Keys == db.outbox.Keys && forall t :: t in db.outbox ==> db'.outbox[t].payload == db.outbox[t].payload
  }

  lemma RoundKeepsPayloads(db: Db, now: int, cfg: Config, c: ClaimId, batch: seq<TaskId>)
    requires IsBatch(db, now, cfg, batch)
    ensures SamePayloads(db, RoundDb(db, now, c, batch))
  {
    hide RoundDb;
    assert forall t :: t in batch ==> Eligible(db, now, cfg, t);
    RoundEffect(db, now, cfg, c, batch);
    var r := RoundDb(db, now, c, batch);
    forall t | t in db.outbox ensures r.outbox[t].payload == db.outbox[t].payload { }
  }

  lemma OneShift(s: State, w: WorkerId, shift: Shift) returns (s': State)
    requires PcOf(s, w).Idle? && OwnPayload(s.db) && IsBatch(s.db, s.now + shift.wait, s.cfg, shift.batch)
    ensures s' == RoundState(Later(s, shift.wait), w, shift.batch) && Leads(s, s', true, true)
    ensures s'.db == RoundDb(s.db, s.now + shift.wait, s.nextId, shift.batch)
    ensures SamePayloads(s.db, s'.db) && Appended(s.db, s.queue, shift.batch, s'.queue)
    ensures s'.now == s.now + shift.wait && s'.cfg == s.cfg && PcOf(s', w).Idle?
  {
    hide Plays, Leads, RoundDb, RestState, MarkTx;
    var mid := Later(s, shift.wait);
    One(s, Tick(shift.wait), true, true);
    RoundIsRun(mid, w, shift.batch);
    s' := RoundState(mid, w, shift.batch);
    Then(s, mid, s', true, true);
    RoundKeepsPayloads(s.db, mid.now, s.cfg, s.nextId, shift.batch);
  }

  lemma OwnPayloadKept(db: Db, db': Db)
    requires OwnPayload(db) && SamePayloads(db, db')
    ensures OwnPayload(db')
  {
  }

  lemma OneMoreRound(db: Db, cfg: Config, from: int, r: Round, rest: seq<Round>, db': Db)
    requires from <= r.now && IsBatch(db, r.now, cfg, r.batch) && Drains(RoundDb(db, r.now, r.claim, r.batch), cfg, from, rest, db')
    ensures Drains(db, cfg, from, [r] + rest, db') && Flat([r] + rest) == r.batch + Flat(rest)
  {
    hide RoundDb, IsBatch;
    assert ([r] + rest)[1..] == rest;
  }

  lemma SessionEnd(s: State, w: WorkerId, from: int, s': State)
    requires Session(s, w, [], s')
    ensures Drains(s.db, s.cfg, from, [], s'.db) && Flat([]) == Batches([])
  {
  }

  lemma SessionHead(s: State, w: WorkerId, shifts: seq<Shift>, s': State)
    requires shifts != [] && Session(s, w, shifts, s')
    ensures IsBatch(s.db, s.now + shifts[0].wait, s.cfg, shifts[0].batch) && forall t :: t in shifts[0].batch ==> t in s.db.outbox
    ensures Session(RoundState(Later(s, shifts[0].wait), w, shifts[0].batch), w, shifts[1..], s')
    ensures Batches(shifts) == shifts[0].batch + Batches(shifts[1..])
  {
    hide RoundState;
  }

  lemma SessionStart(s: State, w: WorkerId, s': State)
    requires Session(s, w, [], s')
    ensures Leads(s, s', true, true) && Appended(s.db, s.queue, Batches([]), s'.queue)
  {
    assert Plays(s, [], s, true, true);
  }

  lemma {:induction false} SessionRuns(s: State, w: WorkerId, shifts: seq<Shift>, s': State)
    requires PcOf(s, w).Idle? && OwnPayload(s.db) && Session(s, w, shifts, s')
    ensures Leads(s, s', true, true) && Appended(s.db, s.queue, Batches(shifts), s'.queue)
    decreases |shifts|
  {
    hide Session, Plays, Leads, Appended, RoundState, RoundDb, IsBatch, PcOf, OwnPayload, SamePayloads, Batches;
    if shifts == [] {
      SessionStart(s, w, s');
    } else {
      SessionHead(s, w, shifts, s');
      var next := OneShift(s, w, shifts[0]);
      OwnPayloadKept(s.db, next.db);
      SessionRuns(next, w, shifts[1..], s');
      Then(s, next, s', true, true);
      AppendedTwice(s.db, next.db, s.queue, shifts[0].batch, next.queue, Batches(shifts[1..]), s'.queue);
    }
  }

  lemma {:induction false} SessionIsDrain(s: State, w: WorkerId, from: int, shifts: seq<Shift>, s': State) returns (rounds: seq<Round>)
    requires PcOf(s, w).Idle? && OwnPayload(s.db) && Session(s, w, shifts, s') && from <= s.now
    ensures |rounds| == |shifts| && Drains(s.db, s.cfg, from, rounds, s'.db) && Flat(rounds) == Batches(shifts)
    decreases |shifts|
  {
    hide Session, Plays, Leads, Appended, RoundState, RoundDb, IsBatch, PcOf, OwnPayload, SamePayloads, Drains, Flat, Batches;
    if shifts == [] {
      rounds := [];
      SessionEnd(s, w, from, s');
    } else {
      SessionHead(s, w, shifts, s');
      var next := OneShift(s, w, shifts[0]);
      OwnPayloadKept(s.db, next.db);
      var rest := SessionIsDrain(next, w, from, shifts[1..], s');
      var first := Round(s.now + shifts[0].wait, s.nextId, shifts[0].batch);
      OneMoreRound(s.db, s.cfg, from, first, rest, s'.db);
      rounds := [first] + rest;
    }
  }

  /** From any state whose outbox rows are the dashboard's own, a dispatcher that hits no error
      pushes each of the n pending rows exactly once onto the task list and acknowledges it,
      within ceil(n / batch size) calls, while nothing else is submitted. */
  lemma DispatcherDrains(s: State, w: WorkerId, shifts: seq<Shift>, s': State)
    requires s.cfg.Valid() && PcOf(s, w).Idle? && OwnPayload(s.db) && Ready(s.db, s.cfg, s.now)
    requires Session(s, w, shifts, s') && (|Pending(s.db)| + s.cfg.batchSize - 1) / s.cfg.batchSize <= |shifts|
    ensures Leads(s, s', true, true) && Pending(s'.db) == {}
    ensures Elements(Batches(shifts)) == Pending(s.db) && |Batches(shifts)| == |Pending(s.db)|
    ensures Appended(s.db, s.queue, Batches(shifts), s'.queue) && ExactlyThese(s.db, s'.db, Batches(shifts))
  {
    hide Plays, Leads, Session, Appended, ExactlyThese, Pending, Ready;
    SessionRuns(s, w, shifts, s');
    var rounds := SessionIsDrain(s, w, s.now, shifts, s');
    OutboxDrains(s.db, s.cfg, s.now, rounds, s'.db);
  }

  ghost predicate SubmittedOwn(s: State) {
    forall t :: t in s.h.submitted ==> s.h.submitted[t].body == Named(t)
  }

  lemma SubmittedOwnStep(s: State, k: Step, s': State)
    requires SubmittedOwn(s) && Next(s, k, s')
    ensures SubmittedOwn(s')
  {
    if k.Submit? {
      assert s' == SubmitStep(s, k.text);
    } else {
      Identifiers.SubmittedUntouched(s, k, s');
    }
    hide Apply, Enabled;
  }

  lemma {:induction false} SubmittedOwnAlways(cfg: Config, ss: seq<State>, ks: seq<Step>, i: nat)
    requires RunFromInit(cfg, ss, ks) && i < |ss|
    ensures SubmittedOwn(ss[i])
    decreases i
  {
    if i > 0 {
      SubmittedOwnAlways(cfg, ss, ks, i - 1);
      SubmittedOwnStep(ss[i - 1], ks[i - 1], ss[i - 1 + 1]);
    }
  }

  /** In every reachable state the outbox holds only payloads that name their own row, so the
      identity check of publish_outbox_claim never retains one. */
  lemma OutboxAlwaysOwn(cfg: Config, ss: seq<State>, ks: seq<Step>, i: nat)
    requires RunFromInit(cfg, ss, ks) && i < |ss|
    ensures OwnPayload(ss[i].db)
  {
    SubmittedOwnAlways(cfg, ss, ks, i);
    Outbox.OutAlways(cfg, ss, ks, i);
    forall t | t in ss[i].db.outbox ensures ss[i].db.outbox[t].payload.body == Named(t) {
      assert Outbox.OutboxRowOk(ss[i], t, ss[i].db.outbox[t]);
    }
  }

  lemma CeilEnough(n: nat, b: nat, k: nat)
    requires 1 <= b && (n + b - 1) / b <= k
    ensures n <= k * b
  {
    var q := (n + b - 1) / b;
    assert n + b - 1 == q * b + (n + b - 1) % b;
    assert q * b <= k * b;
  }
}
