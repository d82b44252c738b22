/** The shared state the processes update in place: four PostgreSQL tables and three Redis lists.
    Each method is one transaction, one Redis command or one Lua script, statement by statement;
    its contract ties the new tables or lists to the functions of `Protocol`. */
module ControlPlanes {
  import opened Wrappers
  import opened Protocol
  import opened Identifiers

  /** ORDER BY started_at DESC LIMIT 1 over the attempts in `seen`. */
  ghost predicate LatestAmong(attempts: map<Exec, AttemptRow>, seen: set<Exec>, t: TaskId, pick: Option<Exec>) {
    match pick
    case None => forall x :: x in seen && x in attempts ==> !IsInflight(attempts, t, x)
    case Some(x) =>
      && x in seen && IsInflight(attempts, t, x)
      && forall y :: y in seen && y in attempts && IsInflight(attempts, t, y) ==> attempts[y].startedAt <= attempts[x].startedAt
  }

  ghost predicate NoneInflight(attempts: map<Exec, AttemptRow>, t: TaskId) {
    forall x :: x in attempts && x.task == t ==> attempts[x].status != Inflight
  }

  /** `batch` lists the oldest rows of `all`, oldest first. */
  ghost predicate OldestOf(outbox: map<TaskId, OutboxRow>, all: set<TaskId>, batch: seq<TaskId>) {
    && (forall t :: t in all ==> t in outbox)
    && (forall i :: 0 <= i < |batch| ==> batch[i] in all)
    && (forall i, j :: 0 <= i < j < |batch| ==> batch[i] != batch[j])
    && (forall i, u :: 0 <= i < |batch| && u in all && u !in batch ==> outbox[batch[i]].createdAt <= outbox[u].createdAt)
  }

  /** Taking the oldest remaining row keeps the batch oldest-first. */
  lemma OldestGrows(outbox: map<TaskId, OutboxRow>, all: set<TaskId>, batch: seq<TaskId>, next: TaskId)
    requires OldestOf(outbox, all, batch) && next in all && next !in batch
    requires forall u :: u in all && u !in batch ==> outbox[next].createdAt <= outbox[u].createdAt
    ensures OldestOf(outbox, all, batch + [next])
  {
    var longer := batch + [next];
    forall i, u | 0 <= i < |longer| && u in all && u !in longer ensures outbox[longer[i]].createdAt <= outbox[u].createdAt {
      assert forall v :: v in batch ==> v in longer;
    }
  }

  lemma BatchOfAll(db: Db, now: int, cfg: Config, batch: seq<TaskId>)
    requires OldestOf(db.outbox, EligibleSet(db, now, cfg), batch)
    requires |batch| == Min(cfg.batchSize, |EligibleSet(db, now, cfg)|)
    ensures IsBatch(db, now, cfg, batch)
  {
    forall t | t in batch ensures Eligible(db, now, cfg, t) {
      var i :| 0 <= i < |batch| && batch[i] == t;
    }
  }

  class ControlPlane {
    const cfg: Config
    var now: int
    var nextId: nat
    var tasks: map<TaskId, TaskRow>
    var attempts: map<Exec, AttemptRow>
    var costs: seq<Exec>
    var outbox: map<TaskId, OutboxRow>
    var queue: seq<Raw>
    var processing: seq<Raw>
    var dead: seq<Raw>
    ghost var workers: map<WorkerId, Pc>
    ghost var h: History

    constructor (settings: Config)
      ensures View() == Init(settings)
    {
      cfg, now, nextId := settings, 0, 0;
      tasks, attempts, costs, outbox := map[], map[], [], map[];
      queue, processing, dead := [], [], [];
      workers, h := Init(settings).workers, Init(settings).h;
    }

    ghost function Tables(): Db
      reads this
    {
      Db(tasks, attempts, costs, outbox)
    }

    ghost function View(): State
      reads this
    {
      State(cfg, now, nextId, Tables(), queue, processing, dead, workers, h)
    }

    /** uuid.uuid4(): an identifier nobody has seen before. */
    method Uuid4() returns (uuid: nat)
      modifies `nextId
      ensures uuid == old(nextId) && nextId == old(nextId) + 1
    {
      uuid := nextId;
      nextId := nextId + 1;
    }

    // ---------------------------------------------------------------- claim and outcome

    method InsertQueued(t: TaskId)
      modifies `tasks
      ensures tasks == InsertTask(old(tasks), t, now)
    {
      if t !in tasks {
        tasks := tasks[t := TaskRow(now, Queued, None, None, None, None)];
      }
    }

    method SelectInflight(t: TaskId) returns (pick: Option<Exec>)
      ensures LatestInflight(attempts, t, pick)
    {
      pick := None;
      var rest := attempts.Keys;
      while rest != {}
        invariant rest <= attempts.Keys
        invariant LatestAmong(attempts, attempts.Keys - rest, t, pick)
        decreases |rest|
      {
        var x :| x in rest;
        rest := rest - {x};
        if x.task == t && attempts[x].status == Inflight
           && (pick.None? || attempts[pick.value].startedAt < attempts[x].startedAt)
        {
          pick := Some(x);
        }
      }
    }

    /** A queued task without an inflight attempt becomes running under the new lease; an inflight
        attempt is written off as uncertain and blocks the claim; anything else is a duplicate. */
    method ClaimTask(t: TaskId, e: Lease) returns (lease: Option<Lease>, ghost pick: Option<Exec>)
      modifies `tasks, `attempts
      ensures LatestInflight(old(attempts), t, pick)
      ensures Tables() == ClaimTx(old(Tables()), now, t, e, pick)
      ensures lease == if Granted(old(Tables()), t, pick) then Some(e) else None
      ensures lease.Some? <==>
                NoneInflight(old(attempts), t) && (t in old(tasks) ==> old(tasks)[t].status == Queued)
      ensures t in tasks && (lease.Some? ==> tasks[t].status == Running && tasks[t].lease == Some(e) && tasks[t].startedAt == Some(now))
      ensures pick.Some? ==>
                && pick.value in attempts && attempts[pick.value].status == OutcomeUnknown
                && (t !in old(tasks) || old(tasks)[t].status == Queued ==> tasks[t].status == Failed && tasks[t].completedAt == Some(now))
    {
      InsertQueued(t);
      var uncertain := SelectInflight(t);
      pick := uncertain;
      if uncertain.Some? {
        if tasks[t].status == Queued {
          tasks := tasks[t := tasks[t].(status := Failed, completedAt := Some(now))];
        }
        var x := Exec(t, uncertain.value.lease);
        if x in attempts && attempts[x].status == Inflight {
          attempts := attempts[x := attempts[x].(status := OutcomeUnknown)];
        }
        return None, pick;
      }
      lease := None;
      if tasks[t].status == Queued {
        tasks := tasks[t := tasks[t].(status := Running, startedAt := Some(now), completedAt := None, lease := Some(e))];
        lease := Some(e);
      }
    }

    method RecordProviderAttempt(x: Exec)
      modifies `attempts
      ensures Tables() == RecordAttemptTx(old(Tables()), now, x)
      ensures x in attempts && attempts[x] == if x in old(attempts) then old(attempts)[x] else AttemptRow(Inflight, now)
    {
      if x !in attempts {
        attempts := attempts[x := AttemptRow(Inflight, now)];
      }
    }

    method ConcludeAttempt(x: Exec, status: AttemptStatus)
      modifies `attempts
      ensures attempts == Conclude(old(attempts), x, status)
    {
      if x in attempts && attempts[x].status == Inflight {
        attempts := attempts[x := attempts[x].(status := status)];
      }
    }

    /** Receipt, result and attempt outcome are committed together; the row moves only for the
        worker that still holds its lease. */
    method RecordCompletion(x: Exec, result: nat) returns (completed: bool)
      modifies `tasks, `attempts, `costs
      ensures Tables() == CompleteTx(old(Tables()), now, x, result)
      ensures completed <==> x.task in old(tasks) && Holds(old(tasks)[x.task], x.lease)
      ensures completed ==>
                && tasks[x.task].status == Succeeded && tasks[x.task].result == Some(result)
                && tasks[x.task].completedAt == Some(now) && tasks[x.task].lease == Some(x.lease)
      ensures x in costs && (x in attempts && old(attempts)[x].status == Inflight ==> attempts[x].status == Completed)
    {
      if x !in costs {
        costs := costs + [x];
      }
      completed := false;
      if x.task in tasks && tasks[x.task].status == Running && tasks[x.task].lease == Some(x.lease) {
        tasks := tasks[x.task := tasks[x.task].(status := Succeeded, completedAt := Some(now), result := Some(result))];
        completed := true;
      }
      ConcludeAttempt(x, Completed);
    }

    method RecordFailed(x: Exec) returns (failed: bool)
      modifies `tasks, `attempts
      ensures Tables() == FailTx(old(Tables()), now, x)
      ensures failed <==> x.task in old(tasks) && Holds(old(tasks)[x.task], x.lease)
      ensures failed ==> tasks[x.task].status == Failed && tasks[x.task].completedAt == Some(now)
      ensures costs == old(costs) && (x in attempts && old(attempts)[x].status == Inflight ==> attempts[x].status == AttemptFailed)
    {
      failed := false;
      if x.task in tasks && tasks[x.task].status == Running && tasks[x.task].lease == Some(x.lease) {
        tasks := tasks[x.task := tasks[x.task].(status := Failed, completedAt := Some(now))];
        failed := true;
      }
      ConcludeAttempt(x, AttemptFailed);
    }

    // ---------------------------------------------------------------- dashboard

    method RecordQueuedTask(t: TaskId, payload: Raw)
      modifies `tasks, `outbox
      ensures Tables() == SubmitTx(old(Tables()), now, t, payload)
      ensures t in tasks && t in outbox
      ensures t !in old(tasks) ==> tasks[t].status == Queued && tasks[t].createdAt == now
      ensures t !in old(outbox) ==> outbox[t].payload == payload && outbox[t].createdAt == now && outbox[t].deliveredAt.None?
    {
      InsertQueued(t);
      if t !in outbox {
        outbox := outbox[t := OutboxRow(payload, now, None, None, None, 0)];
      }
    }

    // ---------------------------------------------------------------- outbox

    method SelectEligible() returns (all: set<TaskId>)
      ensures all == EligibleSet(Tables(), now, cfg)
    {
      all := set t | t in outbox && t in tasks && outbox[t].deliveredAt.None? && tasks[t].status == Queued
                     && (outbox[t].claimedAt.None? || outbox[t].claimedAt.value < now - cfg.claimSeconds);
    }

    method Oldest(rows: set<TaskId>) returns (first: TaskId)
      requires rows != {} && forall t :: t in rows ==> t in outbox
      ensures first in rows && forall u :: u in rows ==> outbox[first].createdAt <= outbox[u].createdAt
    {
      first :| first in rows;
      var rest := rows - {first};
      while rest != {}
        invariant rest <= rows && first in rows
        invariant forall u :: u in rows - rest ==> outbox[first].createdAt <= outbox[u].createdAt
        decreases |rest|
      {
        var t :| t in rest;
        rest := rest - {t};
        if outbox[t].createdAt < outbox[first].createdAt {
          first := t;
        }
      }
    }

    /** ORDER BY created_at LIMIT batch size. */
    method SelectBatch() returns (batch: seq<TaskId>)
      ensures IsBatch(Tables(), now, cfg, batch)
    {
      var all := SelectEligible();
      batch := [];
      var rest := all;
      while |batch| < cfg.batchSize && rest != {}
        invariant rest <= all && |batch| <= cfg.batchSize && |rest| + |batch| == |all|
        invariant forall t :: t in all ==> (t in rest <==> t !in batch)
        invariant OldestOf(outbox, all, batch)
        decreases |rest|
      {
        var next := Oldest(rest);
        OldestGrows(outbox, all, batch, next);
        batch := batch + [next];
        rest := rest - {next};
      }
      BatchOfAll(Tables(), now, cfg, batch);
    }

    /** UPDATE ... FROM candidates: the batch is now claimed by c, one attempt more. */
    method TakeRows(candidates: seq<TaskId>, c: ClaimId)
      requires forall t :: t in candidates ==> t in outbox
      requires forall i, j :: 0 <= i < j < |candidates| ==> candidates[i] != candidates[j]
      modifies `outbox
      ensures outbox.Keys == old(outbox).Keys
      ensures forall t :: t in outbox ==>
                outbox[t] == if t in candidates then ClaimRow(old(outbox)[t], now, c) else old(outbox)[t]
    {
      var i := 0;
      while i < |candidates|
        invariant 0 <= i <= |candidates|
        invariant outbox.Keys == old(outbox).Keys
        invariant forall t :: t in outbox ==>
                    outbox[t] == if t in candidates[..i] then ClaimRow(old(outbox)[t], now, c) else old(outbox)[t]
      {
        var t := candidates[i];
        assert candidates[..i + 1] == candidates[..i] + [t];
        outbox := outbox[t := outbox[t].(claim := Some(c), claimedAt := Some(now), deliveryAttempts := outbox[t].deliveryAttempts + 1)];
        i := i + 1;
      }
      assert candidates[..i] == candidates;
    }

    method ClaimPendingOutbox(c: ClaimId) returns (claimed: seq<Entry>, ghost batch: seq<TaskId>)
      modifies `outbox
      ensures IsBatch(old(Tables()), now, cfg, batch) && forall t :: t in batch ==> t in old(outbox)
      ensures Tables() == OutboxClaimTx(old(Tables()), now, c, batch)
      ensures claimed == Entries(old(Tables()), batch)
      ensures forall t :: t in batch ==>
                && t in old(tasks) && old(tasks)[t].status == Queued && old(outbox)[t].deliveredAt.None?
                && (old(outbox)[t].claimedAt.Some? ==> old(outbox)[t].claimedAt.value + cfg.claimSeconds < now)
                && t in outbox && outbox[t].claim == Some(c) && outbox[t].claimedAt == Some(now)
    {
      var candidates := SelectBatch();
      batch := candidates;
      var rows := outbox;
      forall i | 0 <= i < |candidates| ensures candidates[i] in rows {
        assert candidates[i] in candidates;
        assert Eligible(Tables(), now, cfg, candidates[i]);
      }
      claimed := seq(|candidates|, i requires 0 <= i < |candidates| => Entry(candidates[i], rows[candidates[i]].payload));
      TakeRows(candidates, c);
      assert outbox == OutboxClaimTx(old(Tables()), now, c, batch).outbox;
    }

    /** Only the current claim of an undelivered row can acknowledge it. */
    method MarkOutboxDelivered(t: TaskId, c: ClaimId) returns (delivered: bool)
      modifies `outbox
      ensures Tables() == MarkTx(old(Tables()), now, t, c)
      ensures delivered <==> t in old(outbox) && old(outbox)[t].deliveredAt.None? && old(outbox)[t].claim == Some(c)
      ensures delivered ==> t in outbox && outbox[t].deliveredAt == Some(now) && outbox[t].claim.None? && outbox[t].claimedAt.None?
    {
      delivered := t in outbox && outbox[t].deliveredAt.None? && outbox[t].claim == Some(c);
      if delivered {
        outbox := outbox[t := outbox[t].(deliveredAt := Some(now), claim := None, claimedAt := None)];
      }
    }

    method CleanupTerminalOutbox() returns (removed: nat)
      modifies `outbox
      ensures Tables() == CleanupTx(old(Tables()), now, cfg)
      ensures forall t :: t in old(outbox) ==>
                (t !in outbox <==> t in tasks && (tasks[t].status == Succeeded || tasks[t].status == Failed)
                                   && old(outbox)[t].deliveredAt.Some? && old(outbox)[t].deliveredAt.value + cfg.retentionSeconds < now)
      ensures removed == |old(outbox)| - |outbox|
    {
      var expired := set t | t in outbox && t in tasks && (tasks[t].status == Succeeded || tasks[t].status == Failed)
                             && outbox[t].deliveredAt.Some? && outbox[t].deliveredAt.value < now - cfg.retentionSeconds;
      removed := |expired|;
      ghost var before := outbox;
      outbox := outbox - expired;
      assert outbox.Keys == before.Keys - expired;
      assert |before.Keys| == |before.Keys - expired| + |expired| by {
        assert before.Keys == (before.Keys - expired) + expired;
      }
      assert outbox == CleanupTx(old(Tables()), now, cfg).outbox;
    }

    // ---------------------------------------------------------------- recovery and reaping

    /** The database half of one recovery entry. */
    method RecoverRow(t: TaskId) returns (recovered: bool, terminal: bool)
      modifies `tasks
      ensures Tables() == RecoverTx(old(Tables()), now, cfg, t)
      ensures recovered <==> RecoverVerdict(old(Tables()), now, cfg, t) == Requeue
      ensures terminal <==> RecoverVerdict(old(Tables()), now, cfg, t) == Settled
      ensures recovered ==> t in tasks && tasks[t].status == Queued && tasks[t].lease.None? && (t in old(tasks) || tasks[t].createdAt == now)
      ensures t in old(tasks) && old(tasks)[t].status == Running ==>
                (recovered <==> old(tasks)[t].startedAt.Some? && old(tasks)[t].startedAt.value + cfg.leaseSeconds < now)
      ensures t !in old(tasks) || old(tasks)[t].status == Queued ==> recovered
      ensures terminal <==> t in old(tasks) && (old(tasks)[t].status == Succeeded || old(tasks)[t].status == Failed)
    {
      recovered := t !in tasks;
      InsertQueued(t);
      if !recovered
         && (tasks[t].status == Queued
             || (tasks[t].status == Running && tasks[t].startedAt.Some? && tasks[t].startedAt.value < now - cfg.leaseSeconds))
      {
        tasks := tasks[t := tasks[t].(status := Queued, startedAt := None, lease := None)];
        recovered := true;
      }
      terminal := false;
      if !recovered {
        terminal := tasks[t].status == Succeeded || tasks[t].status == Failed;
      }
    }

    /** Fails every long-queued row whose delivery was not observed, and no other row. */
    method ReapRows(observed: set<TaskId>)
      modifies `tasks
      ensures Tables() == ReapTx(old(Tables()), now, cfg, observed)
      ensures forall t :: t in old(tasks) ==>
                t in tasks && (tasks[t] != old(tasks)[t] <==>
                                 old(tasks)[t].status == Queued && old(tasks)[t].createdAt + cfg.orphanSeconds < now && t !in observed)
      ensures forall t :: t in old(tasks) && tasks[t] != old(tasks)[t] ==> tasks[t].status == Failed && tasks[t].completedAt == Some(now)
    {
      ghost var before := tasks;
      var candidates := set t | t in tasks && tasks[t].status == Queued && tasks[t].createdAt < now - cfg.orphanSeconds;
      var rest := candidates;
      while rest != {}
        invariant rest <= candidates && tasks.Keys == before.Keys
        invariant forall t :: t in before ==>
                    tasks[t] == if t in candidates - rest && t !in observed then FailRow(before[t], now) else before[t]
        decreases |rest|
      {
        var t :| t in rest;
        rest := rest - {t};
        if t !in observed {
          if tasks[t].status == Queued && tasks[t].createdAt < now - cfg.orphanSeconds {
            tasks := tasks[t := tasks[t].(status := Failed, completedAt := Some(now))];
          }
        }
      }
      forall t | t in before
        ensures tasks[t] == if Reaped(before[t], t, now, cfg, observed) then FailRow(before[t], now) else before[t]
      {
        assert t in candidates <==> (before[t].status == Queued && before[t].createdAt < now - cfg.orphanSeconds);
      }
      assert tasks == ReapTx(old(Tables()), now, cfg, observed).tasks;
    }

    // ---------------------------------------------------------------- Redis

    /** LREM list 1 raw: where the first occurrence is, if any. */
    method FindFirst(list: seq<Raw>, raw: Raw) returns (at: nat)
      ensures at <= |list| && raw !in list[..at] && (at < |list| ==> list[at] == raw)
    {
      at := 0;
      while at < |list| && list[at] != raw
        invariant at <= |list| && raw !in list[..at]
      {
        assert list[..at + 1] == list[..at] + [list[at]];
        at := at + 1;
      }
    }

    method LremProcessing(raw: Raw) returns (count: nat)
      modifies `processing
      ensures count == if raw in old(processing) then 1 else 0
      ensures processing == Lrem(old(processing), raw)
    {
      var at := FindFirst(processing, raw);
      LremCuts(processing, raw, at);
      if at < |processing| {
        processing := processing[..at] + processing[at + 1..];
        return 1;
      }
      assert processing[..at] == processing;
      return 0;
    }

    method RequeueStaleDelivery(raw: Raw) returns (moved: bool)
      modifies `processing, `queue
      ensures moved <==> raw in old(processing)
      ensures processing == Lrem(old(processing), raw)
      ensures queue == if moved then [raw] + old(queue) else old(queue)
    {
      var count := LremProcessing(raw);
      moved := count == 1;
      if moved {
        queue := [raw] + queue;
      }
    }

    method DeadLetterProcessingDelivery(raw: Raw) returns (moved: bool)
      modifies `processing, `dead
      ensures moved <==> raw in old(processing)
      ensures processing == Lrem(old(processing), raw)
      ensures dead == if moved then old(dead) + [raw] else old(dead)
    {
      var count := LremProcessing(raw);
      moved := count == 1;
      if moved {
        dead := dead + [raw];
      }
    }

    /** BLMOVE task list -> processing list, left to right; None when it times out. */
    method BlMove() returns (raw: Option<Raw>)
      modifies `queue, `processing
      ensures old(queue) == [] ==> raw == None && queue == [] && processing == old(processing)
      ensures old(queue) != [] ==>
                raw == Some(old(queue)[0]) && queue == old(queue)[1..] && processing == old(processing) + [old(queue)[0]]
    {
      if queue == [] {
        return None;
      }
      raw := Some(queue[0]);
      processing := processing + [queue[0]];
      queue := queue[1..];
    }
  }

  lemma {:induction false} LremCuts(list: seq<Raw>, raw: Raw, at: nat)
    requires at <= |list| && raw !in list[..at] && (at < |list| ==> list[at] == raw)
    ensures Lrem(list, raw) == if at < |list| then list[..at] + list[at + 1..] else list
    ensures raw in list <==> at < |list|
    decreases |list|
  {
    if at > 0 {
      assert list[0] == list[..at][0];
      assert list[1..][..at - 1] == list[..at][1..];
      LremCuts(list[1..], raw, at - 1);
      assert list == [list[0]] + list[1..];
    }
  }

  /** The task ids a list names, read entry by entry as delivery_task_ids does. */
  method DeliveryTaskIds(list: seq<Raw>, before: set<TaskId>) returns (ids: set<TaskId>)
    ensures ids == before + NamedIn(list)
  {
    ids := before;
    var i := 0;
    while i < |list|
      invariant 0 <= i <= |list| && ids == before + NamedIn(list[..i])
    {
      assert list[..i + 1] == list[..i] + [list[i]];
      assert NamedIn(list[..i + 1]) == NamedIn(list[..i]) + (if list[i].body.Named? then {list[i].body.task} else {});
      if list[i].body.Named? {
        ids := ids + {list[i].body.task};
      }
      i := i + 1;
    }
    assert list[..i] == list;
  }
}
