/** What the periodic duties and a whole turn of the worker come to when nothing fails and nobody
    interferes, in terms of the rows and the lists. */
module UndisturbedTurn {
  import opened Wrappers
  import opened Protocol
  import opened ControlPlanes
  import opened Deliveries
  import opened WorkerProcess
  import opened Undisturbed
  import Drain
  import DispatchRounds
  import Reaper

  // ------------------------------------------------------------------ recovery

  ghost predicate OneLess(a: seq<Raw>, raw: Raw, b: seq<Raw>) {
    if raw in a then multiset(b) == multiset(a) - multiset{raw} else b == a
  }

  /** One entry of the processing list was looked at, at time `at`. */
  ghost predicate Recovered(s: State, w: WorkerId, raw: Raw, rest: seq<Raw>, at: int, s': State) {
    && PcOf(s', w) == RecoverPc(rest) && s.now <= at <= s'.now && s'.cfg == s.cfg && (forall v :: v != w ==> PcOf(s', v) == PcOf(s, v))
    && s'.db.attempts == s.db.attempts && s'.db.costs == s.db.costs && s'.db.outbox == s.db.outbox
    && if !raw.body.Named? then
         && s'.db == s.db && s'.queue == s.queue && OneLess(s.processing, raw, s'.processing)
         && s'.dead == if raw in s.processing then s.dead + [raw] else s.dead
       else
         s'.dead == s.dead && EntryRecovered(s, raw, raw.body.task, at, s')
  }

  /** Back to the head of the task list, if the entry is still there. */
  ghost predicate BackInQueue(s: State, raw: Raw, s': State) {
    OneLess(s.processing, raw, s'.processing) && s'.queue == if raw in s.processing then [raw] + s.queue else s.queue
  }

  /** A missing row is created and a waiting one, or one whose lease is too old, waits again: their
      delivery goes back. The delivery of a task that is over is removed, that of a task at work is
      left alone. */
  ghost predicate EntryRecovered(s: State, raw: Raw, t: TaskId, at: int, s': State) {
    if t !in s.db.tasks then
      && BackInQueue(s, raw, s') && OneRow(s.db.tasks, s'.db.tasks, t)
      && s'.db.tasks[t] == TaskRow(at, Queued, None, None, None, None)
    else
      var row := s.db.tasks[t];
      match row.status
      case Queued => BackInQueue(s, raw, s') && OneRow(s.db.tasks, s'.db.tasks, t) && s'.db.tasks[t] == row.(startedAt := None, lease := None)
      case Running =>
        if row.startedAt.Some? && row.startedAt.value + s.cfg.leaseSeconds < at
        then
          && BackInQueue(s, raw, s') && OneRow(s.db.tasks, s'.db.tasks, t)
          && s'.db.tasks[t] == row.(status := Queued, startedAt := None, lease := None)
        else s'.db == s.db && s'.queue == s.queue && s'.processing == s.processing
      case _ => s'.db == s.db && s'.queue == s.queue && OneLess(s.processing, raw, s'.processing)
  }

  predicate SweepHeard(luck: SweepLuck) { luck.database.Heard? && luck.redis.Heard? }

  lemma LremIsOneLess(list: seq<Raw>, raw: Raw)
    ensures OneLess(list, raw, Lrem(list, raw))
  {
    LremCounts(list, raw);
  }

  lemma JudgedState(s: State, w: WorkerId, raw: Raw, rest: seq<Raw>, wait: nat) returns (mid: State, verdict: Verdict)
    requires PcOf(s, w) == Recovering([raw] + rest) && raw.body.Named?
    ensures mid == Apply(Later(s, wait), Judge(w)) && PcOf(mid, w) == Judged(raw, verdict, rest)
    ensures mid.db == RecoverTx(s.db, s.now + wait, s.cfg, raw.body.task) && verdict == RecoverVerdict(s.db, s.now + wait, s.cfg, raw.body.task)
    ensures mid.queue == s.queue && mid.processing == s.processing && mid.dead == s.dead && mid.now == s.now + wait && mid.cfg == s.cfg
    ensures forall v :: v != w ==> PcOf(mid, v) == PcOf(s, v)
  {
    hide RecoverTx, RecoverVerdict;
    assert ([raw] + rest)[0] == raw && ([raw] + rest)[1..] == rest;
    mid := Apply(Later(s, wait), Judge(w));
    verdict := RecoverVerdict(s.db, s.now + wait, s.cfg, raw.body.task);
  }

  lemma SettledState(s: State, w: WorkerId, raw: Raw, verdict: Verdict, rest: seq<Raw>, wait: nat) returns (next: State)
    requires PcOf(s, w) == Judged(raw, verdict, rest)
    ensures next == Apply(Later(s, wait), Settle(w)) && PcOf(next, w) == RecoverPc(rest) && next.db == s.db && next.dead == s.dead
    ensures verdict == Requeue ==> BackInQueue(s, raw, next)
    ensures verdict == Settled ==> next.queue == s.queue && OneLess(s.processing, raw, next.processing)
    ensures verdict == Leave ==> next.queue == s.queue && next.processing == s.processing
    ensures next.now == s.now + wait && next.cfg == s.cfg && forall v :: v != w ==> PcOf(next, v) == PcOf(s, v)
  {
    LremIsOneLess(s.processing, raw);
    hide Lrem;
    next := Apply(Later(s, wait), Settle(w));
  }

  lemma RowRecovered(s: State, raw: Raw, t: TaskId, at: int, s': State)
    requires s'.db == RecoverTx(s.db, at, s.cfg, t)
    requires match RecoverVerdict(s.db, at, s.cfg, t)
             case Requeue => BackInQueue(s, raw, s')
             case Settled => s'.queue == s.queue && OneLess(s.processing, raw, s'.processing)
             case Leave => s'.queue == s.queue && s'.processing == s.processing
    ensures EntryRecovered(s, raw, t, at, s')
    ensures s'.db.attempts == s.db.attempts && s'.db.costs == s.db.costs && s'.db.outbox == s.db.outbox
  {
    hide BackInQueue, OneLess;
  }

  /** A fault-free recovery entry. */
  lemma EntryIsRecovered(s: State, w: WorkerId, raw: Raw, rest: seq<Raw>, luck: SweepLuck, s': State) returns (at: int)
    requires PcOf(s, w) == Recovering([raw] + rest) && SweepHeard(luck) && Alone(s, SweepScript(w, raw, luck), s')
    ensures Recovered(s, w, raw, rest, at, s')
  {
    hide Alone;
    if raw.body.Named? {
      assert SweepScript(w, raw, luck) == [Judge(w)] + [Settle(w)];
      var wait, mid := First(s, Judge(w), [Settle(w)], s');
      assert [Settle(w)] == [Settle(w)] + [];
      var more, last := First(mid, Settle(w), [], s');
      NothingMore(last, s');
      at := s.now + wait;
      hide Apply, Enabled, RecoverTx, RecoverVerdict, EntryRecovered, OneLess;
      var mid', verdict := JudgedState(s, w, raw, rest, wait);
      var last' := SettledState(mid, w, raw, verdict, rest, more);
      RowRecovered(s, raw, raw.body.task, at, s');
    } else {
      at := s.now;
      MalformedEntry(s, w, raw, rest, luck, s');
    }
  }

  lemma MalformedEntry(s: State, w: WorkerId, raw: Raw, rest: seq<Raw>, luck: SweepLuck, s': State)
    requires PcOf(s, w) == Recovering([raw] + rest) && !raw.body.Named? && Alone(s, SweepScript(w, raw, luck), s')
    ensures Recovered(s, w, raw, rest, s.now, s')
  {
    assert SweepScript(w, raw, luck) == [Judge(w)] + [];
    var wait, last := First(s, Judge(w), [], s');
    NothingMore(last, s');
    assert ([raw] + rest)[0] == raw && ([raw] + rest)[1..] == rest;
    LremIsOneLess(s.processing, raw);
    hide Alone, Lrem, Enabled;
  }

  ghost predicate EntryDone(s: State, w: WorkerId, todo: seq<Raw>, n: nat, at: int, s': State) {
    0 < n <= |todo| && Recovered(s, w, todo[n - 1], todo[n..], at, s')
  }

  /** The first n entries of a snapshot were looked at one after the other. */
  ghost predicate SweptFirst(s: State, w: WorkerId, todo: seq<Raw>, n: nat, s': State)
    requires n <= |todo|
    decreases n
  {
    if n == 0 then s' == s
    else exists mid, at :: SweptFirst(s, w, todo, n - 1, mid) && EntryDone(mid, w, todo, n, at, s')
  }

  lemma {:induction false} SweepsAreRecoveries(s: State, w: WorkerId, todo: seq<Raw>, n: nat, lucks: nat -> SweepLuck, s': State)
    requires PcOf(s, w) == RecoverPc(todo) && n <= |todo| && (forall i: nat :: i < n ==> SweepHeard(lucks(i)))
    requires Alone(s, SweepsScript(w, todo[..n], lucks), s')
    ensures SweptFirst(s, w, todo, n, s') && PcOf(s', w) == RecoverPc(todo[n..])
    decreases n
  {
    hide Alone, Recovered, PcOf, SweepScript;
    if n == 0 {
      assert todo[..0] == [] && todo[0..] == todo;
      NothingMore(s, s');
    } else {
      assert todo[..n][..n - 1] == todo[..n - 1];
      var mid := Parts(s, SweepsScript(w, todo[..n - 1], lucks), SweepScript(w, todo[n - 1], lucks(n - 1)), s');
      SweepsAreRecoveries(s, w, todo, n - 1, lucks, mid);
      assert todo[n - 1..] == [todo[n - 1]] + todo[n..];
      var at := EntryIsRecovered(mid, w, todo[n - 1], todo[n..], lucks(n - 1), s');
      assert EntryDone(mid, w, todo, n, at, s');
      RecoveredGoesOn(mid, w, todo[n - 1], todo[n..], at, s');
    }
  }

  lemma RecoveredGoesOn(s: State, w: WorkerId, raw: Raw, rest: seq<Raw>, at: int, s': State)
    requires Recovered(s, w, raw, rest, at, s')
    ensures PcOf(s', w) == RecoverPc(rest)
  {
  }

  // ------------------------------------------------------------------ reaper and cleanup

  /** Exactly the overdue waiting tasks that no message names were failed, at time `at`. */
  ghost predicate ReapedAt(s: State, at: int, s': State) {
    && s.now <= at <= s'.now && s'.db.attempts == s.db.attempts && s'.db.costs == s.db.costs && s'.db.outbox == s.db.outbox
    && s'.queue == s.queue && s'.processing == s.processing && s'.dead == s.dead && s'.cfg == s.cfg
    && s'.db.tasks.Keys == s.db.tasks.Keys
    && forall t :: t in s.db.tasks ==>
         var row := s.db.tasks[t];
         s'.db.tasks[t] ==
           if row.status == Queued && row.createdAt + s.cfg.orphanSeconds < at && !Reaper.NamedBy(s.queue, t) && !Reaper.NamedBy(s.processing, t)
           then row.(status := Failed, completedAt := Some(at)) else row
  }

  lemma ListsAreRead(s: State, w: WorkerId, s': State) returns (mid: State)
    requires PcOf(s, w).Idle? && Alone(s, [ReapScan(w), ReapScanMore(w), Reap(w)], s')
    ensures Alone(mid, [Reap(w)], s') && PcOf(mid, w) == ReapReady(NamedIn(s.queue) + NamedIn(s.processing))
    ensures s.now <= mid.now && mid == s.(now := mid.now, workers := mid.workers)
  {
    hide Alone, NamedIn;
    assert [ReapScan(w), ReapScanMore(w), Reap(w)] == [ReapScan(w)] + [ReapScanMore(w), Reap(w)];
    var first, one := First(s, ReapScan(w), [ReapScanMore(w), Reap(w)], s');
    assert [ReapScanMore(w), Reap(w)] == [ReapScanMore(w)] + [Reap(w)];
    var second;
    second, mid := First(one, ReapScanMore(w), [Reap(w)], s');
  }

  lemma RowsAreReaped(s: State, at: int, seen: set<TaskId>, s': State)
    requires seen == NamedIn(s.queue) + NamedIn(s.processing) && s.now <= at <= s'.now
    requires s'.db == ReapTx(s.db, at, s.cfg, seen) && s'.queue == s.queue && s'.processing == s.processing && s'.dead == s.dead && s'.cfg == s.cfg
    ensures ReapedAt(s, at, s')
  {
    forall t | t in s.db.tasks ensures t in seen <==> Reaper.NamedBy(s.queue, t) || Reaper.NamedBy(s.processing, t) {
      Reaper.SeenExactly(s.queue, s.processing, t);
    }
    hide Reaper.NamedBy, NamedIn;
  }

  /** A fault-free pass of the reaper. */
  lemma PassIsReaped(s: State, w: WorkerId, stopAt: nat, s': State) returns (at: int)
    requires PcOf(s, w).Idle? && 3 <= stopAt && Alone(s, ReapScript(w, stopAt), s')
    ensures ReapedAt(s, at, s') && PcOf(s', w).Idle?
  {
    hide Alone, NamedIn, ReapTx, ReapedAt, Enabled;
    var mid := ListsAreRead(s, w, s');
    assert [Reap(w)] == [Reap(w)] + [];
    var wait, last := First(mid, Reap(w), [], s');
    NothingMore(last, s');
    at := mid.now + wait;
    RowsAreReaped(s, at, NamedIn(s.queue) + NamedIn(s.processing), s');
  }

  /** Exactly the rows that were delivered longer ago than the retention, and whose task is over,
      left the outbox. */
  ghost predicate CleanedAt(s: State, at: int, s': State) {
    && s.now <= at <= s'.now && s'.db.tasks == s.db.tasks && s'.db.attempts == s.db.attempts && s'.db.costs == s.db.costs
    && s'.queue == s.queue && s'.processing == s.processing && s'.dead == s.dead && s'.cfg == s.cfg && s'.workers == s.workers
    && forall t :: t in s.db.outbox ==>
         var ended := t in s.db.tasks && (s.db.tasks[t].status == Succeeded || s.db.tasks[t].status == Failed);
         var expired := s.db.outbox[t].deliveredAt.Some? && s.db.outbox[t].deliveredAt.value + s.cfg.retentionSeconds < at;
         if ended && expired then t !in s'.db.outbox else t in s'.db.outbox && s'.db.outbox[t] == s.db.outbox[t]
  }

  lemma OutboxIsCleaned(s: State, w: WorkerId, s': State) returns (at: int)
    requires Alone(s, [Cleanup(w)], s')
    ensures CleanedAt(s, at, s')
  {
    assert [Cleanup(w)] == [Cleanup(w)] + [];
    var wait, last := First(s, Cleanup(w), [], s');
    NothingMore(last, s');
    at := s.now + wait;
    hide Alone;
  }

  // ------------------------------------------------------------------ dispatch

  /** The row was acknowledged, with one attempt more; nothing else of it was written. */
  ghost predicate Acknowledged(a: OutboxRow, b: OutboxRow, from: int, to: int) {
    && b.deliveredAt.Some? && from <= b.deliveredAt.value <= to && b.claim.None? && b.claimedAt.None?
    && b.payload == a.payload && b.createdAt == a.createdAt && b.deliveryAttempts == a.deliveryAttempts + 1
  }

  /** The batch is claimed by w, and the first n rows of it were pushed and acknowledged. */
  ghost predicate RoundSoFar(s: State, w: WorkerId, c: ClaimId, batch: seq<TaskId>, n: nat, mid: State)
    requires n <= |batch| && forall t :: t in batch ==> t in s.db.outbox
  {
    && PcOf(mid, w) == DispatchPc(c, Entries(s.db, batch)[n..]) && s.now <= mid.now && mid.cfg == s.cfg
    && mid.db.tasks == s.db.tasks && mid.db.attempts == s.db.attempts && mid.db.costs == s.db.costs
    && mid.processing == s.processing && mid.dead == s.dead
    && Drain.Appended(s.db, s.queue, batch[..n], mid.queue)
    && mid.db.outbox.Keys == s.db.outbox.Keys
    && (forall t :: t in s.db.outbox && t !in batch ==> mid.db.outbox[t] == s.db.outbox[t])
    && (forall i :: 0 <= i < n ==> Acknowledged(s.db.outbox[batch[i]], mid.db.outbox[batch[i]], s.now, mid.now))
    && (forall i :: n <= i < |batch| ==>
          var row := mid.db.outbox[batch[i]];
          && row.deliveredAt.None? && row.claim == Some(c) && row.payload == s.db.outbox[batch[i]].payload
          && row.createdAt == s.db.outbox[batch[i]].createdAt && row.deliveryAttempts == s.db.outbox[batch[i]].deliveryAttempts + 1)
  }

  ghost predicate Distinct(batch: seq<TaskId>) {
    forall i, j :: 0 <= i < j < |batch| ==> batch[i] != batch[j]
  }

  lemma RoundStarts(s: State, w: WorkerId, batch: seq<TaskId>, wait: nat) returns (mid: State)
    requires Enabled(Later(s, wait), OutboxClaim(w, batch))
    ensures Distinct(batch) && forall t :: t in batch ==> t in s.db.outbox && s.db.outbox[t].deliveredAt.None?
    ensures mid == Apply(Later(s, wait), OutboxClaim(w, batch)) && RoundSoFar(s, w, s.nextId, batch, 0, mid)
  {
    forall t | t in batch ensures t in s.db.outbox && s.db.outbox[t].deliveredAt.None? {
      assert Eligible(s.db, s.now + wait, s.cfg, t);
    }
    mid := Apply(Later(s, wait), OutboxClaim(w, batch));
    assert Entries(s.db, batch)[0..] == Entries(s.db, batch) && batch[..0] == [];
    hide IsBatch, Enabled;
    forall i | 0 <= i < |batch| ensures batch[i] in batch { }
  }

  lemma EntryPushed(s: State, w: WorkerId, c: ClaimId, entry: Entry, rest: seq<Entry>, wait: nat) returns (next: State)
    requires PcOf(s, w) == Dispatching(c, [entry] + rest) && entry.payload.body == Named(entry.task)
    ensures Enabled(Later(s, wait), Publish(w)) && next == Apply(Later(s, wait), Publish(w))
    ensures PcOf(next, w) == Pushed(c, entry.task, rest) && next.db == s.db && next.queue == s.queue + [entry.payload]
    ensures next.processing == s.processing && next.dead == s.dead && next.now == s.now + wait && next.cfg == s.cfg
  {
    assert ([entry] + rest)[0] == entry && ([entry] + rest)[1..] == rest;
    next := PublishStep(Later(s, wait), w, c, entry, rest);
  }

  lemma EntryMarked(s: State, w: WorkerId, c: ClaimId, t: TaskId, rest: seq<Entry>, wait: nat) returns (next: State)
    requires PcOf(s, w) == Pushed(c, t, rest)
    ensures Enabled(Later(s, wait), Mark(w)) && next == Apply(Later(s, wait), Mark(w))
    ensures PcOf(next, w) == DispatchPc(c, rest) && next.db == MarkTx(s.db, s.now + wait, t, c) && next.queue == s.queue
    ensures next.processing == s.processing && next.dead == s.dead && next.now == s.now + wait && next.cfg == s.cfg
  {
    hide MarkTx;
    next := MarkStep(Later(s, wait), w, c, t, rest);
  }

  lemma SoFarGrows(s: State, w: WorkerId, c: ClaimId, batch: seq<TaskId>, n: nat, mid: State, next: State)
    requires Distinct(batch) && n < |batch| && (forall t :: t in batch ==> t in s.db.outbox) && RoundSoFar(s, w, c, batch, n, mid)
    requires PcOf(next, w) == DispatchPc(c, Entries(s.db, batch)[n + 1..]) && mid.now <= next.now && next.cfg == mid.cfg
    requires next.db == MarkTx(mid.db, next.now, batch[n], c) && next.queue == mid.queue + [s.db.outbox[batch[n]].payload]
    requires next.processing == mid.processing && next.dead == mid.dead
    ensures RoundSoFar(s, w, c, batch, n + 1, next)
  {
    AppendedOne(s.db, s.queue, batch, n, mid.queue);
    hide Drain.Appended, Entries, PcOf;
    assert batch[n] in batch;
    assert Markable(mid.db, batch[n], c);
    forall i | 0 <= i < |batch| && i != n ensures batch[i] in batch && next.db.outbox[batch[i]] == mid.db.outbox[batch[i]] { }
  }

  lemma EntryGoesOut(s: State, w: WorkerId, c: ClaimId, batch: seq<TaskId>, n: nat, mid: State, first: nat, second: nat) returns (next: State)
    requires Distinct(batch) && n < |batch| && (forall t :: t in batch ==> t in s.db.outbox) && RoundSoFar(s, w, c, batch, n, mid)
    requires batch[n] in batch && s.db.outbox[batch[n]].payload.body == Named(batch[n])
    ensures Enabled(Later(mid, first), Publish(w))
    ensures var pushed := Apply(Later(mid, first), Publish(w));
            Enabled(Later(pushed, second), Mark(w)) && next == Apply(Later(pushed, second), Mark(w))
    ensures RoundSoFar(s, w, c, batch, n + 1, next)
  {
    var entries := Entries(s.db, batch);
    assert entries[n..] == [entries[n]] + entries[n + 1..] && entries[n] == Entry(batch[n], s.db.outbox[batch[n]].payload);
    assert PcOf(mid, w) == Dispatching(c, [entries[n]] + entries[n + 1..]);
    hide RoundSoFar, Apply, Enabled, Entries, MarkTx, PcOf;
    var pushed := EntryPushed(mid, w, c, entries[n], entries[n + 1..], first);
    next := EntryMarked(pushed, w, c, batch[n], entries[n + 1..], second);
    SoFarGrows(s, w, c, batch, n, mid, next);
  }

  lemma AppendedOne(db: Db, before: seq<Raw>, batch: seq<TaskId>, n: nat, after: seq<Raw>)
    requires n < |batch| && Drain.Appended(db, before, batch[..n], after) && batch[n] in db.outbox
    ensures Drain.Appended(db, before, batch[..n + 1], after + [db.outbox[batch[n]].payload])
  {
    var longer := after + [db.outbox[batch[n]].payload];
    assert Drain.Appended(db, after, [batch[n]], longer);
    Drain.AppendedTwice(db, db, before, batch[..n], after, [batch[n]], longer);
    assert batch[..n + 1] == batch[..n] + [batch[n]];
  }

  lemma {:induction false} RestGoesOut(s: State, w: WorkerId, c: ClaimId, batch: seq<TaskId>, n: nat, mid: State, s': State)
    requires Distinct(batch) && n <= |batch| && (forall t :: t in batch ==> t in s.db.outbox && s.db.outbox[t].payload.body == Named(t))
    requires RoundSoFar(s, w, c, batch, n, mid) && Alone(mid, DispatchRounds.Pairs(w, |batch| - n), s')
    ensures RoundSoFar(s, w, c, batch, |batch|, s')
    decreases |batch| - n
  {
    hide RoundSoFar, Apply, Enabled, Alone;
    if n == |batch| {
      NothingMore(mid, s');
    } else {
      var rest := DispatchRounds.Pairs(w, |batch| - n - 1);
      assert DispatchRounds.Pairs(w, |batch| - n) == [Publish(w)] + ([Mark(w)] + rest);
      var first, pushed := First(mid, Publish(w), [Mark(w)] + rest, s');
      var second, next := First(pushed, Mark(w), rest, s');
      assert batch[n] in batch;
      var next' := EntryGoesOut(s, w, c, batch, n, mid, first, second);
      RestGoesOut(s, w, c, batch, n + 1, next, s');
    }
  }

  /** A fault-free round of the dispatcher: every row of the batch is pushed once, in order, and
      acknowledged. */
  ghost predicate RoundDone(s: State, w: WorkerId, batch: seq<TaskId>, s': State) {
    && (forall t :: t in batch ==> t in s.db.outbox && s.db.outbox[t].deliveredAt.None?) && Distinct(batch)
    && RoundSoFar(s, w, s.nextId, batch, |batch|, s')
  }

  lemma BatchIsPosted(s: State, w: WorkerId, batch: seq<TaskId>, claimed: seq<Entry>, lucks: nat -> EntryLuck, s': State)
    requires PcOf(s, w).Idle? && Drain.OwnPayload(s.db) && (forall i: nat :: lucks(i).push.Heard? && lucks(i).mark.Heard?)
    requires forall t :: t in batch ==> t in s.db.outbox
    requires claimed == Entries(s.db, batch) && Alone(s, DispatchScript(w, Heard, batch, claimed, lucks), s')
    ensures RoundDone(s, w, batch, s') && PcOf(s', w).Idle?
  {
    hide RoundSoFar, Apply, Enabled, Alone, IsBatch;
    DispatchRounds.WellScript(w, claimed, lucks);
    assert |claimed| == |batch|;
    var wait, mid := First(s, OutboxClaim(w, batch), DispatchRounds.Pairs(w, |batch|), s');
    var mid' := RoundStarts(s, w, batch, wait);
    RestGoesOut(s, w, s.nextId, batch, 0, mid, s');
    RoundEnds(s, w, s.nextId, batch, s');
  }

  lemma RoundEnds(s: State, w: WorkerId, c: ClaimId, batch: seq<TaskId>, s': State)
    requires (forall t :: t in batch ==> t in s.db.outbox) && RoundSoFar(s, w, c, batch, |batch|, s')
    ensures PcOf(s', w).Idle? && s'.processing == s.processing && s'.cfg == s.cfg
  {
    assert Entries(s.db, batch)[|batch|..] == [];
  }

  // ------------------------------------------------------------------ one delivery, taken and put away

  /** The steps of handle_delivery. */
  predicate Handles(k: Step, w: WorkerId) {
    (k.Bury? || k.Claim? || k.Attempt? || k.Call? || k.Complete? || k.Raise? || k.Fail?) && k.w == w
  }

  predicate InHand(pc: Pc, raw: Raw) {
    (pc.Moved? || pc.Executing? || pc.Acking?) && pc.raw == raw
  }

  lemma HandledStep(s: State, wait: nat, k: Step, w: WorkerId, raw: Raw)
    requires Enabled(Later(s, wait), k) && Handles(k, w) && InHand(PcOf(s, w), raw)
    ensures var s' := Apply(Later(s, wait), k);
            InHand(PcOf(s', w), raw) && s'.queue == s.queue && s'.processing == s.processing && s'.cfg == s.cfg
  {
    hide ClaimTx, RecordAttemptTx, CompleteTx, FailTx, LatestInflight, Target, Granted;
    assert PcOf(Later(s, wait), w) == PcOf(s, w);
  }

  lemma {:induction false} StaysInHand(s: State, ks: seq<Step>, w: WorkerId, raw: Raw, s': State)
    requires Alone(s, ks, s') && InHand(PcOf(s, w), raw) && forall k :: k in ks ==> Handles(k, w)
    ensures InHand(PcOf(s', w), raw) && s'.queue == s.queue && s'.processing == s.processing && s'.cfg == s.cfg
    decreases |ks|
  {
    hide Apply, Enabled, InHand, Handles, PcOf;
    if ks == [] {
      NothingMore(s, s');
    } else {
      assert ks == [ks[0]] + ks[1..];
      var wait, next := First(s, ks[0], ks[1..], s');
      HandledStep(s, wait, ks[0], w, raw);
      StaysInHand(next, ks[1..], w, raw, s');
    }
  }

  lemma HeardIsHandled(w: WorkerId, raw: Raw, luck: Luck, pick: Option<Exec>, granted: bool)
    requires AllHeard(luck) && !raw.body.BadTaskId?
    ensures var ks := DeliveryScript(w, raw, luck, pick, granted);
            Returned(ks, w) && forall k :: k in ks ==> Handles(k, w)
  {
    OutcomeIsTold(w, raw, luck, pick, granted);
  }

  /** A fault-free service takes the head of the task list, handles it, and puts it away: it is in
      neither list any more. */
  lemma HeadIsServed(s: State, w: WorkerId, raw: Raw, luck: Luck, pick: Option<Exec>, granted: bool, s': State)
    returns (taken: State, handled: State)
    requires PcOf(s, w).Idle? && AllHeard(luck) && !raw.body.BadTaskId? && s.queue != [] && raw == s.queue[0]
    requires Alone(s, ServeScript(w, raw, luck, pick, granted), s')
    ensures PcOf(taken, w) == Moved(raw) && taken.db == s.db && taken.nextId == s.nextId && taken.h == s.h && taken.queue == s.queue[1..]
    ensures Alone(taken, DeliveryScript(w, raw, luck, pick, granted), handled)
    ensures s'.db == handled.db && s'.dead == handled.dead && s'.queue == s.queue[1..] && PcOf(s', w).Idle?
    ensures multiset(s'.processing) == multiset(s.processing)
  {
    hide Alone, DeliveryScript, Lrem, AllHeard, Enabled;
    HeardIsHandled(w, raw, luck, pick, granted);
    var ks := DeliveryScript(w, raw, luck, pick, granted);
    assert ServeScript(w, raw, luck, pick, granted) == [Move(w)] + (ks + [Ack(w)]);
    var wait;
    wait, taken := First(s, Move(w), ks + [Ack(w)], s');
    assert taken.processing == s.processing + [raw] && PcOf(taken, w) == Moved(raw);
    handled := Parts(taken, ks, [Ack(w)], s');
    StaysInHand(taken, ks, w, raw, handled);
    PutAway(handled, w, raw, s');
    assert multiset(s.processing + [raw]) == multiset(s.processing) + multiset{raw};
  }

  lemma PutAway(s: State, w: WorkerId, raw: Raw, s': State)
    requires InHand(PcOf(s, w), raw) && Alone(s, [Ack(w)], s')
    ensures s'.db == s.db && s'.dead == s.dead && s'.queue == s.queue && PcOf(s', w).Idle? && OneLess(s.processing, raw, s'.processing)
  {
    assert [Ack(w)] == [Ack(w)] + [];
    var wait, last := First(s, Ack(w), [], s');
    NothingMore(last, s');
    assert PcOf(Later(s, wait), w) == PcOf(s, w);
    LremIsOneLess(s.processing, raw);
    hide Alone, Lrem;
  }

  // ------------------------------------------------------------------ one turn

  ghost predicate FaultFree(turn: TurnLuck, snapshot: nat) {
    && turn.claiming.Heard? && (forall i: nat :: turn.entries(i).push.Heard? && turn.entries(i).mark.Heard?)
    && snapshot <= turn.reached && (forall i: nat :: SweepHeard(turn.sweeps(i)))
    && 3 <= turn.reapSteps && AllHeard(turn.luck)
  }

  /** The processing list was read and every entry of it looked at; then the reaper made a pass. */
  ghost predicate Repaired(s: State, w: WorkerId, s': State) {
    exists scanned: State, swept: State, at: int ::
      && Scanned(s, w, scanned) && SweptFirst(scanned, w, s.processing, |s.processing|, swept) && ReapedAt(swept, at, s')
  }

  ghost predicate Scanned(s: State, w: WorkerId, s': State) {
    s.now <= s'.now && s' == At(s.(now := s'.now), w, RecoverPc(s.processing))
  }

  ghost predicate CleanedUp(s: State, s': State) {
    exists at :: CleanedAt(s, at, s')
  }

  lemma RepairsAreMade(s: State, w: WorkerId, turn: TurnLuck, s': State)
    requires PcOf(s, w).Idle? && FaultFree(turn, |s.processing|)
    requires Alone(s, RecoverScript(w, s.processing, turn.reached, turn.sweeps) + ReapScript(w, turn.reapSteps), s')
    ensures Repaired(s, w, s') && PcOf(s', w).Idle?
  {
    hide Alone, SweptFirst, ReapedAt, ReapScript, SweepsScript, Enabled;
    var todo := s.processing;
    var swept := Parts(s, RecoverScript(w, todo, turn.reached, turn.sweeps), ReapScript(w, turn.reapSteps), s');
    assert todo[..|todo|] == todo && todo[|todo|..] == [];
    var wait, scanned := First(s, Scan(w), SweepsScript(w, todo, turn.sweeps), swept);
    SweepsAreRecoveries(scanned, w, todo, |todo|, turn.sweeps, swept);
    var at := PassIsReaped(swept, w, turn.reapSteps, s');
    assert Scanned(s, w, scanned);
  }

  lemma CleanupIfDue(s: State, w: WorkerId, due: bool, s': State)
    requires PcOf(s, w).Idle? && Alone(s, if due then [Cleanup(w)] else [], s')
    ensures (if due then CleanedUp(s, s') else s' == s) && PcOf(s', w).Idle? && s'.processing == s.processing
  {
    hide Alone;
    if due {
      var at := OutboxIsCleaned(s, w, s');
    } else {
      NothingMore(s, s');
    }
  }

  /** A fault-free turn, undisturbed: if it is due, the batch is pushed and acknowledged; then, if it
      is due, the outbox is cleaned; then, if it is due, every entry of the processing list is
      recovered and the orphans are reaped; and then one delivery is served, or none. */
  lemma TurnIsDone(s: State, w: WorkerId, turn: TurnLuck, seen: Seen, s': State) returns (posted: State, cleaned: State, repaired: State)
    requires PcOf(s, w).Idle? && Drain.OwnPayload(s.db) && FaultFree(turn, |s.processing|)
    requires turn.dispatchDue ==>
               (forall t :: t in seen.duties.batch ==> t in s.db.outbox) && seen.duties.claimed == Entries(s.db, seen.duties.batch)
    requires seen.duties.todo == s.processing
    requires Alone(s, TurnScript(w, turn, seen), s')
    ensures if turn.dispatchDue then RoundDone(s, w, seen.duties.batch, posted) else posted == s
    ensures if turn.cleanupDue then CleanedUp(posted, cleaned) else cleaned == posted
    ensures if turn.recoveryDue then Repaired(cleaned, w, repaired) else repaired == cleaned
    ensures if seen.taken.Some? then Alone(repaired, ServeScript(w, seen.taken.value, turn.luck, seen.pick, seen.granted), s')
            else s' == repaired
  {
    hide Alone, RoundDone, CleanedUp, Repaired, DispatchScript, RecoverScript, ReapScript, ServeScript, PcOf, Drain.OwnPayload, Entries;
    var dispatch := if turn.dispatchDue then DispatchScript(w, turn.claiming, seen.duties.batch, seen.duties.claimed, turn.entries) else [];
    var cleanup := if turn.cleanupDue then [Cleanup(w)] else [];
    var repair := if turn.recoveryDue then RecoverScript(w, seen.duties.todo, turn.reached, turn.sweeps) + ReapScript(w, turn.reapSteps) else [];
    var serve := if seen.taken.Some? then ServeScript(w, seen.taken.value, turn.luck, seen.pick, seen.granted) else [];
    assert TurnScript(w, turn, seen) == dispatch + (cleanup + (repair + serve));
    posted := Parts(s, dispatch, cleanup + (repair + serve), s');
    cleaned := Parts(posted, cleanup, repair + serve, s');
    repaired := Parts(cleaned, repair, serve, s');
    if turn.dispatchDue {
      BatchIsPosted(s, w, seen.duties.batch, seen.duties.claimed, turn.entries, posted);
      PostedGoesOn(s, w, seen.duties.batch, posted);
    } else {
      NothingMore(s, posted);
    }
    CleanupIfDue(posted, w, turn.cleanupDue, cleaned);
    if turn.recoveryDue { RepairsAreMade(cleaned, w, turn, repaired); } else { NothingMore(cleaned, repaired); }
    if seen.taken.None? { NothingMore(repaired, s'); }
  }

  lemma PostedGoesOn(s: State, w: WorkerId, batch: seq<TaskId>, s': State)
    requires RoundDone(s, w, batch, s')
    ensures s'.processing == s.processing
  {
  }
}
