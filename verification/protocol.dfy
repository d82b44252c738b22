/** The durable delivery protocol as a transition system.

    PostgreSQL is a value `Db`; every transaction of the worker and of the dashboard is a
    function on `Db`.  Redis is three sequences.  A worker process is a program counter `Pc`.
    `Next` lets any worker, the dashboard, a foreign producer or the clock take one atomic
    step at any moment, and lets any worker stop between any two of its steps. */
module Protocol {
  import opened Wrappers

  // ------------------------------------------------------------------ identifiers

  type Lease = nat      // tasks.execution_id
  type ClaimId = nat    // task_outbox.delivery_claim_id
  type WorkerId = nat

  /** `Minted` identifiers come from this system's own uuid4 calls; `Foreign` ones are
      chosen by other producers of the task list. */
  datatype TaskId = Minted(n: nat) | Foreign(n: nat)

  datatype Exec = Exec(task: TaskId, lease: Lease)

  // ------------------------------------------------------------------ deliveries

  datatype Provider = GigaChat | LocalSmokeTest | Unsupported

  /** What `json.loads` and `validate_payload` make of a raw message. */
  datatype Body =
    | NotAnObject          // not JSON, or not a JSON object
    | BadLane              // an object with an unsupported credential lane
    | BadTaskId            // lane accepted, task_id present but not a UUID
    | NoTaskId             // lane accepted, task_id absent
    | Named(task: TaskId)  // lane accepted, task_id a UUID

  /** Redis compares whole strings: `text` tells apart messages that parse alike. */
  datatype Raw = Raw(text: nat, body: Body, provider: Provider)

  /** `validate_payload(payload)` as `handle_delivery` calls it. */
  predicate LaneAccepted(raw: Raw) {
    !raw.body.NotAnObject? && !raw.body.BadLane?
  }

  // ------------------------------------------------------------------ PostgreSQL

  datatype Status = Queued | Running | Succeeded | Failed

  datatype TaskRow = TaskRow(createdAt: int, status: Status, startedAt: Option<int>,
                             completedAt: Option<int>, lease: Option<Lease>, result: Option<nat>)

  datatype AttemptStatus = Inflight | Completed | AttemptFailed | OutcomeUnknown

  datatype AttemptRow = AttemptRow(status: AttemptStatus, startedAt: int)

  datatype OutboxRow = OutboxRow(payload: Raw, createdAt: int, deliveredAt: Option<int>,
                                 claim: Option<ClaimId>, claimedAt: Option<int>, deliveryAttempts: nat)

  datatype Db = Db(tasks: map<TaskId, TaskRow>, attempts: map<Exec, AttemptRow>,
                   costs: seq<Exec>, outbox: map<TaskId, OutboxRow>)

  /** The worker's settings after the `max(...)` clamps at module load. */
  datatype Config = Config(leaseSeconds: int, orphanSeconds: int, claimSeconds: int,
                           batchSize: nat, retentionSeconds: int)
  {
    predicate Valid() {
      180 <= leaseSeconds && 300 <= orphanSeconds && 30 <= claimSeconds && 1 <= batchSize && 3600 <= retentionSeconds
    }
  }

  predicate Terminal(row: TaskRow) {
    row.status == Succeeded || row.status == Failed
  }

  predicate Holds(row: TaskRow, e: Lease) {
    row.status == Running && row.lease == Some(e)
  }

  /** INSERT INTO tasks ... ON CONFLICT (id) DO NOTHING. */
  function InsertTask(tasks: map<TaskId, TaskRow>, t: TaskId, now: int): map<TaskId, TaskRow> {
    if t in tasks then tasks else tasks[t := TaskRow(now, Queued, None, None, None, None)]
  }

  predicate IsInflight(attempts: map<Exec, AttemptRow>, t: TaskId, x: Exec) {
    x in attempts && x.task == t && attempts[x].status == Inflight
  }

  /** SELECT ... WHERE status='inflight' ORDER BY started_at DESC LIMIT 1; ties are free. */
  ghost predicate LatestInflight(attempts: map<Exec, AttemptRow>, t: TaskId, pick: Option<Exec>) {
    match pick
    case None => forall x :: x in attempts ==> !IsInflight(attempts, t, x)
    case Some(x) =>
      && IsInflight(attempts, t, x)
      && forall y :: y in attempts && IsInflight(attempts, t, y) ==> attempts[y].startedAt <= attempts[x].startedAt
  }

  function Conclude(attempts: map<Exec, AttemptRow>, x: Exec, status: AttemptStatus): map<Exec, AttemptRow> {
    if x in attempts && attempts[x].status == Inflight then attempts[x := attempts[x].(status := status)]
    else attempts
  }

  function FailRow(row: TaskRow, now: int): TaskRow {
    row.(status := Failed, completedAt := Some(now))
  }

  /** claim_task: `pick` is the uncertain attempt the SELECT returned, if any. */
  function ClaimTx(db: Db, now: int, t: TaskId, e: Lease, pick: Option<Exec>): Db {
    var tasks := InsertTask(db.tasks, t, now);
    var row := tasks[t];
    match pick
    case Some(x) =>
      db.(tasks := if row.status == Queued then tasks[t := FailRow(row, now)] else tasks,
          attempts := if x.task == t then Conclude(db.attempts, x, OutcomeUnknown) else db.attempts)
    case None =>
      db.(tasks := if row.status == Queued
                   then tasks[t := row.(status := Running, startedAt := Some(now), completedAt := None, lease := Some(e))]
                   else tasks)
  }

  /** claim_task returned an execution lease. */
  predicate Granted(db: Db, t: TaskId, pick: Option<Exec>) {
    pick.None? && (t in db.tasks ==> db.tasks[t].status == Queued)
  }

  /** record_provider_attempt. */
  function RecordAttemptTx(db: Db, now: int, x: Exec): Db {
    if x in db.attempts then db else db.(attempts := db.attempts[x := AttemptRow(Inflight, now)])
  }

  /** record_completion: cost receipt, task row and attempt row in one transaction. */
  function CompleteTx(db: Db, now: int, x: Exec, result: nat): Db {
    db.(costs := if x in db.costs then db.costs else db.costs + [x],
        tasks := if x.task in db.tasks && Holds(db.tasks[x.task], x.lease)
                 then db.tasks[x.task := db.tasks[x.task].(status := Succeeded, completedAt := Some(now), result := Some(result))]
                 else db.tasks,
        attempts := Conclude(db.attempts, x, Completed))
  }

  /** record_failed. */
  function FailTx(db: Db, now: int, x: Exec): Db {
    db.(tasks := if x.task in db.tasks && Holds(db.tasks[x.task], x.lease)
                 then db.tasks[x.task := FailRow(db.tasks[x.task], now)]
                 else db.tasks,
        attempts := Conclude(db.attempts, x, AttemptFailed))
  }

  predicate Stale(row: TaskRow, now: int, cfg: Config) {
    row.status == Running && row.startedAt.Some? && row.startedAt.value < now - cfg.leaseSeconds
  }

  datatype Verdict = Requeue | Settled | Leave

  /** The database half of recover_stale_deliveries for one valid entry. */
  function RecoverVerdict(db: Db, now: int, cfg: Config, t: TaskId): Verdict {
    if t !in db.tasks || db.tasks[t].status == Queued || Stale(db.tasks[t], now, cfg) then Requeue
    else if Terminal(db.tasks[t]) then Settled
    else Leave
  }

  function RecoverTx(db: Db, now: int, cfg: Config, t: TaskId): Db {
    if t !in db.tasks then db.(tasks := InsertTask(db.tasks, t, now))
    else if db.tasks[t].status == Queued || Stale(db.tasks[t], now, cfg) then
      db.(tasks := db.tasks[t := db.tasks[t].(status := Queued, startedAt := None, lease := None)])
    else db
  }

  /** reap_orphaned_queued_tasks, after both lists were read. */
  predicate Reaped(row: TaskRow, t: TaskId, now: int, cfg: Config, seen: set<TaskId>) {
    row.status == Queued && row.createdAt < now - cfg.orphanSeconds && t !in seen
  }

  function ReapTx(db: Db, now: int, cfg: Config, seen: set<TaskId>): Db {
    db.(tasks := map t | t in db.tasks ::
      if Reaped(db.tasks[t], t, now, cfg, seen) then FailRow(db.tasks[t], now) else db.tasks[t])
  }

  /** record_queued_task (dashboard): task row and outbox row in one transaction. */
  function SubmitTx(db: Db, now: int, t: TaskId, payload: Raw): Db {
    db.(tasks := InsertTask(db.tasks, t, now),
        outbox := if t in db.outbox then db.outbox
                  else db.outbox[t := OutboxRow(payload, now, None, None, None, 0)])
  }

  predicate Eligible(db: Db, now: int, cfg: Config, t: TaskId) {
    && t in db.outbox && t in db.tasks
    && db.outbox[t].deliveredAt.None? && db.tasks[t].status == Queued
    && (db.outbox[t].claimedAt.Some? ==> db.outbox[t].claimedAt.value < now - cfg.claimSeconds)
  }

  function EligibleSet(db: Db, now: int, cfg: Config): set<TaskId> {
    set t | t in db.outbox && Eligible(db, now, cfg, t)
  }

  /** The rows claim_pending_outbox returns: oldest first up to the batch size; the order in
      which RETURNING lists them, and ties on created_at, are free. */
  ghost predicate IsBatch(db: Db, now: int, cfg: Config, batch: seq<TaskId>) {
    && (forall i, j :: 0 <= i < j < |batch| ==> batch[i] != batch[j])
    && (forall t :: t in batch ==> Eligible(db, now, cfg, t))
    && |batch| == Min(cfg.batchSize, |EligibleSet(db, now, cfg)|)
    && (forall t, u :: t in batch && u in EligibleSet(db, now, cfg) && u !in batch ==>
          db.outbox[t].createdAt <= db.outbox[u].createdAt)
  }

  function ClaimRow(row: OutboxRow, now: int, c: ClaimId): OutboxRow {
    row.(claim := Some(c), claimedAt := Some(now), deliveryAttempts := row.deliveryAttempts + 1)
  }

  function OutboxClaimTx(db: Db, now: int, c: ClaimId, batch: seq<TaskId>): Db {
    db.(outbox := map t | t in db.outbox ::
      if t in batch then ClaimRow(db.outbox[t], now, c) else db.outbox[t])
  }

  predicate Markable(db: Db, t: TaskId, c: ClaimId) {
    t in db.outbox && db.outbox[t].deliveredAt.None? && db.outbox[t].claim == Some(c)
  }

  /** mark_outbox_delivered. */
  function MarkTx(db: Db, now: int, t: TaskId, c: ClaimId): Db {
    if Markable(db, t, c)
    then db.(outbox := db.outbox[t := db.outbox[t].(deliveredAt := Some(now), claim := None, claimedAt := None)])
    else db
  }

  predicate Expired(db: Db, now: int, cfg: Config, t: TaskId) {
    && t in db.outbox && t in db.tasks && Terminal(db.tasks[t])
    && db.outbox[t].deliveredAt.Some? && db.outbox[t].deliveredAt.value < now - cfg.retentionSeconds
  }

  /** cleanup_terminal_outbox. */
  function CleanupTx(db: Db, now: int, cfg: Config): Db {
    db.(outbox := map t | t in db.outbox && !Expired(db, now, cfg, t) :: db.outbox[t])
  }

  // ------------------------------------------------------------------ Redis lists

  /** LREM list 1 raw. */
  function Lrem(list: seq<Raw>, raw: Raw): seq<Raw> {
    if list == [] then []
    else if list[0] == raw then list[1..]
    else [list[0]] + Lrem(list[1..], raw)
  }

  function NamedIn(list: seq<Raw>): set<TaskId> {
    set raw | raw in list && raw.body.Named? :: raw.body.task
  }

  // ------------------------------------------------------------------ processes

  datatype Phase = Claimed | Recorded | Called | Failing

  datatype Entry = Entry(task: TaskId, payload: Raw)

  datatype Pc =
    | Idle
    | Moved(raw: Raw)                                    // BLMOVE returned raw
    | Executing(raw: Raw, exec: Exec, phase: Phase)      // holds the lease claim_task handed out
    | Acking(raw: Raw)                                   // handle_delivery returned True
    | Dispatching(claim: ClaimId, rest: seq<Entry>)      // next entry not yet pushed
    | Pushed(claim: ClaimId, task: TaskId, rest: seq<Entry>)
    | Recovering(todo: seq<Raw>)                         // snapshot of the processing list
    | Judged(raw: Raw, verdict: Verdict, todo: seq<Raw>) // database half done, Redis half pending
    | Reaping(seen: set<TaskId>)                         // task list read
    | ReapReady(seen: set<TaskId>)                       // processing list read too

  /** Append-only observations; no step reads them. */
  datatype History = History(
    granted: map<Lease, TaskId>,     // every lease claim_task ever handed out
    calls: seq<Exec>,                // provider calls, in order
    abandoned: set<Exec>,            // executions dropped after their attempt row was committed
    submitted: map<TaskId, Raw>,     // accepted dashboard requests
    arrived: multiset<Raw>,          // RPUSHes onto the task list
    buried: multiset<Raw>,           // RPUSHes onto the dead list by handle_delivery
    removed: multiset<Raw>,          // occurrences acknowledgements removed
    claims: set<(TaskId, ClaimId)>,  // outbox rows claimed, with the claim that took them
    pushes: seq<(TaskId, ClaimId)>,  // outbox rows pushed, with the claim under which
    acks: seq<TaskId>)               // outbox rows marked delivered

  datatype State = State(cfg: Config, now: int, nextId: nat, db: Db,
                         queue: seq<Raw>, processing: seq<Raw>, dead: seq<Raw>,
                         workers: map<WorkerId, Pc>, h: History)

  function Init(cfg: Config): State {
    State(cfg, 0, 0, Db(map[], map[], [], map[]), [], [], [], map[],
          History(map[], [], {}, map[], multiset{}, multiset{}, multiset{}, {}, [], []))
  }

  function PcOf(s: State, w: WorkerId): Pc {
    if w in s.workers then s.workers[w] else Idle
  }

  function At(s: State, w: WorkerId, pc: Pc): State {
    s.(workers := s.workers[w := pc])
  }

  function DispatchPc(c: ClaimId, rest: seq<Entry>): Pc {
    if rest == [] then Idle else Dispatching(c, rest)
  }

  function RecoverPc(todo: seq<Raw>): Pc {
    if todo == [] then Idle else Recovering(todo)
  }

  datatype Step =
    | Tick(seconds: nat)
    | Submit(text: nat)                                  // dashboard create_task, accepted
    | Arrive(raw: Raw)                                   // another producer's RPUSH
    | Move(w: WorkerId)                                  // BLMOVE
    | Bury(w: WorkerId)                                  // handle_delivery dead-letters
    | Claim(w: WorkerId, pick: Option<Exec>)
    | Attempt(w: WorkerId)
    | Call(w: WorkerId)
    | Complete(w: WorkerId, result: nat, heard: bool)    // heard: the commit's reply arrived
    | Raise(w: WorkerId)                                 // an exception inside the try block
    | Fail(w: WorkerId)
    | Ack(w: WorkerId)
    | Stop(w: WorkerId)                                  // crash, or give up retaining the delivery
    | Scan(w: WorkerId)                                  // LRANGE processing
    | Judge(w: WorkerId)
    | Settle(w: WorkerId)
    | ReapScan(w: WorkerId)
    | ReapScanMore(w: WorkerId)
    | Reap(w: WorkerId)
    | OutboxClaim(w: WorkerId, batch: seq<TaskId>)
    | Publish(w: WorkerId)
    | Mark(w: WorkerId)
    | Drop(w: WorkerId)                                  // an error ends this outbox or recovery entry
    | Cleanup(w: WorkerId)

  /** Loops that go on with their next entry after an error in the current one. */
  predicate Droppable(pc: Pc) {
    (pc.Dispatching? && pc.rest != []) || pc.Pushed? || (pc.Recovering? && pc.todo != []) || pc.Judged?
  }

  function Dropped(pc: Pc): Pc
    requires Droppable(pc)
  {
    match pc
    case Dispatching(c, rest) => DispatchPc(c, rest[1..])
    case Pushed(c, _, rest) => DispatchPc(c, rest)
    case Recovering(todo) => RecoverPc(todo[1..])
    case Judged(_, _, todo) => RecoverPc(todo)
  }

  /** The task a moved delivery is about; a message without task_id gets a new uuid4. */
  function Target(s: State, raw: Raw): TaskId {
    if raw.body.Named? then raw.body.task else Minted(s.nextId)
  }

  function ClaimLease(s: State): Lease { s.nextId + 1 }

  function Entries(db: Db, batch: seq<TaskId>): seq<Entry>
    requires forall t :: t in batch ==> t in db.outbox
  {
    seq(|batch|, i requires 0 <= i < |batch| => Entry(batch[i], db.outbox[batch[i]].payload))
  }

  /** Nobody can name an identifier before this system minted it. */
  predicate Known(s: State, raw: Raw) {
    raw.body.Named? && raw.body.task.Minted? ==> raw.body.task.n < s.nextId
  }

  /** A worker at program counter pc can take step k. */
  ghost predicate Ready(s: State, k: Step, pc: Pc) {
    match k
    case Move(w) => pc.Idle? && s.queue != []
    case Bury(w) => pc.Moved? && !LaneAccepted(pc.raw)
    case Claim(w, pick) =>
      && pc.Moved? && (pc.raw.body.Named? || pc.raw.body.NoTaskId?)
      && LatestInflight(s.db.attempts, Target(s, pc.raw), pick)
    case Attempt(w) => pc.Executing? && pc.phase == Claimed
    case Call(w) => pc.Executing? && pc.phase == Recorded && pc.raw.provider == GigaChat
    case Complete(w, _, _) =>
      && pc.Executing?
      && (pc.phase == Called || (pc.phase == Recorded && pc.raw.provider == LocalSmokeTest))
    case Raise(w) => pc.Executing?
    case Fail(w) => pc.Executing? && pc.phase == Failing
    case Ack(w) => pc.Acking?
    case Stop(w) => !pc.Idle?
    case Scan(w) => pc.Idle?
    case Judge(w) => pc.Recovering? && pc.todo != []
    case Settle(w) => pc.Judged?
    case ReapScan(w) => pc.Idle?
    case ReapScanMore(w) => pc.Reaping?
    case Reap(w) => pc.ReapReady?
    case OutboxClaim(w, batch) => pc.Idle? && IsBatch(s.db, s.now, s.cfg, batch)
    case Publish(w) =>
      && pc.Dispatching? && pc.rest != []
      && pc.rest[0].payload.body == Named(pc.rest[0].task)
    case Mark(w) => pc.Pushed?
    case Drop(w) => Droppable(pc)
    case Cleanup(w) => pc.Idle?
    case _ => true
  }

  ghost predicate Enabled(s: State, k: Step) {
    if k.Tick? || k.Submit? then true
    else if k.Arrive? then Known(s, k.raw)
    else Ready(s, k, PcOf(s, k.w))
  }

  function SubmitStep(s: State, text: nat): State {
    var t := Minted(s.nextId);
    var payload := Raw(text, Named(t), GigaChat);
    s.(nextId := s.nextId + 1, db := SubmitTx(s.db, s.now, t, payload),
       h := s.h.(submitted := s.h.submitted[t := payload]))
  }

  function Arrived(s: State, raw: Raw): State {
    s.(queue := s.queue + [raw], h := s.h.(arrived := s.h.arrived + multiset{raw}))
  }

  function MoveStep(s: State, w: WorkerId): State
    requires s.queue != []
  {
    At(s.(queue := s.queue[1..], processing := s.processing + [s.queue[0]]), w, Moved(s.queue[0]))
  }

  function BuryStep(s: State, w: WorkerId, raw: Raw): State {
    At(s.(dead := s.dead + [raw], h := s.h.(buried := s.h.buried + multiset{raw})), w, Acking(raw))
  }

  function ClaimStep(s: State, w: WorkerId, raw: Raw, pick: Option<Exec>): State {
    var t, e := Target(s, raw), ClaimLease(s);
    var s1 := s.(nextId := s.nextId + 2, db := ClaimTx(s.db, s.now, t, e, pick));
    if Granted(s.db, t, pick)
    then At(s1.(h := s.h.(granted := s.h.granted[e := t])), w, Executing(raw, Exec(t, e), Claimed))
    else At(s1, w, Acking(raw))
  }

  function StopStep(s: State, w: WorkerId, pc: Pc): State {
    var s1 := At(s, w, Idle);
    if pc.Executing? && pc.exec in s.db.attempts
    then s1.(h := s.h.(abandoned := s.h.abandoned + {pc.exec}))
    else s1
  }

  function RemoveProcessing(s: State, raw: Raw): State {
    if raw in s.processing
    then s.(processing := Lrem(s.processing, raw), h := s.h.(removed := s.h.removed + multiset{raw}))
    else s
  }

  /** One entry of the recovery loop, first half: invalid entries go to the dead list at once. */
  function JudgeStep(s: State, w: WorkerId, raw: Raw, rest: seq<Raw>): State {
    if raw.body.Named? then
      At(s.(db := RecoverTx(s.db, s.now, s.cfg, raw.body.task)), w,
         Judged(raw, RecoverVerdict(s.db, s.now, s.cfg, raw.body.task), rest))
    else if raw in s.processing then
      At(s.(processing := Lrem(s.processing, raw), dead := s.dead + [raw]), w, RecoverPc(rest))
    else At(s, w, RecoverPc(rest))
  }

  /** Second half: the Lua requeue script, the acknowledgement, or nothing. */
  function SettleLists(s: State, raw: Raw, verdict: Verdict): State {
    match verdict
    case Requeue =>
      if raw in s.processing then s.(processing := Lrem(s.processing, raw), queue := [raw] + s.queue) else s
    case Settled => RemoveProcessing(s, raw)
    case Leave => s
  }

  function OutboxClaimStep(s: State, w: WorkerId, batch: seq<TaskId>): State
    requires forall t :: t in batch ==> t in s.db.outbox
  {
    var c := s.nextId;
    At(s.(nextId := s.nextId + 1, db := OutboxClaimTx(s.db, s.now, c, batch),
          h := s.h.(claims := s.h.claims + (set t | t in batch :: (t, c)))),
       w, DispatchPc(c, Entries(s.db, batch)))
  }

  function PublishStep(s: State, w: WorkerId, c: ClaimId, entry: Entry, rest: seq<Entry>): State {
    At(Arrived(s, entry.payload).(h := s.h.(arrived := s.h.arrived + multiset{entry.payload},
                                            pushes := s.h.pushes + [(entry.task, c)])),
       w, Pushed(c, entry.task, rest))
  }

  function MarkStep(s: State, w: WorkerId, c: ClaimId, t: TaskId, rest: seq<Entry>): State {
    At(s.(db := MarkTx(s.db, s.now, t, c),
          h := if Markable(s.db, t, c) then s.h.(acks := s.h.acks + [t]) else s.h),
       w, DispatchPc(c, rest))
  }

  ghost function Apply(s: State, k: Step): State
    requires Enabled(s, k)
  {
    match k
    case Tick(d) => s.(now := s.now + d)
    case Submit(text) => SubmitStep(s, text)
    case Arrive(raw) => Arrived(s, raw)
    case Move(w) => MoveStep(s, w)
    case Bury(w) => BuryStep(s, w, PcOf(s, w).raw)
    case Claim(w, pick) => ClaimStep(s, w, PcOf(s, w).raw, pick)
    case Attempt(w) =>
      At(s.(db := RecordAttemptTx(s.db, s.now, PcOf(s, w).exec)), w, PcOf(s, w).(phase := Recorded))
    case Call(w) =>
      At(s.(h := s.h.(calls := s.h.calls + [PcOf(s, w).exec])), w, PcOf(s, w).(phase := Called))
    case Complete(w, result, heard) =>
      At(s.(db := CompleteTx(s.db, s.now, PcOf(s, w).exec, result)), w,
         if heard then Acking(PcOf(s, w).raw) else PcOf(s, w).(phase := Failing))
    case Raise(w) => At(s, w, PcOf(s, w).(phase := Failing))
    case Fail(w) => At(s.(db := FailTx(s.db, s.now, PcOf(s, w).exec)), w, Acking(PcOf(s, w).raw))
    case Ack(w) => At(RemoveProcessing(s, PcOf(s, w).raw), w, Idle)
    case Stop(w) => StopStep(s, w, PcOf(s, w))
    case Scan(w) => At(s, w, RecoverPc(s.processing))
    case Judge(w) => JudgeStep(s, w, PcOf(s, w).todo[0], PcOf(s, w).todo[1..])
    case Settle(w) => At(SettleLists(s, PcOf(s, w).raw, PcOf(s, w).verdict), w, RecoverPc(PcOf(s, w).todo))
    case ReapScan(w) => At(s, w, Reaping(NamedIn(s.queue)))
    case ReapScanMore(w) => At(s, w, ReapReady(PcOf(s, w).seen + NamedIn(s.processing)))
    case Reap(w) => At(s.(db := ReapTx(s.db, s.now, s.cfg, PcOf(s, w).seen)), w, Idle)
    case OutboxClaim(w, batch) => OutboxClaimStep(s, w, batch)
    case Publish(w) => PublishStep(s, w, PcOf(s, w).claim, PcOf(s, w).rest[0], PcOf(s, w).rest[1..])
    case Mark(w) => MarkStep(s, w, PcOf(s, w).claim, PcOf(s, w).task, PcOf(s, w).rest)
    case Drop(w) => At(s, w, Dropped(PcOf(s, w)))
    case Cleanup(w) => s.(db := CleanupTx(s.db, s.now, s.cfg))
  }

  ghost predicate Next(s: State, k: Step, s': State) {
    Enabled(s, k) && s' == Apply(s, k)
  }

  // ------------------------------------------------------------------ runs

  /** `ss` are the states a run visits and `ks` the steps between them. */
  ghost predicate Run(ss: seq<State>, ks: seq<Step>) {
    && |ss| == |ks| + 1
    && forall i :: 0 <= i < |ks| ==> Next(ss[i], ks[i], ss[i + 1])
  }

  ghost predicate RunFromInit(cfg: Config, ss: seq<State>, ks: seq<Step>) {
    Run(ss, ks) && ss[0] == Init(cfg)
  }
}
