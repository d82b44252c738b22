/** What messages may circulate: everything in a list, with a worker or in the outbox came in
    through an arrival or a submission. */
module Identifiers {
  import opened Wrappers
  import opened Protocol

  ghost predicate AllOf(P: Raw -> bool, raws: seq<Raw>) {
    forall m :: m in raws ==> P(m)
  }

  ghost predicate EntriesOf(P: Raw -> bool, rest: seq<Entry>) {
    forall entry :: entry in rest ==> P(entry.payload)
  }

  ghost predicate PcOnly(P: Raw -> bool, pc: Pc) {
    match pc
    case Moved(raw) => P(raw)
    case Executing(raw, _, _) => P(raw)
    case Acking(raw) => P(raw)
    case Recovering(todo) => AllOf(P, todo)
    case Judged(raw, _, todo) => P(raw) && AllOf(P, todo)
    case Dispatching(_, rest) => EntriesOf(P, rest)
    case Pushed(_, _, rest) => EntriesOf(P, rest)
    case _ => true
  }

  /** Every message in a list, with a worker, or awaiting delivery in the outbox satisfies P. */
  ghost predicate Circulates(s: State, P: Raw -> bool) {
    && AllOf(P, s.queue) && AllOf(P, s.processing)
    && (forall t :: t in s.db.outbox && s.db.outbox[t].deliveredAt.None? ==> P(s.db.outbox[t].payload))
    && (forall w :: w in s.workers ==> PcOnly(P, s.workers[w]))
  }

  predicate HasActor(k: Step) {
    !k.Tick? && !k.Submit? && !k.Arrive?
  }

  /** The message a step brings in from outside, if any, satisfies P. */
  ghost predicate Brings(s: State, k: Step, P: Raw -> bool) {
    match k
    case Arrive(raw) => P(raw)
    case Submit(text) => P(Raw(text, Named(Minted(s.nextId)), GigaChat))
    case _ => true
  }

  lemma {:induction false} LremSubset(list: seq<Raw>, raw: Raw)
    ensures forall m :: m in Lrem(list, raw) ==> m in list
    decreases |list|
  {
    if list != [] {
      LremSubset(list[1..], raw);
    }
  }

  lemma Tail(P: Raw -> bool, raws: seq<Raw>)
    requires AllOf(P, raws) && raws != []
    ensures P(raws[0]) && AllOf(P, raws[1..])
  {
    assert forall m :: m in raws[1..] ==> m in raws;
  }

  lemma TailEntries(P: Raw -> bool, rest: seq<Entry>)
    requires EntriesOf(P, rest) && rest != []
    ensures P(rest[0].payload) && EntriesOf(P, rest[1..])
  {
    assert forall entry :: entry in rest[1..] ==> entry in rest;
  }

  lemma ActorOnly(s: State, w: WorkerId, P: Raw -> bool)
    requires Circulates(s, P)
    ensures PcOnly(P, PcOf(s, w))
  {
  }

  lemma ListsCirculate(s: State, k: Step, s': State, P: Raw -> bool)
    requires Circulates(s, P) && Brings(s, k, P) && Next(s, k, s')
    ensures AllOf(P, s'.queue) && AllOf(P, s'.processing)
  {
    if HasActor(k) { ActorOnly(s, k.w, P); }
    if k.Judge? { LremSubset(s.processing, PcOf(s, k.w).todo[0]); }
    if k.Settle? || k.Ack? { LremSubset(s.processing, PcOf(s, k.w).raw); }
    if k.Publish? { TailEntries(P, PcOf(s, k.w).rest); }
    if k.Move? { Tail(P, s.queue); }
    hide Circulates, ClaimTx, RecordAttemptTx, CompleteTx, FailTx, RecoverTx, ReapTx, SubmitTx, OutboxClaimTx, MarkTx, CleanupTx,
         Lrem, NamedIn, Entries, RecoverVerdict, LatestInflight, IsBatch, Target, Granted;
  }

  predicate LeavesOutbox(k: Step) {
    !k.Submit? && !k.OutboxClaim? && !k.Mark? && !k.Cleanup?
  }

  lemma OutboxUntouched(s: State, k: Step, s': State)
    requires Next(s, k, s') && LeavesOutbox(k)
    ensures s'.db.outbox == s.db.outbox
  {
    hide Enabled, Lrem, NamedIn, Entries, RecoverVerdict, Conclude, InsertTask, Target, Granted;
  }

  lemma SubmittedUntouched(s: State, k: Step, s': State)
    requires Next(s, k, s') && !k.Submit?
    ensures s'.h.submitted == s.h.submitted
  {
    hide Enabled, Lrem, NamedIn, Entries, RecoverVerdict, OutboxClaimTx, MarkTx, CleanupTx, ClaimTx, RecordAttemptTx, CompleteTx,
         FailTx, RecoverTx, ReapTx, SubmitTx, Target, Granted;
  }

  lemma MintsOnly(s: State, k: Step, s': State)
    requires Next(s, k, s')
    ensures s.nextId <= s'.nextId && (k.Submit? ==> s.nextId < s'.nextId)
  {
    hide Enabled, Lrem, NamedIn, Entries, RecoverVerdict, OutboxClaimTx, MarkTx, CleanupTx, ClaimTx, RecordAttemptTx, CompleteTx,
         FailTx, RecoverTx, ReapTx, SubmitTx, Target, Granted;
  }

  lemma OutboxCirculates(s: State, k: Step, s': State, P: Raw -> bool)
    requires Circulates(s, P) && Brings(s, k, P) && Next(s, k, s')
    ensures forall t :: t in s'.db.outbox && s'.db.outbox[t].deliveredAt.None? ==> P(s'.db.outbox[t].payload)
  {
    if LeavesOutbox(k) {
      OutboxUntouched(s, k, s');
      hide Next;
    } else {
      hide Ready, Lrem, NamedIn, Entries, InsertTask, ClaimTx, RecordAttemptTx, CompleteTx, FailTx, RecoverTx, ReapTx;
    }
  }

  lemma ActorMoves(s: State, k: Step, s': State)
    requires Next(s, k, s')
    ensures HasActor(k) && !k.Cleanup? ==> s'.workers == s.workers[k.w := PcOf(s', k.w)]
    ensures !HasActor(k) || k.Cleanup? ==> s'.workers == s.workers
  {
  }

  lemma ActorCirculates(s: State, k: Step, s': State, P: Raw -> bool)
    requires Circulates(s, P) && Next(s, k, s') && HasActor(k) && !k.Cleanup?
    ensures PcOnly(P, PcOf(s', k.w))
  {
    hide NamedIn, LatestInflight, RecoverVerdict, OutboxClaimTx, MarkTx, CleanupTx, ClaimTx, RecordAttemptTx, CompleteTx, FailTx, RecoverTx, ReapTx, SubmitTx;
    ActorOnly(s, k.w, P);
    match k
    case Move(w) => Tail(P, s.queue);
    case Judge(w) => Tail(P, PcOf(s, w).todo);
    case Publish(w) => TailEntries(P, PcOf(s, w).rest);
    case Drop(w) =>
      if PcOf(s, w).Dispatching? { TailEntries(P, PcOf(s, w).rest); }
      if PcOf(s, w).Recovering? { Tail(P, PcOf(s, w).todo); }
    case OutboxClaim(w, batch) =>
      forall entry | entry in Entries(s.db, batch) ensures P(entry.payload) { }
    case _ =>
  }

  lemma CirculatesStep(s: State, k: Step, s': State, P: Raw -> bool)
    requires Circulates(s, P) && Brings(s, k, P) && Next(s, k, s')
    ensures Circulates(s', P)
  {
    ListsCirculate(s, k, s', P);
    OutboxCirculates(s, k, s', P);
    ActorMoves(s, k, s');
    if HasActor(k) && !k.Cleanup? { ActorCirculates(s, k, s', P); }
  }

  lemma CirculatesWeaken(s: State, P: Raw -> bool, Q: Raw -> bool)
    requires Circulates(s, P) && forall m :: P(m) ==> Q(m)
    ensures Circulates(s, Q)
  {
    forall w | w in s.workers ensures PcOnly(Q, s.workers[w]) {
      assert PcOnly(P, s.workers[w]);
    }
  }

  // ------------------------------------------------------------------ freshness

  predicate MintedBefore(raw: Raw, n: nat) {
    raw.body.Named? && raw.body.task.Minted? ==> raw.body.task.n < n
  }

  /** No row and no message names an identifier that uuid4 has not produced yet. */
  ghost predicate WellMinted(s: State) {
    && (forall t :: t in s.db.tasks && t.Minted? ==> t.n < s.nextId)
    && Circulates(s, m => MintedBefore(m, s.nextId))
  }

  lemma TasksUntouched(s: State, k: Step, s': State)
    requires Next(s, k, s') && !k.Submit? && !k.Claim? && !k.Judge?
    ensures s'.db.tasks.Keys == s.db.tasks.Keys
  {
    hide Enabled, Lrem, NamedIn, Entries, Conclude, InsertTask, ClaimTx, RecoverTx, SubmitTx, RecoverVerdict, Target, Granted;
  }

  lemma MintedClaim(s: State, w: WorkerId, raw: Raw, pick: Option<Exec>)
    requires (forall t :: t in s.db.tasks && t.Minted? ==> t.n < s.nextId) && MintedBefore(raw, s.nextId)
    ensures var s' := ClaimStep(s, w, raw, pick); forall t :: t in s'.db.tasks && t.Minted? ==> t.n < s'.nextId
  {
  }

  lemma MintedJudge(s: State, w: WorkerId, raw: Raw, rest: seq<Raw>)
    requires (forall t :: t in s.db.tasks && t.Minted? ==> t.n < s.nextId) && MintedBefore(raw, s.nextId)
    ensures var s' := JudgeStep(s, w, raw, rest); forall t :: t in s'.db.tasks && t.Minted? ==> t.n < s'.nextId
  {
  }

  lemma MintedTasks(s: State, k: Step, s': State)
    requires WellMinted(s) && Next(s, k, s')
    ensures s.nextId <= s'.nextId && (k.Submit? ==> s.nextId < s'.nextId)
    ensures forall t :: t in s'.db.tasks && t.Minted? ==> t.n < s'.nextId
  {
    MintsOnly(s, k, s');
    var P := m => MintedBefore(m, s.nextId);
    match k
    case Submit(_) => assert s' == SubmitStep(s, k.text);
    case Claim(w, pick) => ActorOnly(s, w, P); MintedClaim(s, w, PcOf(s, w).raw, pick);
    case Judge(w) => ActorOnly(s, w, P); Tail(P, PcOf(s, w).todo); MintedJudge(s, w, PcOf(s, w).todo[0], PcOf(s, w).todo[1..]);
    case _ => TasksUntouched(s, k, s'); hide Apply, Enabled;
  }

  lemma MintedStep(s: State, k: Step, s': State)
    requires WellMinted(s) && Next(s, k, s')
    ensures WellMinted(s')
  {
    MintedTasks(s, k, s');
    var P := m => MintedBefore(m, s.nextId);
    var Q := m => MintedBefore(m, s'.nextId);
    CirculatesWeaken(s, P, Q);
    CirculatesStep(s, k, s', Q);
    assert Circulates(s', Q);
    CirculatesWeaken(s', Q, m => MintedBefore(m, s'.nextId));
  }

  // ------------------------------------------------------------------ payloads

  /** A message naming an id minted here is the very payload that was submitted. */
  predicate Genuine(raw: Raw, submitted: map<TaskId, Raw>) {
    raw.body.Named? && raw.body.task.Minted? ==> raw.body.task in submitted && submitted[raw.body.task] == raw
  }

  lemma GenuineStep(s: State, k: Step, s': State)
    requires Circulates(s, m => Genuine(m, s.h.submitted)) && Next(s, k, s')
    requires k.Arrive? ==> Genuine(k.raw, s.h.submitted)
    requires forall t :: t in s.h.submitted ==> t.Minted? && t.n < s.nextId
    ensures Circulates(s', m => Genuine(m, s'.h.submitted))
  {
    var P := m => Genuine(m, s.h.submitted);
    var Q := m => Genuine(m, s'.h.submitted);
    SubmittedGrows(s, k, s');
    CirculatesWeaken(s, P, Q);
    CirculatesStep(s, k, s', Q);
    CirculatesWeaken(s', Q, m => Genuine(m, s'.h.submitted));
  }

  lemma SubmittedGrows(s: State, k: Step, s': State)
    requires Next(s, k, s') && forall t :: t in s.h.submitted ==> t.Minted? && t.n < s.nextId
    ensures forall t :: t in s.h.submitted ==> t in s'.h.submitted && s'.h.submitted[t] == s.h.submitted[t]
    ensures k.Submit? ==> Genuine(Raw(k.text, Named(Minted(s.nextId)), GigaChat), s'.h.submitted)
  {
    if k.Submit? {
      assert s' == SubmitStep(s, k.text);
    } else {
      SubmittedUntouched(s, k, s');
    }
    hide Apply, Enabled;
  }
}
