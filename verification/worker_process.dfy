/** The worker's own control flow: which atomic action follows which, under every combination of
    failures, while the other processes interleave with it arbitrarily. */
module WorkerProcess {
  import opened Wrappers
  import opened Protocol
  import opened Interleaving
  import opened ControlPlanes
  import opened Deliveries

  // ------------------------------------------------------------------ what can go wrong

  /** A transaction or Redis command is heard of, takes effect unheard, or never takes effect;
      the caller sees an exception in the last two cases. */
  datatype Reply = Heard | Unheard | Lost

  datatype Answer = NotSent | Rejected | Answered

  datatype Luck = Luck(bury: Reply, claim: Reply, attempt: Reply, provider: Answer, complete: Reply, fail: Reply,
                       result: nat, pause: nat)

  datatype EntryLuck = EntryLuck(push: Reply, mark: Reply, pause: nat)

  datatype SweepLuck = SweepLuck(database: Reply, redis: Reply, pause: nat)

  datatype TurnLuck = TurnLuck(dispatchDue: bool, claiming: Reply, entries: nat -> EntryLuck, cleanupDue: bool,
                               recoveryDue: bool, reached: nat, sweeps: nat -> SweepLuck, reapSteps: nat,
                               luck: Luck, pause: nat)

  // ------------------------------------------------------------------ the order of actions

  function FailScript(w: WorkerId, luck: Luck): (ks: seq<Step>)
    ensures ks != []
  {
    match luck.fail
    case Heard => [Fail(w)]
    case Unheard => [Fail(w), Stop(w)]
    case Lost => [Stop(w)]
  }

  function OutcomeScript(w: WorkerId, luck: Luck): (ks: seq<Step>)
    ensures ks != []
  {
    match luck.complete
    case Heard => [Complete(w, luck.result, true)]
    case Unheard => [Complete(w, luck.result, false)] + FailScript(w, luck)
    case Lost => [Raise(w)] + FailScript(w, luck)
  }

  function ProviderScript(w: WorkerId, provider: Provider, luck: Luck): (ks: seq<Step>)
    ensures ks != []
  {
    match provider
    case GigaChat =>
      if luck.provider.NotSent? then [Raise(w)] + FailScript(w, luck)
      else if luck.provider.Rejected? then [Call(w), Raise(w)] + FailScript(w, luck)
      else [Call(w)] + OutcomeScript(w, luck)
    case LocalSmokeTest => OutcomeScript(w, luck)
    case Unsupported => [Raise(w)] + FailScript(w, luck)
  }

  function ExecutionScript(w: WorkerId, provider: Provider, luck: Luck): (ks: seq<Step>)
    ensures ks != []
  {
    match luck.attempt
    case Heard => [Attempt(w)] + ProviderScript(w, provider, luck)
    case Unheard => [Attempt(w), Raise(w)] + FailScript(w, luck)
    case Lost => [Raise(w)] + FailScript(w, luck)
  }

  /** handle_delivery: `pick` and `granted` are what the database answered to the claim. */
  function DeliveryScript(w: WorkerId, raw: Raw, luck: Luck, pick: Option<Exec>, granted: bool): (ks: seq<Step>)
    ensures ks != []
  {
    if !LaneAccepted(raw) then
      if luck.bury.Heard? then [Bury(w)] else if luck.bury.Unheard? then [Bury(w), Stop(w)] else [Stop(w)]
    else if raw.body.BadTaskId? || luck.claim.Lost? then [Stop(w)]
    else if luck.claim.Unheard? then [Claim(w, pick), Stop(w)]
    else [Claim(w, pick)] + if granted then ExecutionScript(w, raw.provider, luck) else []
  }

  function EntryScript(w: WorkerId, entry: Entry, luck: EntryLuck): seq<Step> {
    if entry.payload.body != Named(entry.task) || luck.push.Lost? then [Drop(w)]
    else if luck.push.Unheard? || luck.mark.Lost? then [Publish(w), Drop(w)]
    else [Publish(w), Mark(w)]
  }

  function BatchScript(w: WorkerId, entries: seq<Entry>, lucks: nat -> EntryLuck): seq<Step>
    decreases |entries|
  {
    if entries == [] then []
    else BatchScript(w, entries[..|entries| - 1], lucks) + EntryScript(w, entries[|entries| - 1], lucks(|entries| - 1))
  }

  function SweepScript(w: WorkerId, raw: Raw, luck: SweepLuck): seq<Step> {
    if !raw.body.Named? then [Judge(w)]
    else if luck.database.Lost? then [Drop(w)]
    else if luck.database.Unheard? || luck.redis.Lost? then [Judge(w), Drop(w)]
    else [Judge(w), Settle(w)]
  }

  function SweepsScript(w: WorkerId, todo: seq<Raw>, lucks: nat -> SweepLuck): seq<Step>
    decreases |todo|
  {
    if todo == [] then []
    else SweepsScript(w, todo[..|todo| - 1], lucks) + SweepScript(w, todo[|todo| - 1], lucks(|todo| - 1))
  }

  /** dispatch_pending_outbox over the entries the claim returned. */
  function DispatchScript(w: WorkerId, claiming: Reply, batch: seq<TaskId>, claimed: seq<Entry>, lucks: nat -> EntryLuck): seq<Step> {
    match claiming
    case Lost => []
    case Unheard => [OutboxClaim(w, batch)] + if claimed == [] then [] else [Stop(w)]
    case Heard => [OutboxClaim(w, batch)] + BatchScript(w, claimed, lucks)
  }

  /** recover_stale_deliveries over a snapshot; past `reached` entries an exception escapes it. */
  function RecoverScript(w: WorkerId, todo: seq<Raw>, reached: nat, lucks: nat -> SweepLuck): seq<Step> {
    if reached < |todo| then [Scan(w)] + SweepsScript(w, todo[..reached], lucks) + [Stop(w)]
    else [Scan(w)] + SweepsScript(w, todo, lucks)
  }

  /** reap_orphaned_queued_tasks, cut short by an error after `stopAt` actions. */
  function ReapScript(w: WorkerId, stopAt: nat): seq<Step> {
    if stopAt == 0 then []
    else if stopAt == 1 then [ReapScan(w), Stop(w)]
    else if stopAt == 2 then [ReapScan(w), ReapScanMore(w), Stop(w)]
    else [ReapScan(w), ReapScanMore(w), Reap(w)]
  }

  predicate Returned(ks: seq<Step>, w: WorkerId) {
    ks != [] && ks[|ks| - 1] != Stop(w)
  }

  /** The end of run_worker's loop body. */
  function ServeScript(w: WorkerId, raw: Raw, luck: Luck, pick: Option<Exec>, granted: bool): seq<Step> {
    var handled := DeliveryScript(w, raw, luck, pick, granted);
    [Move(w)] + handled + if Returned(handled, w) then [Ack(w)] else []
  }

  /** What the database and Redis showed a worker during one turn: the rows its outbox claim took
      and the snapshot its recovery pass worked through, ... */
  datatype Duties = Duties(batch: seq<TaskId>, claimed: seq<Entry>, todo: seq<Raw>)

  /** ... then the delivery it took, if any, and the answer to its claim. */
  datatype Seen = Seen(duties: Duties, taken: Option<Raw>, pick: Option<Exec>, granted: bool)

  function DutyScript(w: WorkerId, turn: TurnLuck, duties: Duties): seq<Step> {
    (if turn.dispatchDue then DispatchScript(w, turn.claiming, duties.batch, duties.claimed, turn.entries) else [])
    + (if turn.cleanupDue then [Cleanup(w)] else [])
    + (if turn.recoveryDue then RecoverScript(w, duties.todo, turn.reached, turn.sweeps) + ReapScript(w, turn.reapSteps) else [])
  }

  /** One turn of run_worker: the duties that are due, in their order, then one delivery. */
  function TurnScript(w: WorkerId, turn: TurnLuck, seen: Seen): seq<Step> {
    DutyScript(w, turn, seen.duties)
    + if seen.taken.Some? then ServeScript(w, seen.taken.value, turn.luck, seen.pick, seen.granted) else []
  }

  function TurnsScript(w: WorkerId, turns: nat -> TurnLuck, seens: seq<Seen>): seq<Step>
    decreases |seens|
  {
    if seens == [] then []
    else TurnsScript(w, turns, seens[..|seens| - 1]) + TurnScript(w, turns(|seens| - 1), seens[|seens| - 1])
  }

  /** Steps that commit what became of an execution. */
  predicate Concludes(k: Step) {
    k.Complete? || k.Fail?
  }

  /** Stops at most at the very end, and otherwise ends with a committed outcome. */
  predicate EndsCommitted(ks: seq<Step>, w: WorkerId) {
    && ks != [] && (forall i :: 0 <= i < |ks| - 1 ==> ks[i] != Stop(w))
    && (Returned(ks, w) ==> Concludes(ks[|ks| - 1]))
  }

  lemma Prepended(k: Step, ks: seq<Step>, w: WorkerId)
    requires EndsCommitted(ks, w) && k != Stop(w)
    ensures EndsCommitted([k] + ks, w) && (Call(w) !in ks && k != Call(w) ==> Call(w) !in [k] + ks)
  {
  }

  lemma OutcomeIsGuarded(w: WorkerId, luck: Luck)
    ensures EndsCommitted(FailScript(w, luck), w) && Call(w) !in FailScript(w, luck)
    ensures EndsCommitted(OutcomeScript(w, luck), w) && Call(w) !in OutcomeScript(w, luck)
  {
    Prepended(Raise(w), FailScript(w, luck), w);
    Prepended(Complete(w, luck.result, false), FailScript(w, luck), w);
  }

  lemma ProviderIsGuarded(w: WorkerId, provider: Provider, luck: Luck)
    ensures var ks := ProviderScript(w, provider, luck);
            EndsCommitted(ks, w) && forall i :: 0 < i < |ks| ==> ks[i] != Call(w)
  {
    hide FailScript, OutcomeScript;
    OutcomeIsGuarded(w, luck);
    Prepended(Raise(w), FailScript(w, luck), w);
    Prepended(Call(w), [Raise(w)] + FailScript(w, luck), w);
    Prepended(Call(w), OutcomeScript(w, luck), w);
    assert [Call(w), Raise(w)] + FailScript(w, luck) == [Call(w)] + ([Raise(w)] + FailScript(w, luck));
  }

  lemma ExecutionIsGuarded(w: WorkerId, provider: Provider, luck: Luck)
    ensures var ks := ExecutionScript(w, provider, luck);
            EndsCommitted(ks, w) && forall i :: 0 <= i < |ks| && ks[i] == Call(w) ==> i == 1 && ks[0] == Attempt(w)
  {
    hide FailScript, ProviderScript;
    OutcomeIsGuarded(w, luck);
    ProviderIsGuarded(w, provider, luck);
    Prepended(Raise(w), FailScript(w, luck), w);
    Prepended(Attempt(w), [Raise(w)] + FailScript(w, luck), w);
    Prepended(Attempt(w), ProviderScript(w, provider, luck), w);
    assert [Attempt(w), Raise(w)] + FailScript(w, luck) == [Attempt(w)] + ([Raise(w)] + FailScript(w, luck));
  }

  /** Whatever fails, handle_delivery calls the provider at most once and only right after its
      attempt row was committed; and it returns True for a granted claim only when the outcome
      of the execution was committed. */
  lemma DeliveryIsGuarded(w: WorkerId, raw: Raw, luck: Luck, pick: Option<Exec>, granted: bool)
    ensures var ks := DeliveryScript(w, raw, luck, pick, granted);
            && (forall i :: 0 <= i < |ks| && ks[i] == Call(w) ==> i == 2 && ks[1] == Attempt(w) && ks[0] == Claim(w, pick) && granted)
            && (Returned(ks, w) && Claim(w, pick) in ks && granted ==> Concludes(ks[|ks| - 1]))
            && (forall i :: 0 <= i < |ks| - 1 ==> ks[i] != Stop(w))
  {
    hide ExecutionScript;
    ExecutionIsGuarded(w, raw.provider, luck);
    Prepended(Claim(w, pick), ExecutionScript(w, raw.provider, luck), w);
  }

  // ------------------------------------------------------------------ what the last step tells

  /** The provider produced a result, and every commit on the way to it was heard of. */
  predicate Succeeds(provider: Provider, luck: Luck) {
    luck.attempt.Heard? && luck.complete.Heard? && (provider == LocalSmokeTest || (provider == GigaChat && luck.provider.Answered?))
  }

  /** How handling a delivery ends, whatever went wrong. */
  ghost predicate TellsOutcome(did: seq<Step>, w: WorkerId, raw: Raw, luck: Luck, granted: bool) {
    && did != []
    && var last := did[|did| - 1];
       if raw.body.NotAnObject? || raw.body.BadLane? then
         last == (if luck.bury.Heard? then Bury(w) else Stop(w)) && (Bury(w) in did <==> !luck.bury.Lost?)
       else if raw.body.BadTaskId? || !luck.claim.Heard? then last == Stop(w)
       else if !granted then did == [last] && last.Claim? && last.w == w
       else if Succeeds(raw.provider, luck) then last == Complete(w, luck.result, true)
       else last == if luck.fail.Heard? then Fail(w) else Stop(w)
  }

  lemma LastOf(a: seq<Step>, b: seq<Step>)
    requires b != []
    ensures (a + b)[|a + b| - 1] == b[|b| - 1]
  {
  }

  lemma FailureIsTold(w: WorkerId, luck: Luck)
    ensures var ks := FailScript(w, luck); ks[|ks| - 1] == if luck.fail.Heard? then Fail(w) else Stop(w)
  {
  }

  lemma ExecutionIsTold(w: WorkerId, provider: Provider, luck: Luck)
    ensures var ks := ExecutionScript(w, provider, luck);
            ks[|ks| - 1] == if Succeeds(provider, luck) then Complete(w, luck.result, true)
                            else if luck.fail.Heard? then Fail(w) else Stop(w)
  {
    hide FailScript;
    FailureIsTold(w, luck);
    LastOf([Complete(w, luck.result, false)], FailScript(w, luck));
    LastOf([Raise(w)], FailScript(w, luck));
    LastOf([Call(w), Raise(w)], FailScript(w, luck));
    LastOf([Call(w)], OutcomeScript(w, luck));
    LastOf([Attempt(w), Raise(w)], FailScript(w, luck));
    LastOf([Attempt(w)], ProviderScript(w, provider, luck));
  }

  /** A granted claim ends with the committed result exactly when the claim, the attempt and the
      completion were heard of and the provider answered, or was the local smoke test; in every
      other case it ends with the committed failure, or the delivery is retained. */
  lemma OutcomeIsTold(w: WorkerId, raw: Raw, luck: Luck, pick: Option<Exec>, granted: bool)
    ensures TellsOutcome(DeliveryScript(w, raw, luck, pick, granted), w, raw, luck, granted)
  {
    ExecutionIsTold(w, raw.provider, luck);
    hide ExecutionScript;
    LastOf([Claim(w, pick)], ExecutionScript(w, raw.provider, luck));
  }

  /** Entries are pushed only under a claim the worker heard of; if it was granted unheard, what it
      took is dropped. */
  lemma DispatchIsTold(w: WorkerId, claiming: Reply, batch: seq<TaskId>, claimed: seq<Entry>, lucks: nat -> EntryLuck)
    ensures var did := DispatchScript(w, claiming, batch, claimed, lucks);
            && (OutboxClaim(w, batch) in did <==> !claiming.Lost?) && (did != [] ==> did[0] == OutboxClaim(w, batch))
            && (Publish(w) in did ==> claiming.Heard?)
            && (claiming.Heard? ==> |did| == 1 + |BatchScript(w, claimed, lucks)|)
  {
  }

  /** A pass of the reaper changes rows only after both lists were read. */
  lemma ReapIsTold(w: WorkerId, stopAt: nat)
    ensures var did := ReapScript(w, stopAt);
            && (Reap(w) in did <==> stopAt >= 3)
            && (Reap(w) in did ==> did == [ReapScan(w), ReapScanMore(w), Reap(w)])
  {
  }

  /** An entry of the outbox is pushed exactly when it names its own row and the push arrives, and
      acknowledged exactly when the worker also heard so and the update arrives. */
  lemma EntryIsTold(w: WorkerId, entry: Entry, luck: EntryLuck)
    ensures var did := EntryScript(w, entry, luck);
            && (Publish(w) in did <==> entry.payload.body == Named(entry.task) && !luck.push.Lost?)
            && (Mark(w) in did <==> Publish(w) in did && luck.push.Heard? && !luck.mark.Lost?)
            && (Mark(w) in did ==> did == [Publish(w), Mark(w)])
  {
  }

  /** A recovery entry is judged exactly when the transaction arrives, and what it was judged to be
      is carried out exactly when the worker also heard so and the redis command arrives. */
  lemma SweepIsTold(w: WorkerId, raw: Raw, luck: SweepLuck)
    ensures var did := SweepScript(w, raw, luck);
            && (Judge(w) in did <==> !raw.body.Named? || !luck.database.Lost?)
            && (Settle(w) in did <==> raw.body.Named? && luck.database.Heard? && !luck.redis.Lost?)
            && (Settle(w) in did ==> did == [Judge(w), Settle(w)])
  {
  }

  lemma ReturnedTail(a: seq<Step>, b: seq<Step>, w: WorkerId)
    requires b != []
    ensures Returned(a + b, w) <==> Returned(b, w)
  {
  }

  // ------------------------------------------------------------------ one worker process

  lemma Acts(from: State, own: seq<Step>, s: State, k: Step, s': State, w: WorkerId)
    requires Does(from, own, s, w) && Enabled(s, k) && ByWorker(k, w) && s' == Apply(s, k)
    ensures Does(from, own + [k], s', w)
  {
    DoesOne(s, k, w);
    DoesThen(from, own, s, [k], s', w);
  }

  class Worker {
    const w: WorkerId
    const cp: ControlPlane

    constructor (id: WorkerId, shared: ControlPlane)
      ensures w == id && cp == shared
    {
      w, cp := id, shared;
    }

    ghost function Pc(): Pc
      reads cp
    {
      PcOf(cp.View(), w)
    }

    /** Time passes; whatever else the other processes do is as free as the contract says. */
    method Meanwhile(pause: nat, ghost from: State, ghost own: seq<Step>)
      requires Does(from, own, cp.View(), w)
      modifies cp
      ensures Does(from, own, cp.View(), w) && Pc() == old(Pc())
    {
      ghost var s := cp.View();
      cp.now := cp.now + pause;
      DoesOne(s, Tick(pause), w);
      DoesThen(from, own, s, [], cp.View(), w);
      assert own + [] == own;
    }

    // ---------------------------------------------------------------- handle_delivery

    method DoBury(raw: Raw, pause: nat, ghost from: State, ghost own: seq<Step>)
      requires Does(from, own, cp.View(), w) && Pc() == Moved(raw) && !LaneAccepted(raw)
      modifies cp
      ensures Does(from, own + [Bury(w)], cp.View(), w) && Pc() == Acking(raw)
    {
      Meanwhile(pause, from, own);
      ghost var s := cp.View();
      cp.dead := cp.dead + [raw];
      cp.workers := cp.workers[w := Acking(raw)];
      cp.h := cp.h.(buried := cp.h.buried + multiset{raw});
      Acts(from, own, s, Bury(w), cp.View(), w);
    }

    /** claim_task with freshly minted identifiers. */
    method ClaimNow(raw: Raw) returns (x: Option<Exec>, ghost pick: Option<Exec>)
      modifies cp
      ensures LatestInflight(old(cp.attempts), Target(old(cp.View()), raw), pick)
      ensures cp.View() == ClaimStep(old(cp.View()), w, raw, pick)
      ensures PcOf(cp.View(), w) == match x case Some(exec) => Executing(raw, exec, Claimed) case None => Acking(raw)
    {
      hide ClaimTx, LatestInflight, NoneInflight, Granted;
      var anonymous := cp.Uuid4();
      var t := if raw.body.Named? then raw.body.task else Minted(anonymous);
      var e := cp.Uuid4();
      var lease;
      lease, pick := cp.ClaimTask(t, e);
      if lease.Some? {
        x := Some(Exec(t, e));
        cp.workers := cp.workers[w := Executing(raw, Exec(t, e), Claimed)];
        cp.h := cp.h.(granted := cp.h.granted[e := t]);
      } else {
        x := None;
        cp.workers := cp.workers[w := Acking(raw)];
      }
    }

    method DoClaim(raw: Raw, pause: nat, ghost from: State, ghost own: seq<Step>) returns (x: Option<Exec>, ghost pick: Option<Exec>)
      requires Does(from, own, cp.View(), w) && Pc() == Moved(raw) && (raw.body.Named? || raw.body.NoTaskId?)
      modifies cp
      ensures Does(from, own + [Claim(w, pick)], cp.View(), w)
      ensures Pc() == match x case Some(exec) => Executing(raw, exec, Claimed) case None => Acking(raw)
    {
      hide Does, ClaimTx, LatestInflight, ClaimStep;
      Meanwhile(pause, from, own);
      ghost var s := cp.View();
      x, pick := ClaimNow(raw);
      Acts(from, own, s, Claim(w, pick), cp.View(), w);
    }

    method DoAttempt(raw: Raw, x: Exec, pause: nat, ghost from: State, ghost own: seq<Step>)
      requires Does(from, own, cp.View(), w) && Pc() == Executing(raw, x, Claimed)
      modifies cp
      ensures Does(from, own + [Attempt(w)], cp.View(), w) && Pc() == Executing(raw, x, Recorded)
    {
      Meanwhile(pause, from, own);
      ghost var s := cp.View();
      cp.RecordProviderAttempt(x);
      cp.workers := cp.workers[w := Executing(raw, x, Recorded)];
      Acts(from, own, s, Attempt(w), cp.View(), w);
    }

    method DoCall(raw: Raw, x: Exec, pause: nat, ghost from: State, ghost own: seq<Step>)
      requires Does(from, own, cp.View(), w) && Pc() == Executing(raw, x, Recorded) && raw.provider == GigaChat
      modifies cp
      ensures Does(from, own + [Call(w)], cp.View(), w) && Pc() == Executing(raw, x, Called)
    {
      Meanwhile(pause, from, own);
      ghost var s := cp.View();
      cp.workers := cp.workers[w := Executing(raw, x, Called)];
      cp.h := cp.h.(calls := cp.h.calls + [x]);
      Acts(from, own, s, Call(w), cp.View(), w);
    }

    method DoComplete(raw: Raw, x: Exec, result: nat, heard: bool, pause: nat, ghost from: State, ghost own: seq<Step>)
      requires Does(from, own, cp.View(), w) && Pc().Executing? && Pc().raw == raw && Pc().exec == x
      requires Pc().phase == Called || (Pc().phase == Recorded && raw.provider == LocalSmokeTest)
      modifies cp
      ensures Does(from, own + [Complete(w, result, heard)], cp.View(), w)
      ensures Pc() == if heard then Acking(raw) else Executing(raw, x, Failing)
    {
      hide Does;
      Meanwhile(pause, from, own);
      ghost var s := cp.View();
      var completed := cp.RecordCompletion(x, result);
      cp.workers := cp.workers[w := if heard then Acking(raw) else Executing(raw, x, Failing)];
      Acts(from, own, s, Complete(w, result, heard), cp.View(), w);
    }

    method DoRaise(raw: Raw, x: Exec, pause: nat, ghost from: State, ghost own: seq<Step>)
      requires Does(from, own, cp.View(), w) && Pc().Executing? && Pc().raw == raw && Pc().exec == x
      modifies cp
      ensures Does(from, own + [Raise(w)], cp.View(), w) && Pc() == Executing(raw, x, Failing)
    {
      Meanwhile(pause, from, own);
      ghost var s := cp.View();
      cp.workers := cp.workers[w := Executing(raw, x, Failing)];
      Acts(from, own, s, Raise(w), cp.View(), w);
    }

    method DoFail(raw: Raw, x: Exec, pause: nat, ghost from: State, ghost own: seq<Step>)
      requires Does(from, own, cp.View(), w) && Pc() == Executing(raw, x, Failing)
      modifies cp
      ensures Does(from, own + [Fail(w)], cp.View(), w) && Pc() == Acking(raw)
    {
      hide Does;
      Meanwhile(pause, from, own);
      ghost var s := cp.View();
      var failed := cp.RecordFailed(x);
      cp.workers := cp.workers[w := Acking(raw)];
      Acts(from, own, s, Fail(w), cp.View(), w);
    }

    /** The process dies or gives the delivery up. */
    method DoStop(pause: nat, ghost from: State, ghost own: seq<Step>)
      requires Does(from, own, cp.View(), w) && !Pc().Idle?
      modifies cp
      ensures Does(from, own + [Stop(w)], cp.View(), w) && Pc() == Idle
    {
      Meanwhile(pause, from, own);
      ghost var s, pc := cp.View(), Pc();
      cp.workers := cp.workers[w := Idle];
      if pc.Executing? && pc.exec in cp.attempts {
        cp.h := cp.h.(abandoned := cp.h.abandoned + {pc.exec});
      }
      Acts(from, own, s, Stop(w), cp.View(), w);
    }

    /** The except branch: persist the failure, or retain the delivery. */
    method HandleFailure(raw: Raw, x: Exec, luck: Luck, ghost from: State, ghost own: seq<Step>)
      returns (ok: bool)
      requires Does(from, own, cp.View(), w) && Pc() == Executing(raw, x, Failing)
      modifies cp
      ensures Does(from, own + FailScript(w, luck), cp.View(), w)
      ensures ok <==> Returned(FailScript(w, luck), w)
      ensures Pc() == if ok then Acking(raw) else Idle
    {
      hide Does, PcOf;
      if luck.fail.Lost? {
        DoStop(luck.pause, from, own);
        return false;
      }
      DoFail(raw, x, luck.pause, from, own);
      if luck.fail.Unheard? {
        DoStop(luck.pause, from, own + [Fail(w)]);
        assert own + [Fail(w)] + [Stop(w)] == own + [Fail(w), Stop(w)];
        return false;
      }
      return true;
    }

    method RaiseAndFail(raw: Raw, x: Exec, luck: Luck, ghost from: State, ghost own: seq<Step>) returns (ok: bool)
      requires Does(from, own, cp.View(), w) && Pc().Executing? && Pc().raw == raw && Pc().exec == x
      modifies cp
      ensures Does(from, own + ([Raise(w)] + FailScript(w, luck)), cp.View(), w)
      ensures ok <==> Returned(FailScript(w, luck), w)
      ensures Pc() == if ok then Acking(raw) else Idle
    {
      hide Does, PcOf, FailScript;
      DoRaise(raw, x, luck.pause, from, own);
      ok := HandleFailure(raw, x, luck, from, own + [Raise(w)]);
      ReturnedTail([Raise(w)], FailScript(w, luck), w);
      assert own + [Raise(w)] + FailScript(w, luck) == own + ([Raise(w)] + FailScript(w, luck));
    }

    method RecordOutcome(raw: Raw, x: Exec, luck: Luck, ghost from: State, ghost own: seq<Step>) returns (ok: bool)
      requires Does(from, own, cp.View(), w) && Pc().Executing? && Pc().raw == raw && Pc().exec == x
      requires Pc().phase == Called || (Pc().phase == Recorded && raw.provider == LocalSmokeTest)
      modifies cp
      ensures Does(from, own + OutcomeScript(w, luck), cp.View(), w)
      ensures ok <==> Returned(OutcomeScript(w, luck), w)
      ensures Pc() == if ok then Acking(raw) else Idle
    {
      hide Does, PcOf, FailScript;
      if luck.complete.Lost? {
        ok := RaiseAndFail(raw, x, luck, from, own);
      } else {
        DoComplete(raw, x, luck.result, luck.complete.Heard?, luck.pause, from, own);
        if luck.complete.Unheard? {
          ok := HandleFailure(raw, x, luck, from, own + [Complete(w, luck.result, false)]);
          ReturnedTail([Complete(w, luck.result, false)], FailScript(w, luck), w);
          assert own + [Complete(w, luck.result, false)] + FailScript(w, luck) == own + ([Complete(w, luck.result, false)] + FailScript(w, luck));
        } else {
          ok := true;
        }
      }
    }

    method CallProvider(raw: Raw, x: Exec, luck: Luck, ghost from: State, ghost own: seq<Step>) returns (ok: bool)
      requires Does(from, own, cp.View(), w) && Pc() == Executing(raw, x, Recorded)
      modifies cp
      ensures Does(from, own + ProviderScript(w, raw.provider, luck), cp.View(), w)
      ensures ok <==> Returned(ProviderScript(w, raw.provider, luck), w)
      ensures Pc() == if ok then Acking(raw) else Idle
    {
      hide Does, PcOf, FailScript, OutcomeScript;
      if raw.provider == GigaChat && !luck.provider.NotSent? {
        DoCall(raw, x, luck.pause, from, own);
        if luck.provider.Rejected? {
          ok := RaiseAndFail(raw, x, luck, from, own + [Call(w)]);
          ReturnedTail([Call(w), Raise(w)], FailScript(w, luck), w);
          ReturnedTail([Raise(w)], FailScript(w, luck), w);
          assert own + [Call(w)] + ([Raise(w)] + FailScript(w, luck)) == own + ([Call(w), Raise(w)] + FailScript(w, luck));
        } else {
          ok := RecordOutcome(raw, x, luck, from, own + [Call(w)]);
          ReturnedTail([Call(w)], OutcomeScript(w, luck), w);
          assert own + [Call(w)] + OutcomeScript(w, luck) == own + ([Call(w)] + OutcomeScript(w, luck));
        }
      } else if raw.provider == LocalSmokeTest {
        ok := RecordOutcome(raw, x, luck, from, own);
      } else {
        ok := RaiseAndFail(raw, x, luck, from, own);
      }
    }

    method Execute(raw: Raw, x: Exec, luck: Luck, ghost from: State, ghost own: seq<Step>) returns (ok: bool)
      requires Does(from, own, cp.View(), w) && Pc() == Executing(raw, x, Claimed)
      modifies cp
      ensures Does(from, own + ExecutionScript(w, raw.provider, luck), cp.View(), w)
      ensures ok <==> Returned(ExecutionScript(w, raw.provider, luck), w)
      ensures Pc() == if ok then Acking(raw) else Idle
    {
      hide Does, PcOf, FailScript, ProviderScript;
      if luck.attempt.Lost? {
        ok := RaiseAndFail(raw, x, luck, from, own);
        return;
      }
      DoAttempt(raw, x, luck.pause, from, own);
      if luck.attempt.Unheard? {
        ok := RaiseAndFail(raw, x, luck, from, own + [Attempt(w)]);
        ReturnedTail([Attempt(w), Raise(w)], FailScript(w, luck), w);
        ReturnedTail([Raise(w)], FailScript(w, luck), w);
        assert own + [Attempt(w)] + ([Raise(w)] + FailScript(w, luck)) == own + ([Attempt(w), Raise(w)] + FailScript(w, luck));
      } else {
        ok := CallProvider(raw, x, luck, from, own + [Attempt(w)]);
        ReturnedTail([Attempt(w)], ProviderScript(w, raw.provider, luck), w);
        assert own + [Attempt(w)] + ProviderScript(w, raw.provider, luck) == own + ([Attempt(w)] + ProviderScript(w, raw.provider, luck));
      }
    }

    /** Everything handle_delivery does is a run of the protocol whose own steps are exactly the
        script and end as the outcome says; it returns True only with the delivery ready to be
        acknowledged. */
    method HandleDelivery(raw: Raw, luck: Luck, ghost from: State, ghost own: seq<Step>)
      returns (ok: bool, ghost pick: Option<Exec>, granted: bool, ghost did: seq<Step>)
      requires Does(from, own, cp.View(), w) && Pc() == Moved(raw)
      modifies cp
      ensures Does(from, own + did, cp.View(), w) && did == DeliveryScript(w, raw, luck, pick, granted)
      ensures TellsOutcome(did, w, raw, luck, granted)
      ensures ok <==> did[|did| - 1] != Stop(w)
      ensures Pc() == if ok then Acking(raw) else Idle
    {
      hide Does, PcOf, DeliveryScript, TellsOutcome;
      ok, pick, granted := Handle(raw, luck, from, own);
      did := DeliveryScript(w, raw, luck, pick, granted);
      OutcomeIsTold(w, raw, luck, pick, granted);
    }

    method Handle(raw: Raw, luck: Luck, ghost from: State, ghost own: seq<Step>)
      returns (ok: bool, ghost pick: Option<Exec>, granted: bool)
      requires Does(from, own, cp.View(), w) && Pc() == Moved(raw)
      modifies cp
      ensures Does(from, own + DeliveryScript(w, raw, luck, pick, granted), cp.View(), w)
      ensures ok <==> Returned(DeliveryScript(w, raw, luck, pick, granted), w)
      ensures Pc() == if ok then Acking(raw) else Idle
    {
      hide Does, PcOf, ExecutionScript;
      pick, granted := None, false;
      if !LaneAccepted(raw) {
        ok := DeadLetter(raw, luck, from, own);
        return;
      }
      if raw.body.BadTaskId? || luck.claim.Lost? {
        DoStop(luck.pause, from, own);
        ok := false;
        return;
      }
      var x;
      x, pick := DoClaim(raw, luck.pause, from, own);
      granted := x.Some?;
      if luck.claim.Unheard? {
        DoStop(luck.pause, from, own + [Claim(w, pick)]);
        assert own + [Claim(w, pick)] + [Stop(w)] == own + [Claim(w, pick), Stop(w)];
        ok := false;
      } else if x.Some? {
        ok := Execute(raw, x.value, luck, from, own + [Claim(w, pick)]);
        ReturnedTail([Claim(w, pick)], ExecutionScript(w, raw.provider, luck), w);
        assert own + [Claim(w, pick)] + ExecutionScript(w, raw.provider, luck) == own + ([Claim(w, pick)] + ExecutionScript(w, raw.provider, luck));
      } else {
        assert own + [Claim(w, pick)] == own + ([Claim(w, pick)] + []);
        ok := true;
      }
    }

    method DeadLetter(raw: Raw, luck: Luck, ghost from: State, ghost own: seq<Step>) returns (ok: bool)
      requires Does(from, own, cp.View(), w) && Pc() == Moved(raw) && !LaneAccepted(raw)
      modifies cp
      ensures Does(from, own + DeliveryScript(w, raw, luck, None, false), cp.View(), w)
      ensures ok <==> Returned(DeliveryScript(w, raw, luck, None, false), w)
      ensures Pc() == if ok then Acking(raw) else Idle
    {
      hide Does, PcOf;
      ok := luck.bury.Heard?;
      if luck.bury.Lost? {
        DoStop(luck.pause, from, own);
        return;
      }
      DoBury(raw, luck.pause, from, own);
      if luck.bury.Unheard? {
        DoStop(luck.pause, from, own + [Bury(w)]);
        assert own + [Bury(w)] + [Stop(w)] == own + [Bury(w), Stop(w)];
      }
    }

    // ---------------------------------------------------------------- dispatch_pending_outbox

    /** claim_pending_outbox under a freshly minted claim. */
    method ClaimBatchNow() returns (claim: ClaimId, claimed: seq<Entry>, ghost batch: seq<TaskId>)
      modifies cp
      ensures IsBatch(old(cp.Tables()), old(cp.now), cp.cfg, batch) && forall t :: t in batch ==> t in old(cp.outbox)
      ensures cp.View() == OutboxClaimStep(old(cp.View()), w, batch)
      ensures PcOf(cp.View(), w) == DispatchPc(claim, claimed)
    {
      hide OutboxClaimTx, IsBatch, Entries;
      claim := cp.Uuid4();
      claimed, batch := cp.ClaimPendingOutbox(claim);
      cp.h := cp.h.(claims := cp.h.claims + (set t | t in batch :: (t, claim)));
      cp.workers := cp.workers[w := DispatchPc(claim, claimed)];
    }

    method DoOutboxClaim(pause: nat, ghost from: State, ghost own: seq<Step>)
      returns (claim: ClaimId, claimed: seq<Entry>, ghost batch: seq<TaskId>)
      requires Does(from, own, cp.View(), w) && Pc() == Idle
      modifies cp
      ensures Does(from, own + [OutboxClaim(w, batch)], cp.View(), w) && Pc() == DispatchPc(claim, claimed)
    {
      hide Does, OutboxClaimTx, IsBatch, Entries, OutboxClaimStep;
      Meanwhile(pause, from, own);
      ghost var s := cp.View();
      claim, claimed, batch := ClaimBatchNow();
      Acts(from, own, s, OutboxClaim(w, batch), cp.View(), w);
    }

    method DoPublish(c: ClaimId, entry: Entry, ghost rest: seq<Entry>, pause: nat, ghost from: State, ghost own: seq<Step>)
      requires Does(from, own, cp.View(), w) && Pc() == Dispatching(c, [entry] + rest) && entry.payload.body == Named(entry.task)
      modifies cp
      ensures Does(from, own + [Publish(w)], cp.View(), w) && Pc() == Pushed(c, entry.task, rest)
    {
      hide Does;
      Meanwhile(pause, from, own);
      ghost var s := cp.View();
      assert ([entry] + rest)[1..] == rest;
      cp.queue := cp.queue + [entry.payload];
      cp.h := cp.h.(arrived := cp.h.arrived + multiset{entry.payload}, pushes := cp.h.pushes + [(entry.task, c)]);
      cp.workers := cp.workers[w := Pushed(c, entry.task, rest)];
      assert cp.View() == PublishStep(s, w, c, entry, rest);
      Acts(from, own, s, Publish(w), cp.View(), w);
    }

    method DoMark(c: ClaimId, t: TaskId, ghost rest: seq<Entry>, pause: nat, ghost from: State, ghost own: seq<Step>)
      requires Does(from, own, cp.View(), w) && Pc() == Pushed(c, t, rest)
      modifies cp
      ensures Does(from, own + [Mark(w)], cp.View(), w) && Pc() == DispatchPc(c, rest)
    {
      hide Does;
      Meanwhile(pause, from, own);
      ghost var s := cp.View();
      var delivered := cp.MarkOutboxDelivered(t, c);
      if delivered {
        cp.h := cp.h.(acks := cp.h.acks + [t]);
      }
      cp.workers := cp.workers[w := DispatchPc(c, rest)];
      assert cp.View() == MarkStep(s, w, c, t, rest);
      Acts(from, own, s, Mark(w), cp.View(), w);
    }

    /** An error ends this entry; the loop goes on with the next one. */
    method DoDrop(pause: nat, ghost from: State, ghost own: seq<Step>)
      requires Does(from, own, cp.View(), w) && Droppable(Pc())
      modifies cp
      ensures Does(from, own + [Drop(w)], cp.View(), w) && Pc() == Dropped(old(Pc()))
    {
      Meanwhile(pause, from, own);
      ghost var s, pc := cp.View(), Pc();
      cp.workers := cp.workers[w := Dropped(pc)];
      Acts(from, own, s, Drop(w), cp.View(), w);
    }

    /** publish_outbox_claim inside the loop's try block. */
    method PublishOutboxClaim(c: ClaimId, entry: Entry, ghost rest: seq<Entry>, luck: EntryLuck, ghost from: State, ghost own: seq<Step>)
      requires Does(from, own, cp.View(), w) && Pc() == Dispatching(c, [entry] + rest)
      modifies cp
      ensures Does(from, own + EntryScript(w, entry, luck), cp.View(), w) && Pc() == DispatchPc(c, rest)
    {
      hide Does, PcOf;
      assert ([entry] + rest)[1..] == rest;
      if entry.payload.body != Named(entry.task) || luck.push.Lost? {
        DoDrop(luck.pause, from, own);
      } else {
        DoPublish(c, entry, rest, luck.pause, from, own);
        if luck.push.Unheard? || luck.mark.Lost? {
          DoDrop(luck.pause, from, own + [Publish(w)]);
          assert own + [Publish(w)] + [Drop(w)] == own + [Publish(w), Drop(w)];
        } else {
          DoMark(c, entry.task, rest, luck.pause, from, own + [Publish(w)]);
          assert own + [Publish(w)] + [Mark(w)] == own + [Publish(w), Mark(w)];
        }
      }
    }

    /** Every claimed entry is tried exactly once, in order, whatever happened to the others. */
    method DispatchPendingOutbox(claiming: Reply, pause: nat, lucks: nat -> EntryLuck, ghost from: State, ghost own: seq<Step>)
      returns (ghost batch: seq<TaskId>, claimed: seq<Entry>)
      requires Does(from, own, cp.View(), w) && Pc() == Idle
      modifies cp
      ensures Pc() == Idle
      ensures Does(from, own + DispatchScript(w, claiming, batch, claimed, lucks), cp.View(), w)
    {
      hide Does, PcOf, BatchScript;
      if claiming.Lost? {
        batch, claimed := [], [];
        assert own + [] == own;
        return;
      }
      var c;
      c, claimed, batch := DoOutboxClaim(pause, from, own);
      ghost var start := own + [OutboxClaim(w, batch)];
      if claiming.Unheard? {
        if claimed != [] {
          DoStop(pause, from, start);
        }
        assert start + [] == own + ([OutboxClaim(w, batch)] + []);
        assert start + [Stop(w)] == own + ([OutboxClaim(w, batch)] + [Stop(w)]);
        assert start + [] == start;
        return;
      }
      PublishAll(c, claimed, lucks, from, start);
      assert start + BatchScript(w, claimed, lucks) == own + ([OutboxClaim(w, batch)] + BatchScript(w, claimed, lucks));
    }

    method PublishAll(c: ClaimId, claimed: seq<Entry>, lucks: nat -> EntryLuck, ghost from: State, ghost own: seq<Step>)
      requires Does(from, own, cp.View(), w) && Pc() == DispatchPc(c, claimed)
      modifies cp
      ensures Pc() == Idle && Does(from, own + BatchScript(w, claimed, lucks), cp.View(), w)
    {
      hide Does, PcOf, EntryScript;
      var i := 0;
      assert own + [] == own && claimed[0..] == claimed;
      while i < |claimed|
        invariant 0 <= i <= |claimed|
        invariant Pc() == DispatchPc(c, claimed[i..])
        invariant Does(from, own + BatchScript(w, claimed[..i], lucks), cp.View(), w)
      {
        assert claimed[i..] == [claimed[i]] + claimed[i + 1..];
        ghost var did := BatchScript(w, claimed[..i], lucks);
        PublishOutboxClaim(c, claimed[i], claimed[i + 1..], lucks(i), from, own + did);
        assert claimed[..i + 1][..i] == claimed[..i];
        assert own + did + EntryScript(w, claimed[i], lucks(i)) == own + (did + EntryScript(w, claimed[i], lucks(i)));
        i := i + 1;
      }
      assert claimed[..i] == claimed;
    }

    // ---------------------------------------------------------------- recover_stale_deliveries

    method DoScan(pause: nat, ghost from: State, ghost own: seq<Step>) returns (todo: seq<Raw>)
      requires Does(from, own, cp.View(), w) && Pc() == Idle
      modifies cp
      ensures Does(from, own + [Scan(w)], cp.View(), w) && Pc() == RecoverPc(todo)
    {
      Meanwhile(pause, from, own);
      ghost var s := cp.View();
      todo := cp.processing;
      cp.workers := cp.workers[w := RecoverPc(todo)];
      Acts(from, own, s, Scan(w), cp.View(), w);
    }

    /** Database half; for a malformed entry, the dead-letter script instead. */
    method DoJudge(raw: Raw, ghost rest: seq<Raw>, pause: nat, ghost from: State, ghost own: seq<Step>)
      returns (recovered: bool, terminal: bool)
      requires Does(from, own, cp.View(), w) && Pc() == Recovering([raw] + rest)
      modifies cp
      ensures Does(from, own + [Judge(w)], cp.View(), w)
      ensures Pc() == if raw.body.Named?
                      then Judged(raw, if recovered then Requeue else if terminal then Settled else Leave, rest)
                      else RecoverPc(rest)
    {
      hide Does;
      Meanwhile(pause, from, own);
      ghost var s := cp.View();
      assert ([raw] + rest)[1..] == rest;
      recovered, terminal := false, false;
      if raw.body.Named? {
        recovered, terminal := cp.RecoverRow(raw.body.task);
        cp.workers := cp.workers[w := Judged(raw, if recovered then Requeue else if terminal then Settled else Leave, rest)];
      } else {
        var moved := cp.DeadLetterProcessingDelivery(raw);
        LremCounts(s.processing, raw);
        cp.workers := cp.workers[w := RecoverPc(rest)];
      }
      assert cp.View() == JudgeStep(s, w, raw, rest);
      Acts(from, own, s, Judge(w), cp.View(), w);
    }

    /** Redis half. */
    method SettleNow(raw: Raw, recovered: bool, terminal: bool, ghost rest: seq<Raw>)
      modifies cp
      ensures var verdict := if recovered then Requeue else if terminal then Settled else Leave;
              cp.View() == At(SettleLists(old(cp.View()), raw, verdict), w, RecoverPc(rest))
    {
      LremCounts(cp.processing, raw);
      if recovered {
        var moved := cp.RequeueStaleDelivery(raw);
      } else if terminal {
        var count := cp.LremProcessing(raw);
        if count == 1 {
          cp.h := cp.h.(removed := cp.h.removed + multiset{raw});
        }
      }
      cp.workers := cp.workers[w := RecoverPc(rest)];
    }

    method DoSettle(raw: Raw, recovered: bool, terminal: bool, ghost rest: seq<Raw>, pause: nat, ghost from: State, ghost own: seq<Step>)
      requires Does(from, own, cp.View(), w)
      requires Pc() == Judged(raw, if recovered then Requeue else if terminal then Settled else Leave, rest)
      modifies cp
      ensures Does(from, own + [Settle(w)], cp.View(), w) && Pc() == RecoverPc(rest)
    {
      hide Does, SettleLists;
      Meanwhile(pause, from, own);
      ghost var s := cp.View();
      SettleNow(raw, recovered, terminal, rest);
      Acts(from, own, s, Settle(w), cp.View(), w);
    }

    method RecoverEntry(raw: Raw, ghost rest: seq<Raw>, luck: SweepLuck, ghost from: State, ghost own: seq<Step>)
      requires Does(from, own, cp.View(), w) && Pc() == Recovering([raw] + rest)
      modifies cp
      ensures Does(from, own + SweepScript(w, raw, luck), cp.View(), w) && Pc() == RecoverPc(rest)
    {
      hide Does, PcOf;
      assert ([raw] + rest)[1..] == rest;
      if raw.body.Named? && luck.database.Lost? {
        DoDrop(luck.pause, from, own);
        return;
      }
      var recovered, terminal := DoJudge(raw, rest, luck.pause, from, own);
      if raw.body.Named? {
        if luck.database.Unheard? || luck.redis.Lost? {
          DoDrop(luck.pause, from, own + [Judge(w)]);
          assert own + [Judge(w)] + [Drop(w)] == own + [Judge(w), Drop(w)];
        } else {
          DoSettle(raw, recovered, terminal, rest, luck.pause, from, own + [Judge(w)]);
          assert own + [Judge(w)] + [Settle(w)] == own + [Judge(w), Settle(w)];
        }
      }
    }

    /** The first `count` entries of the pass, in order; an error skips only its own entry. */
    method SweepFirst(todo: seq<Raw>, count: nat, lucks: nat -> SweepLuck, ghost from: State, ghost own: seq<Step>)
      requires Does(from, own, cp.View(), w) && Pc() == RecoverPc(todo) && count <= |todo|
      modifies cp
      ensures Pc() == RecoverPc(todo[count..]) && Does(from, own + SweepsScript(w, todo[..count], lucks), cp.View(), w)
    {
      hide Does, PcOf, SweepScript;
      var i := 0;
      assert own + [] == own && todo[0..] == todo;
      while i < count
        invariant 0 <= i <= count
        invariant Pc() == RecoverPc(todo[i..])
        invariant Does(from, own + SweepsScript(w, todo[..i], lucks), cp.View(), w)
      {
        assert todo[i..] == [todo[i]] + todo[i + 1..];
        ghost var did := SweepsScript(w, todo[..i], lucks);
        RecoverEntry(todo[i], todo[i + 1..], lucks(i), from, own + did);
        assert todo[..i + 1][..i] == todo[..i];
        assert own + did + SweepScript(w, todo[i], lucks(i)) == own + (did + SweepScript(w, todo[i], lucks(i)));
        i := i + 1;
      }
    }

    /** One pass over a snapshot of the processing list; past `reached` entries an exception of
        the dead-letter script escapes it. */
    method RecoverStaleDeliveries(reached: nat, pause: nat, lucks: nat -> SweepLuck, ghost from: State, ghost own: seq<Step>)
      returns (todo: seq<Raw>)
      requires Does(from, own, cp.View(), w) && Pc() == Idle
      modifies cp
      ensures Pc() == Idle && Does(from, own + RecoverScript(w, todo, reached, lucks), cp.View(), w)
    {
      hide Does, PcOf, SweepsScript;
      todo := DoScan(pause, from, own);
      var count := if reached < |todo| then reached else |todo|;
      SweepFirst(todo, count, lucks, from, own + [Scan(w)]);
      ghost var sweeps := SweepsScript(w, todo[..count], lucks);
      if reached < |todo| {
        DoStop(pause, from, own + [Scan(w)] + sweeps);
        assert own + [Scan(w)] + sweeps + [Stop(w)] == own + ([Scan(w)] + sweeps + [Stop(w)]);
      } else {
        assert todo[..count] == todo;
        assert own + [Scan(w)] + sweeps == own + ([Scan(w)] + sweeps);
      }
    }

    // ---------------------------------------------------------------- reaper, cleanup, main loop

    method ObserveQueue(pause: nat, ghost from: State, ghost own: seq<Step>) returns (observed: set<TaskId>)
      requires Does(from, own, cp.View(), w) && Pc() == Idle
      modifies cp
      ensures Does(from, own + [ReapScan(w)], cp.View(), w) && Pc() == Reaping(observed)
    {
      hide Does;
      Meanwhile(pause, from, own);
      ghost var s := cp.View();
      observed := DeliveryTaskIds(cp.queue, {});
      assert {} + NamedIn(cp.queue) == NamedIn(cp.queue);
      cp.workers := cp.workers[w := Reaping(observed)];
      Acts(from, own, s, ReapScan(w), cp.View(), w);
    }

    method ObserveProcessing(before: set<TaskId>, pause: nat, ghost from: State, ghost own: seq<Step>) returns (observed: set<TaskId>)
      requires Does(from, own, cp.View(), w) && Pc() == Reaping(before)
      modifies cp
      ensures Does(from, own + [ReapScanMore(w)], cp.View(), w) && Pc() == ReapReady(observed)
    {
      hide Does;
      Meanwhile(pause, from, own);
      ghost var s := cp.View();
      observed := DeliveryTaskIds(cp.processing, before);
      cp.workers := cp.workers[w := ReapReady(observed)];
      Acts(from, own, s, ReapScanMore(w), cp.View(), w);
    }

    method DoReap(observed: set<TaskId>, pause: nat, ghost from: State, ghost own: seq<Step>)
      requires Does(from, own, cp.View(), w) && Pc() == ReapReady(observed)
      modifies cp
      ensures Does(from, own + [Reap(w)], cp.View(), w) && Pc() == Idle
    {
      hide Does;
      Meanwhile(pause, from, own);
      ghost var s := cp.View();
      cp.ReapRows(observed);
      cp.workers := cp.workers[w := Idle];
      Acts(from, own, s, Reap(w), cp.View(), w);
    }

    /** Task list first, then processing list, then one transaction: exactly in this order. */
    method ReapOrphanedQueuedTasks(stopAt: nat, pause: nat, ghost from: State, ghost own: seq<Step>)
      requires Does(from, own, cp.View(), w) && Pc() == Idle
      modifies cp
      ensures Pc() == Idle
      ensures Does(from, own + ReapScript(w, stopAt), cp.View(), w)
    {
      hide Does, PcOf;
      if stopAt == 0 {
        assert own + [] == own;
        return;
      }
      var observed := ObserveQueue(pause, from, own);
      if stopAt == 1 {
        DoStop(pause, from, own + [ReapScan(w)]);
        assert own + [ReapScan(w)] + [Stop(w)] == own + [ReapScan(w), Stop(w)];
        return;
      }
      observed := ObserveProcessing(observed, pause, from, own + [ReapScan(w)]);
      ghost var did := own + [ReapScan(w)] + [ReapScanMore(w)];
      if stopAt == 2 {
        DoStop(pause, from, did);
        assert did + [Stop(w)] == own + [ReapScan(w), ReapScanMore(w), Stop(w)];
        return;
      }
      DoReap(observed, pause, from, did);
      assert did + [Reap(w)] == own + [ReapScan(w), ReapScanMore(w), Reap(w)];
    }

    method CleanupTerminalOutbox(pause: nat, ghost from: State, ghost own: seq<Step>)
      requires Does(from, own, cp.View(), w) && Pc() == Idle
      modifies cp
      ensures Does(from, own + [Cleanup(w)], cp.View(), w) && Pc() == Idle
    {
      Meanwhile(pause, from, own);
      ghost var s := cp.View();
      var removed := cp.CleanupTerminalOutbox();
      Acts(from, own, s, Cleanup(w), cp.View(), w);
    }

    method TakeDelivery(pause: nat, ghost from: State, ghost own: seq<Step>) returns (raw: Option<Raw>)
      requires Does(from, own, cp.View(), w) && Pc() == Idle
      modifies cp
      ensures raw.None? ==> Does(from, own, cp.View(), w) && Pc() == Idle && cp.queue == []
      ensures raw.Some? ==> Does(from, own + [Move(w)], cp.View(), w) && Pc() == Moved(raw.value)
    {
      Meanwhile(pause, from, own);
      ghost var s := cp.View();
      raw := cp.BlMove();
      if raw.Some? {
        cp.workers := cp.workers[w := Moved(raw.value)];
        assert cp.View() == MoveStep(s, w);
        Acts(from, own, s, Move(w), cp.View(), w);
      } else {
        assert cp.View() == s;
      }
    }

    /** LREM of the processing list by value. */
    method AcknowledgeNow(raw: Raw)
      modifies cp
      ensures cp.View() == At(RemoveProcessing(old(cp.View()), raw), w, Idle)
    {
      LremCounts(cp.processing, raw);
      var count := cp.LremProcessing(raw);
      if count == 1 {
        cp.h := cp.h.(removed := cp.h.removed + multiset{raw});
      }
      cp.workers := cp.workers[w := Idle];
    }

    method Acknowledge(raw: Raw, pause: nat, ghost from: State, ghost own: seq<Step>)
      requires Does(from, own, cp.View(), w) && Pc() == Acking(raw)
      modifies cp
      ensures Does(from, own + [Ack(w)], cp.View(), w) && Pc() == Idle
    {
      hide Does, RemoveProcessing;
      Meanwhile(pause, from, own);
      ghost var s := cp.View();
      AcknowledgeNow(raw);
      Acts(from, own, s, Ack(w), cp.View(), w);
    }

    /** BLMOVE, handle, and acknowledge only what handle_delivery returned True for. */
    method ServeOne(luck: Luck, ghost from: State, ghost own: seq<Step>)
      returns (taken: Option<Raw>, ghost pick: Option<Exec>, granted: bool)
      requires Does(from, own, cp.View(), w) && Pc() == Idle
      modifies cp
      ensures Pc() == Idle
      ensures taken.None? ==> Does(from, own, cp.View(), w) && cp.queue == []
      ensures taken.Some? ==> Does(from, own + ServeScript(w, taken.value, luck, pick, granted), cp.View(), w)
    {
      hide Does, PcOf, DeliveryScript, TellsOutcome;
      taken := TakeDelivery(luck.pause, from, own);
      pick, granted := None, false;
      if taken.Some? {
        var ok;
        ghost var handled;
        ok, pick, granted, handled := HandleDelivery(taken.value, luck, from, own + [Move(w)]);
        if ok {
          Acknowledge(taken.value, luck.pause, from, own + [Move(w)] + handled);
        }
        assert own + ServeScript(w, taken.value, luck, pick, granted)
            == if ok then own + [Move(w)] + handled + [Ack(w)] else own + [Move(w)] + handled;
      }
    }

    method RecoverAndReap(turn: TurnLuck, ghost from: State, ghost own: seq<Step>) returns (todo: seq<Raw>)
      requires Does(from, own, cp.View(), w) && Pc() == Idle
      modifies cp
      ensures Does(from, own + (RecoverScript(w, todo, turn.reached, turn.sweeps) + ReapScript(w, turn.reapSteps)), cp.View(), w)
      ensures Pc() == Idle
    {
      hide Does, PcOf, RecoverScript, ReapScript;
      todo := RecoverStaleDeliveries(turn.reached, turn.pause, turn.sweeps, from, own);
      ghost var recovered := RecoverScript(w, todo, turn.reached, turn.sweeps);
      ReapOrphanedQueuedTasks(turn.reapSteps, turn.pause, from, own + recovered);
      assert own + recovered + ReapScript(w, turn.reapSteps) == own + (recovered + ReapScript(w, turn.reapSteps));
    }

    method DoDuties(turn: TurnLuck, ghost from: State, ghost own: seq<Step>) returns (ghost duties: Duties)
      requires Does(from, own, cp.View(), w) && Pc() == Idle
      modifies cp
      ensures Does(from, own + DutyScript(w, turn, duties), cp.View(), w) && Pc() == Idle
    {
      hide Does, PcOf, DispatchScript, ReapScript, RecoverScript;
      ghost var did, batch, claimed, todo := [], [], [], [];
      assert own + [] == own;
      if turn.dispatchDue {
        batch, claimed := DispatchPendingOutbox(turn.claiming, turn.pause, turn.entries, from, own);
        did := DispatchScript(w, turn.claiming, batch, claimed, turn.entries);
      }
      if turn.cleanupDue {
        CleanupTerminalOutbox(turn.pause, from, own + did);
        assert own + did + [Cleanup(w)] == own + (did + [Cleanup(w)]);
        did := did + [Cleanup(w)];
      }
      if turn.recoveryDue {
        todo := RecoverAndReap(turn, from, own + did);
        ghost var repairs := RecoverScript(w, todo, turn.reached, turn.sweeps) + ReapScript(w, turn.reapSteps);
        assert own + did + repairs == own + (did + repairs);
        did := did + repairs;
      }
      duties := Duties(batch, claimed, todo);
      assert did == DutyScript(w, turn, duties);
    }

    /** One turn of run_worker: what the worker itself does is exactly the script of the turn, and
        it takes no delivery only when the task list is empty. */
    method Turn(turn: TurnLuck, ghost from: State, ghost own: seq<Step>) returns (ghost seen: Seen)
      requires Does(from, own, cp.View(), w) && Pc() == Idle
      modifies cp
      ensures Does(from, own + TurnScript(w, turn, seen), cp.View(), w) && Pc() == Idle
      ensures seen.taken.None? ==> cp.queue == []
    {
      hide Does, PcOf, DutyScript, ServeScript;
      ghost var duties := DoDuties(turn, from, own);
      ghost var did := DutyScript(w, turn, duties);
      var taken, pick, granted := ServeOne(turn.luck, from, own + did);
      seen := Seen(duties, taken, pick, granted);
      ghost var served := if taken.Some? then ServeScript(w, taken.value, turn.luck, pick, granted) else [];
      assert own + did + served == own + (did + served);
      assert own + did + [] == own + did;
    }

    /** However many turns a worker serves, whatever fails and whatever the others do, the whole
        is one run of the protocol in which the worker itself takes exactly the scripts of its
        turns, one after the other, and ends ready for its next turn. */
    method RunWorker(turns: nat, lucks: nat -> TurnLuck, ghost from: State) returns (ghost seens: seq<Seen>)
      requires from == cp.View() && Pc() == Idle
      modifies cp
      ensures |seens| == turns && Does(from, TurnsScript(w, lucks, seens), cp.View(), w) && Pc() == Idle
    {
      hide Does, PcOf, TurnScript;
      seens := [];
      DoesNothing(from, w);
      for i := 0 to turns
        invariant |seens| == i && Does(from, TurnsScript(w, lucks, seens), cp.View(), w) && Pc() == Idle
      {
        ghost var seen := Turn(lucks(i), from, TurnsScript(w, lucks, seens));
        assert (seens + [seen])[..i] == seens;
        seens := seens + [seen];
      }
    }
  }
}
