/** The dashboard's accept path: capacity checks, then one transaction. */
module Dashboard {
  import opened Wrappers
  import opened Protocol
  import opened Interleaving
  import opened ControlPlanes
  import opened WorkerProcess

  datatype Response = Accepted(task: TaskId) | UnsupportedModel | QueueFull | LaneBudgetSpent | Unavailable

  /** create_task: `laneToday` is what the 24-hour count of the credential lane answered, `depth`
      and `store` how the queue-length command and the transaction fared. */
  method CreateTask(cp: ControlPlane, text: nat, supported: bool, maxDepth: nat, laneToday: nat, maxPerLane: nat,
                    depth: Reply, store: Reply)
    returns (response: Response)
    modifies cp
    ensures response.Accepted? <==>
              supported && depth.Heard? && |old(cp.queue)| < maxDepth && laneToday < maxPerLane && store.Heard?
    ensures response.Accepted? ==> response.task == Minted(old(cp.nextId)) && cp.View() == SubmitStep(old(cp.View()), text)
    ensures response.UnsupportedModel? || response.QueueFull? || response.LaneBudgetSpent? ==> cp.View() == old(cp.View())
    ensures response.Unavailable? ==> cp.View() == old(cp.View()) || (store.Unheard? && cp.View() == SubmitStep(old(cp.View()), text))
  {
    if !supported {
      return UnsupportedModel;
    }
    if !depth.Heard? {
      return Unavailable;
    }
    if |cp.queue| >= maxDepth {
      return QueueFull;
    }
    if laneToday >= maxPerLane {
      return LaneBudgetSpent;
    }
    if store.Lost? {
      return Unavailable;
    }
    // An identifier that is never stored or returned needs no bookkeeping, so uuid4 is modelled here.
    var uuid := cp.Uuid4();
    var t := Minted(uuid);
    var payload := Raw(text, Named(t), GigaChat);
    cp.RecordQueuedTask(t, payload);
    cp.h := cp.h.(submitted := cp.h.submitted[t := payload]);
    return if store.Unheard? then Unavailable else Accepted(t);
  }

  /** An accepted request is one Submit step of the protocol, from any process's point of view: the
      task row and the payload appear together, so from then on every theorem about submitted
      tasks is about this one. */
  lemma AcceptedIsSubmitted(s: State, text: nat, w: WorkerId)
    ensures Does(s, [], SubmitStep(s, text), w)
    ensures var t := Minted(s.nextId); var s' := SubmitStep(s, text);
            && t in s'.h.submitted && s'.h.submitted[t] == Raw(text, Named(t), GigaChat)
            && t in s'.db.tasks && t in s'.db.outbox
  {
    DoesOne(s, Submit(text), w);
  }
}
