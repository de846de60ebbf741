/** The handlers that change the queue, each against the step of the protocol it performs. */
module QueueHandlers {
  import opened LineChain
  import opened CommandQueue
  import opened Prelude
  import opened Pipes
  import QueueProtocol
  import Session

  /** A started message leaves the queue, joins the chain and is broadcast. A discarded one only leaves
      the queue. Frames for uuids that are not queued change nothing. */
  method HandleCommandLifecycle(q: CommandQueue, s: Session.Session, frame: Frame,
                                ghost m: QueueProtocol.Mirror)
    returns (bubble: Option<Entry>)
    requires m.queue == q.Queue
    modifies q, s
    ensures match frame
            case Started(u) =>
              && q.Queue == QueueProtocol.Render(m, u).queue
              && QueueProtocol.Render(m, u).rendered == m.rendered + (if bubble.Some? then [bubble.value.uuid] else [])
              && (bubble.Some? ==> bubble.value.uuid == u && bubble.value in m.queue)
              && s.Chain() == if bubble.Some? then Advance(old(s.Chain()), u) else old(s.Chain())
            case Discarded(u) =>
              q.Queue == QueueProtocol.Remove(m, u).queue && bubble == None && s.Chain() == old(s.Chain())
            case _ => q.Queue == m.queue && bubble == None && s.Chain() == old(s.Chain())
  {
    bubble := None;
    match frame {
      case Started(u) =>
        bubble := q.TakeQueued(u);
        if bubble.Some? {
          s.AdvanceTip(bubble.value.uuid);
        }
      case Discarded(u) =>
        q.RemoveQueued(u);
      case _ =>
    }
  }

  /** A cancel handler up to its request: it looks the entry up, and goes on only for a pending one. What
      it does next, asking claude or finding the process dead, is then a step of the protocol. */
  method BeginCancel(q: CommandQueue, uuid: Uuid, ghost n: QueueProtocol.Net) returns (entry: Option<Entry>)
    requires n.m.queue == q.Queue && QueueProtocol.Good(n)
    ensures entry.Some? <==> uuid != "" && uuid in QueueProtocol.Pending(n.m)
    ensures entry.Some? ==> entry.value in n.m.queue && entry.value.uuid == uuid
    ensures entry.Some? ==>
              QueueProtocol.Enabled(n, if n.p.alive then QueueProtocol.AskCancel(uuid) else QueueProtocol.FindDead(uuid))
  {
    entry := None;
    if uuid != "" {
      entry := q.PeekQueued(uuid);
    }
  }

  /** What a cancel handler learned from its request, if it made one. */
  datatype CancelOutcome = NoProcess | RequestFailed | Answered(cancelled: bool)

  /** The outcome matches what the protocol recorded when the handler found the process dead or its
      reply was scanned. */
  predicate Learned(n: QueueProtocol.Net, uuid: Uuid, outcome: CancelOutcome) {
    match outcome
    case NoProcess => QueueProtocol.Enabled(n, QueueProtocol.RemoveOrphan(uuid))
    case RequestFailed => true
    case Answered(cancelled) => cancelled ==> QueueProtocol.Enabled(n, QueueProtocol.RemoveConfirmed(uuid))
  }

  /** A cancel handler after its request, when the queue may have changed. The entry leaves only when claude
      confirmed the cancellation or no process is left to run it, and then no claude can still start it. */
  method FinishCancel(q: CommandQueue, uuid: Uuid, outcome: CancelOutcome, ghost n: QueueProtocol.Net)
    requires n.m.queue == q.Queue && QueueProtocol.Good(n) && Learned(n, uuid, outcome)
    modifies q
    ensures q.Queue == match outcome
                       case NoProcess => QueueProtocol.Next(n, QueueProtocol.RemoveOrphan(uuid)).m.queue
                       case RequestFailed => n.m.queue
                       case Answered(cancelled) =>
                         if cancelled then QueueProtocol.Next(n, QueueProtocol.RemoveConfirmed(uuid)).m.queue else n.m.queue
    ensures q.Queue != n.m.queue ==> uuid !in Live(n.p)
  {
    assert QueueProtocol.DoomedAt(n, uuid);
    match outcome {
      case NoProcess => q.RemoveQueued(uuid);
      case RequestFailed =>
      case Answered(cancelled) =>
        if cancelled {
          q.RemoveQueued(uuid);
        }
    }
  }

  /** An interrupt without a process or without an answer changes nothing. */
  method HandleStop(q: CommandQueue, dead: bool, inventory: Option<set<Uuid>>, ghost m: QueueProtocol.Mirror)
    requires m.queue == q.Queue
    modifies q
    ensures q.Queue == if !dead && inventory.Some? then QueueProtocol.Keep(m, inventory.value).queue else m.queue
  {
    if dead || inventory == None {
      return;
    }
    q.ReconcileQueued(inventory.value);
  }

  /** The death watcher empties the queue unless the process has been replaced. */
  method WatchProcessDeath(q: CommandQueue, replaced: bool, ghost m: QueueProtocol.Mirror)
    requires m.queue == q.Queue
    modifies q
    ensures q.Queue == if replaced then m.queue else []
    ensures QueueProtocol.Keep(m, {}).queue == []
  {
    NothingStillQueued(q.Queue);
    if replaced {
      return;
    }
    q.ReconcileQueued({});
  }

  lemma {:induction false} NothingStillQueued(queue: seq<Entry>)
    ensures StillQueued(queue, {}) == []
  {
    if queue != [] {
      NothingStillQueued(queue[..|queue| - 1]);
    }
  }
}
