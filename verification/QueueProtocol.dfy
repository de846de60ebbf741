/** The protocol between the session's queue and claude's. Every lock section of a handler is one
    step, and the steps of all handlers, the scanner and claude interleave freely. */
module QueueProtocol {
  import opened LineChain
  import opened CommandQueue
  import opened Prelude
  import opened Pipes

  /** The session's side: pending entries, broadcast user messages in order, entries that left the
      queue unrendered, and every uuid ever queued. */
  datatype Mirror = Mirror(queue: seq<Entry>, rendered: seq<Uuid>, removed: set<Uuid>, minted: set<Uuid>)

  /** Handlers between two lock sections: cancels that claude confirmed or that found the process dead,
      with RemoveQueued still to run, and interrupt inventories and death watchers past their check,
      with ReconcileQueued still to run. */
  datatype Todo = Todo(confirmed: set<Uuid>, orphans: set<Uuid>, answers: seq<set<Uuid>>, watchers: nat)

  /** History: uuids of claude's internal commands, confirmed cancels, handled started frames, entries a
      reconcile dropped while claude could still start them, and sends that overlapped an interrupt or
      a death watcher. */
  datatype Past = Past(foreign: set<Uuid>, cancelled: set<Uuid>, delivered: set<Uuid>, lost: set<Uuid>,
                       overlapped: set<Uuid>)

  datatype Net = Net(m: Mirror, p: Pipes, t: Todo, h: Past)

  datatype Step =
    | Add(e: Entry, process: nat)      // AddQueued, with the process captured earlier
    | Send(uuid: Uuid)                 // the stdin write
    | SendFails(uuid: Uuid)
    | AskCancel(uuid: Uuid)
    | FindDead(uuid: Uuid)
    | RemoveOrphan(uuid: Uuid)
    | RemoveConfirmed(uuid: Uuid)
    | AskInterrupt
    | Reconcile(i: nat)
    | ClaudeReads
    | ClaudeStarts(uuid: Uuid)
    | ClaudeDiscards(uuid: Uuid)
    | ClaudeInternal(frame: Frame)
    | Handle(heard: bool)              // the scanner handles a frame, heard if its requester still waits
    | ProcessDies
    | WatcherChecks
    | WatcherReconciles
    | Respawns

  predicate Enabled(n: Net, step: Step) {
    match step
    case Add(e, process) => e.uuid != "" && e.uuid !in n.m.minted + n.h.foreign && process <= n.p.generation
    case Send(u) => Current(n.p, u)
    case SendFails(u) => u in n.p.unsent
    case AskCancel(u) => n.p.alive && u in n.m.minted
    case FindDead(u) => !n.p.alive && u in n.m.minted
    case RemoveOrphan(u) => u in n.t.orphans
    case RemoveConfirmed(u) => u in n.t.confirmed
    case AskInterrupt => n.p.alive
    case Reconcile(i) => i < |n.t.answers|
    case ClaudeReads => n.p.alive && n.p.stdin != []
    case ClaudeStarts(u) => n.p.alive && u in n.p.held
    case ClaudeDiscards(u) => n.p.alive && (u in n.p.held || u in n.h.cancelled)
    case ClaudeInternal(f) => n.p.alive && (f.Started? || f.Discarded?) && f.uuid !in n.m.minted
    case Handle(_) => n.p.stdout != []
    case ProcessDies => n.p.alive && n.p.stdout == []
    case WatcherChecks => !n.p.alive
    case WatcherReconciles => n.t.watchers > 0
    case Respawns => !n.p.alive
  }

  function Pending(m: Mirror): set<Uuid> {
    Uuids(m.queue)
  }

  function Rendered(m: Mirror): set<Uuid> {
    set u | u in m.rendered
  }

  /** RemoveQueued. */
  function Remove(m: Mirror, u: Uuid): Mirror {
    if u in Pending(m) then m.(queue := Without(m.queue, u), removed := m.removed + {u}) else m
  }

  /** ReconcileQueued. */
  function Keep(m: Mirror, still: set<Uuid>): Mirror {
    m.(queue := StillQueued(m.queue, still), removed := m.removed + (Pending(m) - still))
  }

  /** The started case of handleCommandLifecycle. */
  function Render(m: Mirror, u: Uuid): Mirror {
    if u in Pending(m) then m.(queue := Without(m.queue, u), rendered := m.rendered + [u]) else m
  }

  /** What a reconcile drops although claude can still start it. */
  function Losses(n: Net, still: set<Uuid>): set<Uuid> {
    (Pending(n.m) - still) * Live(n.p)
  }

  /** A send now would overlap an interrupt or a death watcher. */
  predicate Overlapping(n: Net) {
    Outstanding(n.p) || n.t.answers != [] || n.t.watchers > 0
  }

  function Next(n: Net, step: Step): Net
    requires Enabled(n, step)
  {
    match step
    case Add(e, process) =>
      Net(n.m.(queue := n.m.queue + [e], minted := n.m.minted + {e.uuid}), Queue(n.p, e.uuid, process), n.t,
          if Overlapping(n) then n.h.(overlapped := n.h.overlapped + {e.uuid}) else n.h)
    case Send(u) => n.(p := Write(n.p, u))
    case SendFails(u) => n.(m := Remove(n.m, u), p := Unqueue(n.p, u))
    case AskCancel(u) => n.(p := Ask(n.p, Cancel(u)))
    case FindDead(u) => n.(t := n.t.(orphans := n.t.orphans + {u}))
    case RemoveOrphan(u) => n.(m := Remove(n.m, u), t := n.t.(orphans := n.t.orphans - {u}))
    case RemoveConfirmed(u) => n.(m := Remove(n.m, u), t := n.t.(confirmed := n.t.confirmed - {u}))
    case AskInterrupt => n.(p := Ask(n.p, Interrupt), h := n.h.(overlapped := n.h.overlapped + Unwritten(n.p)))
    case Reconcile(i) =>
      var still := n.t.answers[i];
      n.(m := Keep(n.m, still), t := n.t.(answers := n.t.answers[..i] + n.t.answers[i + 1..]),
         h := n.h.(lost := n.h.lost + Losses(n, still)))
    case ClaudeReads =>
      var cancels := n.p.stdin[0].Cancel? && n.p.stdin[0].uuid in n.p.held;
      n.(p := Read(n.p), h := if cancels then n.h.(cancelled := n.h.cancelled + {n.p.stdin[0].uuid}) else n.h)
    case ClaudeStarts(u) => n.(p := Leave(n.p, u, Started(u)))
    case ClaudeDiscards(u) => n.(p := Leave(n.p, u, Discarded(u)))
    case ClaudeInternal(f) => n.(p := Emit(n.p, f), h := n.h.(foreign := n.h.foreign + {f.uuid}))
    case Handle(heard) =>
      var rest := n.(p := Scan(n.p));
      (match n.p.stdout[0]
       case Started(u) => rest.(m := Render(n.m, u), h := n.h.(delivered := n.h.delivered + {u}))
       case Discarded(u) => rest.(m := Remove(n.m, u))
       case CancelReply(u, ok) => if ok && heard then rest.(t := n.t.(confirmed := n.t.confirmed + {u})) else rest
       case Inventory(still) => if heard then rest.(t := n.t.(answers := n.t.answers + [still])) else rest)
    case ProcessDies => n.(p := Die(n.p))
    case WatcherChecks => n.(t := n.t.(watchers := n.t.watchers + 1))
    case WatcherReconciles =>
      n.(m := Keep(n.m, {}), t := n.t.(watchers := n.t.watchers - 1), h := n.h.(lost := n.h.lost + Losses(n, {})))
    case Respawns => n.(p := Respawn(n.p))
  }

  const START := Net(Mirror([], [], {}, {}), Pipes(map[], [], {}, [], true, 0), Todo({}, {}, [], 0),
                     Past({}, {}, {}, {}, {}))

  ghost predicate ValidRun(n: Net, steps: seq<Step>)
    decreases |steps|
  {
    steps == [] || (Enabled(n, steps[0]) && ValidRun(Next(n, steps[0]), steps[1..]))
  }

  ghost function Run(n: Net, steps: seq<Step>): Net
    requires ValidRun(n, steps)
    decreases |steps|
  {
    if steps == [] then n else Run(Next(n, steps[0]), steps[1..])
  }

  // ---- invariants ----

  ghost predicate NoRepeat(uuids: seq<Uuid>) {
    forall i, j :: 0 <= i < j < |uuids| ==> uuids[i] != uuids[j]
  }

  /** Conservation: every uuid ever queued is in exactly one of pending, rendered and removed, and is
      rendered at most once. */
  ghost predicate Conserved(m: Mirror) {
    && Distinct(m.queue) && NoRepeat(m.rendered)
    && m.minted == Pending(m) + Rendered(m) + m.removed
    && Pending(m) !! Rendered(m) && Pending(m) !! m.removed && Rendered(m) !! m.removed
  }

  /** A message is in one place between the queue and its announcement. */
  ghost predicate SentOnce(n: Net) {
    && n.m.minted !! n.h.foreign
    && forall u :: u !in n.h.foreign ==>
         Copies(n.p, u) + (if u in n.h.delivered then 1 else 0) <= if u in n.m.minted then 1 else 0
  }

  ghost predicate Shaped(n: Net) {
    && (forall u :: u in n.p.unsent ==> n.p.unsent[u] <= n.p.generation)
    && (!n.p.alive ==> n.p.stdin == [] && n.p.held == {} && n.p.stdout == [])
  }

  ghost predicate Named(n: Net) {
    forall u :: u in Ahead(n.p) ==> u in n.m.minted
  }

  ghost predicate NamedInventories(n: Net) {
    && (forall f :: f in n.p.stdout && f.Inventory? ==> f.still <= n.m.minted)
    && (forall still :: still in n.t.answers ==> still <= n.m.minted)
  }

  /** What is about to be removed unrendered can no longer be started. */
  ghost predicate DoomedAt(n: Net, u: Uuid) {
    && (u in n.h.cancelled ==> u in n.m.minted && u !in Live(n.p) && u !in n.h.delivered)
    && (u in n.t.orphans ==> u in n.m.minted && u !in Live(n.p))
    && (u in n.t.confirmed ==> u in n.h.cancelled)
  }

  ghost predicate Doomed(n: Net) {
    forall u :: DoomedAt(n, u)
  }

  /** Nor can what a frame in stdout is about to remove. */
  ghost predicate FrameDoomed(n: Net, f: Frame) {
    && (f.CancelReply? && f.ok ==> f.uuid in n.h.cancelled)
    && (f.Discarded? && f.uuid in n.m.minted ==> f.uuid !in Live(n.p))
    && (f.Discarded? ==> f.uuid in n.m.minted || f.uuid in n.h.foreign)
  }

  ghost predicate DoomedFrames(n: Net) {
    forall f :: f in n.p.stdout ==> FrameDoomed(n, f)
  }

  /** Exactly once: what claude can still start is pending unless a reconcile lost it, and what it has
      started is rendered unless a reconcile lost it. */
  ghost predicate CoveredAt(n: Net, u: Uuid) {
    && (u in n.m.minted && u in Live(n.p) ==> u in Pending(n.m) || u in n.h.lost)
    && (u in n.m.minted && u in n.h.delivered ==> u in Rendered(n.m) || u in n.h.lost)
    && (u in Rendered(n.m) ==> u in n.h.delivered)
    && (u in n.h.lost ==> u in n.m.removed)
  }

  ghost predicate Covered(n: Net) {
    forall u :: CoveredAt(n, u)
  }

  /** Only sends that overlap an interrupt or a death watcher are lost. */
  ghost predicate Fair(n: Net) {
    var late := n.h.overlapped + n.h.foreign;
    && n.h.lost <= n.h.overlapped
    && Complete(n.p, late)
    && (forall still :: still in n.t.answers ==> Live(n.p) <= still + late)
    && (n.t.watchers > 0 ==> Live(n.p) <= late)
  }

  ghost predicate Good(n: Net) {
    && Conserved(n.m) && SentOnce(n) && Shaped(n) && Named(n) && NamedInventories(n)
    && Doomed(n) && DoomedFrames(n) && Covered(n) && Fair(n)
  }

  // ---- conservation ----

  lemma RemoveConserves(m: Mirror, u: Uuid)
    requires Conserved(m)
    ensures Conserved(Remove(m, u)) && Pending(Remove(m, u)) == Pending(m) - {u} && Rendered(Remove(m, u)) == Rendered(m)
  {
    WithoutDropsOne(m.queue, u);
  }

  lemma KeepConserves(m: Mirror, still: set<Uuid>)
    requires Conserved(m)
    ensures Conserved(Keep(m, still)) && Pending(Keep(m, still)) == Pending(m) * still
    ensures Rendered(Keep(m, still)) == Rendered(m)
  {
    StillQueuedKeepsExactly(m.queue, still);
  }

  lemma RenderConserves(m: Mirror, u: Uuid)
    requires Conserved(m)
    ensures Conserved(Render(m, u)) && Pending(Render(m, u)) == Pending(m) - {u}
    ensures Rendered(Render(m, u)) == Rendered(m) + if u in Pending(m) then {u} else {}
  {
    WithoutDropsOne(m.queue, u);
    assert u in Rendered(m) ==> u !in Pending(m);
  }

  lemma StepConserves(n: Net, step: Step)
    requires Conserved(n.m) && Enabled(n, step)
    ensures Conserved(Next(n, step).m)
  {
    match step {
      case Add(e, _) => PushDistinct(n.m.queue, e);
      case SendFails(u) => RemoveConserves(n.m, u);
      case RemoveOrphan(u) => RemoveConserves(n.m, u);
      case RemoveConfirmed(u) => RemoveConserves(n.m, u);
      case Reconcile(i) => KeepConserves(n.m, n.t.answers[i]);
      case WatcherReconciles => KeepConserves(n.m, {});
      case Handle(_) =>
        match n.p.stdout[0] {
          case Started(u) => RenderConserves(n.m, u);
          case Discarded(u) => RemoveConserves(n.m, u);
          case _ =>
        }
      case _ =>
    }
  }

  // ---- one copy ----

  /** No step but queueing brings one of the session's uuids in. */
  lemma NoStepCopies(n: Net, step: Step, u: Uuid)
    requires Shaped(n) && Enabled(n, step)
    requires step.Add? ==> step.e.uuid != u
    ensures u !in Next(n, step).h.foreign ==> NoNewCopy(n.p, Next(n, step).p, u)
    ensures u in Ahead(Next(n, step).p) ==> u in Ahead(n.p)
  {
    match step {
      case Send(v) => WriteMoves(n.p, u, v);
      case AskCancel(v) => AskMoves(n.p, u, Cancel(v));
      case AskInterrupt => AskMoves(n.p, u, Interrupt);
      case ClaudeReads => ReadMoves(n.p, u);
      case ClaudeStarts(v) => LeaveMoves(n.p, u, v, Started(v));
      case ClaudeDiscards(v) => LeaveMoves(n.p, u, v, Discarded(v));
      case ClaudeInternal(f) => EmitMoves(n.p, u, f);
      case Handle(_) => ScanMoves(n.p, u);
      case ProcessDies => DieMoves(n.p, u);
      case Respawns => RespawnMoves(n.p, u);
      case _ =>
    }
  }

  lemma NamesGrow(n: Net, step: Step)
    requires Enabled(n, step)
    ensures var x := Next(n, step);
            && x.m.minted == n.m.minted + (if step.Add? then {step.e.uuid} else {})
            && x.h.foreign == n.h.foreign + (if step.ClaudeInternal? then {step.frame.uuid} else {})
            && x.h.delivered == n.h.delivered
               + (if step.Handle? && n.p.stdout[0].Started? then {n.p.stdout[0].uuid} else {})
  {
  }

  lemma StepKeepsSentOnce(n: Net, step: Step)
    requires Shaped(n) && SentOnce(n) && Enabled(n, step)
    ensures SentOnce(Next(n, step))
  {
    var x := Next(n, step);
    NamesGrow(n, step);
    forall u | u !in x.h.foreign
      ensures Copies(x.p, u) + (if u in x.h.delivered then 1 else 0) <= if u in x.m.minted then 1 else 0
    {
      if step.Add? && step.e.uuid == u {
      } else {
        NoStepCopies(n, step, u);
        if step.Handle? {
          ScanMoves(n.p, u);
        }
      }
    }
  }

  /** Once claude can no longer start a message, it never can again. */
  lemma NothingComesAlive(n: Net, step: Step)
    requires Shaped(n) && Enabled(n, step)
    ensures var x := Next(n, step);
            Live(x.p) <= Live(n.p) + x.h.foreign + if step.Add? then {step.e.uuid} else {}
  {
    var x := Next(n, step);
    forall u | u in Live(x.p) && u !in x.h.foreign && !(step.Add? && step.e.uuid == u)
      ensures u in Live(n.p)
    {
      NoStepCopies(n, step, u);
    }
  }

  lemma StepKeepsShape(n: Net, step: Step)
    requires Shaped(n) && Enabled(n, step)
    ensures Shaped(Next(n, step))
  {
  }

  lemma StepKeepsNames(n: Net, step: Step)
    requires Shaped(n) && Named(n) && Enabled(n, step)
    ensures Named(Next(n, step))
  {
    NamesGrow(n, step);
    forall u | u in Ahead(Next(n, step).p)
      ensures u in Next(n, step).m.minted
    {
      if !(step.Add? && step.e.uuid == u) {
        NoStepCopies(n, step, u);
      }
    }
  }

  /** The frames a step puts into stdout. */
  ghost predicate Puts(n: Net, step: Step, f: Frame)
    requires Enabled(n, step)
  {
    match step
    case ClaudeReads =>
      (match n.p.stdin[0]
       case User(_) => false
       case Cancel(u) => f == CancelReply(u, u in n.p.held)
       case Interrupt => f == Inventory(n.p.held))
    case ClaudeStarts(u) => f == Started(u)
    case ClaudeDiscards(u) => f == Discarded(u)
    case ClaudeInternal(g) => f == g
    case _ => false
  }

  lemma StepKeepsInventories(n: Net, step: Step)
    requires Named(n) && NamedInventories(n) && Enabled(n, step)
    ensures NamedInventories(Next(n, step))
  {
    NamesGrow(n, step);
    var x := Next(n, step);
    forall f | f in x.p.stdout && f.Inventory?
      ensures f.still <= x.m.minted
    {
      assert f in n.p.stdout || Puts(n, step, f);
    }
    forall still | still in x.t.answers
      ensures still <= x.m.minted
    {
      assert still in n.t.answers || (step.Handle? && n.p.stdout[0] == Inventory(still));
    }
  }

  // ---- removals are of messages that cannot start ----

  /** Leaving claude's queue, or stdin for it, a message has no copy behind it. */
  lemma LeftForGood(n: Net, q: Pipes, u: Uuid)
    requires SentOnce(n) && u in n.m.minted && Copies(n.p, u) > Copies(q, u)
    ensures u !in Live(q) && u !in n.h.delivered
  {
  }

  lemma ReadCancelsForGood(n: Net)
    requires SentOnce(n) && Named(n) && Enabled(n, ClaudeReads) && n.p.stdin[0].Cancel? && n.p.stdin[0].uuid in n.p.held
    ensures var u := n.p.stdin[0].uuid; u in n.m.minted && u !in Live(Read(n.p)) && u !in n.h.delivered
  {
    var u := n.p.stdin[0].uuid;
    StartedAppend(n.p.stdout, CancelReply(u, true));
    LeftForGood(n, Read(n.p), u);
  }

  /** What a step adds to the history of u. */
  lemma HistoryGrows(n: Net, step: Step, u: Uuid)
    requires Enabled(n, step)
    ensures var x := Next(n, step);
            && (u in x.h.cancelled ==>
                  u in n.h.cancelled || (step.ClaudeReads? && n.p.stdin[0] == Cancel(u) && u in n.p.held))
            && (u in n.h.cancelled ==> u in x.h.cancelled)
            && (u in x.t.orphans ==> u in n.t.orphans || step == FindDead(u))
            && (u in x.t.confirmed ==> u in n.t.confirmed || (step.Handle? && n.p.stdout[0] == CancelReply(u, true)))
            && (u in x.h.delivered ==> u in n.h.delivered || (step.Handle? && n.p.stdout[0] == Started(u)))
            && (u in n.m.minted ==> u in x.m.minted && u !in x.h.foreign - n.h.foreign)
  {
  }

  lemma StepKeepsDoomedAt(n: Net, step: Step, u: Uuid)
    requires SentOnce(n) && Shaped(n) && Named(n) && DoomedAt(n, u) && DoomedFrames(n) && Enabled(n, step)
    ensures DoomedAt(Next(n, step), u)
  {
    var x := Next(n, step);
    HistoryGrows(n, step, u);
    if !(step.Add? && step.e.uuid == u) {
      NoStepCopies(n, step, u);
    }
    if step.ClaudeReads? && n.p.stdin[0] == Cancel(u) && u in n.p.held {
      ReadCancelsForGood(n);
    }
    if step.Handle? {
      assert FrameDoomed(n, n.p.stdout[0]);
      ScanMoves(n.p, u);
    }
  }

  lemma StepKeepsDoomed(n: Net, step: Step)
    requires SentOnce(n) && Shaped(n) && Named(n) && Doomed(n) && DoomedFrames(n) && Enabled(n, step)
    ensures Doomed(Next(n, step))
  {
    forall u
      ensures DoomedAt(Next(n, step), u)
    {
      assert DoomedAt(n, u);
      StepKeepsDoomedAt(n, step, u);
    }
  }

  lemma DiscardsForGood(n: Net, u: Uuid)
    requires SentOnce(n) && Named(n) && DoomedAt(n, u) && Enabled(n, ClaudeDiscards(u))
    ensures u in n.m.minted && u !in Live(Leave(n.p, u, Discarded(u)))
  {
    StartedAppend(n.p.stdout, Discarded(u));
    if u in n.p.held {
      LeftForGood(n, Leave(n.p, u, Discarded(u)), u);
    } else {
      LeaveMoves(n.p, u, u, Discarded(u));
    }
  }

  lemma StepKeepsFrameDoomed(n: Net, step: Step, f: Frame)
    requires SentOnce(n) && Shaped(n) && Named(n) && Doomed(n) && Enabled(n, step)
    requires (f in n.p.stdout && FrameDoomed(n, f)) || Puts(n, step, f)
    ensures FrameDoomed(Next(n, step), f)
  {
    NamesGrow(n, step);
    if f.CancelReply? && f.ok {
      HistoryGrows(n, step, f.uuid);
    }
    if f.Discarded? {
      if f in n.p.stdout && FrameDoomed(n, f) {
        if !(step.Add? && step.e.uuid == f.uuid) {
          NoStepCopies(n, step, f.uuid);
        }
      } else if step.ClaudeDiscards? {
        assert DoomedAt(n, f.uuid);
        DiscardsForGood(n, f.uuid);
      }
    }
  }

  lemma StepKeepsDoomedFrames(n: Net, step: Step)
    requires SentOnce(n) && Shaped(n) && Named(n) && Doomed(n) && DoomedFrames(n) && Enabled(n, step)
    ensures DoomedFrames(Next(n, step))
  {
    forall f | f in Next(n, step).p.stdout
      ensures FrameDoomed(Next(n, step), f)
    {
      assert f in n.p.stdout ==> FrameDoomed(n, f);
      StepKeepsFrameDoomed(n, step, f);
    }
  }

  // ---- exactly once ----

  /** How u can leave the queue: by a reconcile that lacks it, by one of the removals, or by its
      started frame. */
  lemma PendingShrinks(n: Net, step: Step, u: Uuid)
    requires Conserved(n.m) && Enabled(n, step) && u in Pending(n.m) && u !in Pending(Next(n, step).m)
    ensures || step == SendFails(u) || step == RemoveOrphan(u) || step == RemoveConfirmed(u)
            || (step.Handle? && (n.p.stdout[0] == Started(u) || n.p.stdout[0] == Discarded(u)))
            || (u in Live(n.p) ==> u in Next(n, step).h.lost)
  {
    match step {
      case Add(e, _) => PushDistinct(n.m.queue, e);
      case SendFails(v) => RemoveConserves(n.m, v);
      case RemoveOrphan(v) => RemoveConserves(n.m, v);
      case RemoveConfirmed(v) => RemoveConserves(n.m, v);
      case Reconcile(i) => KeepConserves(n.m, n.t.answers[i]);
      case WatcherReconciles => KeepConserves(n.m, {});
      case Handle(_) =>
        match n.p.stdout[0] {
          case Started(v) => RenderConserves(n.m, v);
          case Discarded(v) => RemoveConserves(n.m, v);
          case _ =>
        }
      case _ =>
    }
  }

  lemma MirrorGrows(n: Net, step: Step, u: Uuid)
    requires Conserved(n.m) && Enabled(n, step)
    ensures var x := Next(n, step);
            && (u in Rendered(x.m) <==>
                  u in Rendered(n.m) || (step.Handle? && n.p.stdout[0] == Started(u) && u in Pending(n.m)))
            && (u in n.m.removed ==> u in x.m.removed)
            && (u in n.h.lost ==> u in x.h.lost)
            && (u in x.h.lost ==> u in n.h.lost || (u in Pending(n.m) && u in Live(n.p) && u in x.m.removed))
            && (u in n.h.delivered ==> u in x.h.delivered)
            && (step.Handle? && n.p.stdout[0] == Started(u) ==> u in x.h.delivered)
  {
    match step {
      case SendFails(v) => RemoveConserves(n.m, v);
      case RemoveOrphan(v) => RemoveConserves(n.m, v);
      case RemoveConfirmed(v) => RemoveConserves(n.m, v);
      case Reconcile(i) => KeepConserves(n.m, n.t.answers[i]);
      case WatcherReconciles => KeepConserves(n.m, {});
      case Handle(_) =>
        match n.p.stdout[0] {
          case Started(v) => RenderConserves(n.m, v);
          case Discarded(v) => RemoveConserves(n.m, v);
          case _ =>
        }
      case _ =>
    }
  }

  /** A removal of u leaves nothing of u that claude could start. */
  lemma RemovalIsFinal(n: Net, step: Step, u: Uuid)
    requires SentOnce(n) && Shaped(n) && Doomed(n) && DoomedFrames(n) && Enabled(n, step) && u in n.m.minted
    requires || step == SendFails(u) || step == RemoveOrphan(u) || step == RemoveConfirmed(u)
             || (step.Handle? && (n.p.stdout[0] == Started(u) || n.p.stdout[0] == Discarded(u)))
    ensures u !in Live(Next(n, step).p)
  {
    NoStepCopies(n, step, u);
    NamesGrow(n, step);
    assert DoomedAt(n, u);
    match step {
      case SendFails(_) => LeftForGood(n, Unqueue(n.p, u), u);
      case Handle(_) =>
        assert FrameDoomed(n, n.p.stdout[0]);
        ScanMoves(n.p, u);
        if n.p.stdout[0] == Started(u) {
          LeftForGood(n, Scan(n.p), u);
        }
      case _ =>
    }
  }

  lemma StepKeepsCoveredAt(n: Net, step: Step, u: Uuid)
    requires Conserved(n.m) && SentOnce(n) && Shaped(n) && Doomed(n) && DoomedFrames(n) && CoveredAt(n, u)
    requires Enabled(n, step)
    ensures CoveredAt(Next(n, step), u)
  {
    var x := Next(n, step);
    MirrorGrows(n, step, u);
    HistoryGrows(n, step, u);
    NamesGrow(n, step);
    if step.Add? && step.e.uuid == u {
      PushDistinct(n.m.queue, step.e) by {
        assert u !in Pending(n.m);
      }
    } else {
      NoStepCopies(n, step, u);
      if step.Handle? {
        ScanMoves(n.p, u);
      }
      if u in Pending(n.m) && u !in Pending(x.m) {
        PendingShrinks(n, step, u);
        if u in Live(x.p) && u !in x.h.lost {
          RemovalIsFinal(n, step, u);
        }
      }
    }
  }

  lemma StepKeepsCovered(n: Net, step: Step)
    requires Conserved(n.m) && SentOnce(n) && Shaped(n) && Doomed(n) && DoomedFrames(n) && Covered(n) && Enabled(n, step)
    ensures Covered(Next(n, step))
  {
    forall u
      ensures CoveredAt(Next(n, step), u)
    {
      assert CoveredAt(n, u);
      StepKeepsCoveredAt(n, step, u);
    }
  }

  // ---- overlap ----

  lemma StepKeepsComplete(n: Net, step: Step)
    requires Shaped(n) && SentOnce(n) && Enabled(n, step) && Complete(n.p, n.h.overlapped + n.h.foreign)
    ensures Complete(Next(n, step).p, Next(n, step).h.overlapped + Next(n, step).h.foreign)
  {
    var late, x := n.h.overlapped + n.h.foreign, Next(n, step);
    var more := x.h.overlapped + x.h.foreign;
    match step {
      case Add(e, process) => QueueComplete(n.p, late, more, e.uuid, process);
      case Send(u) => WriteComplete(n.p, late, u);
      case SendFails(u) => UnqueueComplete(n.p, late, u);
      case AskCancel(u) => AskComplete(n.p, late, more, Cancel(u));
      case AskInterrupt => AskComplete(n.p, late, more, Interrupt);
      case ClaudeReads => ReadComplete(n.p, late);
      case ClaudeStarts(u) => LeaveComplete(n.p, late, u, Started(u));
      case ClaudeDiscards(u) => LeaveComplete(n.p, late, u, Discarded(u));
      case ClaudeInternal(f) => EmitComplete(n.p, late, more, f);
      case Handle(_) => ScanComplete(n.p, late);
      case Respawns => RespawnComplete(n.p, late);
      case _ =>
    }
  }

  lemma LateGrows(n: Net, step: Step)
    requires Enabled(n, step)
    ensures n.h.overlapped <= Next(n, step).h.overlapped && n.h.foreign <= Next(n, step).h.foreign
    ensures step.Add? && Overlapping(n) ==> step.e.uuid in Next(n, step).h.overlapped
  {
  }

  lemma AnswersComeFromFrames(n: Net, step: Step)
    requires Enabled(n, step)
    ensures forall still :: still in Next(n, step).t.answers ==>
              still in n.t.answers || (step.Handle? && n.p.stdout[0] == Inventory(still))
    ensures Next(n, step).t.watchers > 0 ==> n.t.watchers > 0 || step.WatcherChecks?
  {
  }

  /** Reconciling with a complete inventory loses only late sends. */
  lemma LossesAreLate(n: Net, step: Step)
    requires Conserved(n.m) && SentOnce(n) && Fair(n) && Enabled(n, step)
    ensures Next(n, step).h.lost <= n.h.overlapped
  {
    match step {
      case Reconcile(i) => assert n.t.answers[i] in n.t.answers;
      case _ =>
    }
  }

  lemma StepKeepsAnswerFair(n: Net, step: Step, still: set<Uuid>)
    requires Conserved(n.m) && Shaped(n) && SentOnce(n) && Fair(n) && Enabled(n, step)
    requires still in Next(n, step).t.answers
    ensures var x := Next(n, step); Live(x.p) <= still + (x.h.overlapped + x.h.foreign)
  {
    NothingComesAlive(n, step);
    LateGrows(n, step);
    AnswersComeFromFrames(n, step);
    if still !in n.t.answers {
      ScanComplete(n.p, n.h.overlapped + n.h.foreign);
    }
  }

  lemma StepKeepsWatchersFair(n: Net, step: Step)
    requires Conserved(n.m) && Shaped(n) && SentOnce(n) && Fair(n) && Enabled(n, step)
    ensures var x := Next(n, step); x.t.watchers > 0 ==> Live(x.p) <= x.h.overlapped + x.h.foreign
  {
    NothingComesAlive(n, step);
    LateGrows(n, step);
    if Next(n, step).t.watchers > 0 && n.t.watchers == 0 {
      assert Live(n.p) == {};
    }
  }

  lemma StepKeepsFair(n: Net, step: Step)
    requires Conserved(n.m) && Shaped(n) && SentOnce(n) && Fair(n) && Enabled(n, step)
    ensures Fair(Next(n, step))
  {
    StepKeepsComplete(n, step);
    LateGrows(n, step);
    LossesAreLate(n, step);
    StepKeepsWatchersFair(n, step);
    forall still | still in Next(n, step).t.answers
      ensures Live(Next(n, step).p) <= still + (Next(n, step).h.overlapped + Next(n, step).h.foreign)
    {
      StepKeepsAnswerFair(n, step, still);
    }
  }

  /** Claude starts a message of the session's. The scanner renders and links it exactly if no reconcile lost its
      entry. Otherwise it does nothing, and the message is in claude's transcript alone. */
  lemma StartIsRenderedIff(n: Net, heard: bool)
    requires Good(n) && Enabled(n, Handle(heard)) && n.p.stdout[0].Started? && n.p.stdout[0].uuid in n.m.minted
    ensures var u := n.p.stdout[0].uuid;
            Next(n, Handle(heard)).m == (if u in n.h.lost then n.m else Render(n.m, u)) &&
            (u in Pending(n.m) <==> u !in n.h.lost)
  {
    var u := n.p.stdout[0].uuid;
    assert CoveredAt(n, u);
    assert n.p.stdout == [n.p.stdout[0]] + n.p.stdout[1..];
    assert u in Members(StartedIn(n.p.stdout));
  }

  // ---- whole runs ----

  lemma StepKeepsGood(n: Net, step: Step)
    requires Good(n) && Enabled(n, step)
    ensures Good(Next(n, step))
  {
    StepConserves(n, step);
    StepKeepsSentOnce(n, step);
    StepKeepsShape(n, step);
    StepKeepsNames(n, step);
    StepKeepsInventories(n, step);
    StepKeepsDoomed(n, step);
    StepKeepsDoomedFrames(n, step);
    StepKeepsCovered(n, step);
    StepKeepsFair(n, step);
  }

  lemma {:induction false} RunKeepsGood(n: Net, steps: seq<Step>)
    requires Good(n) && ValidRun(n, steps)
    ensures Good(Run(n, steps)) && n.h.lost <= Run(n, steps).h.lost
    decreases |steps|
  {
    if steps != [] {
      StepKeepsGood(n, steps[0]);
      forall u | u in n.h.lost
        ensures u in Next(n, steps[0]).h.lost
      {
        MirrorGrows(n, steps[0], u);
      }
      RunKeepsGood(Next(n, steps[0]), steps[1..]);
    }
  }

  /** The entries queued by the steps of a run, in its order. */
  function Added(steps: seq<Step>): seq<Entry> {
    if steps == [] then [] else (if steps[0].Add? then [steps[0].e] else []) + Added(steps[1..])
  }

  lemma RemovalsKeepOrder(m: Mirror, u: Uuid, still: set<Uuid>)
    ensures Within(m.queue, Remove(m, u).queue) && Within(m.queue, Render(m, u).queue)
    ensures Within(m.queue, Keep(m, still).queue)
  {
    WithinItself(m.queue);
    var at := WithoutKeepsOrder(m.queue, u);
    at := StillQueuedKeepsOrder(m.queue, still);
  }

  lemma StepKeepsOrder(n: Net, step: Step)
    requires Enabled(n, step) && !step.Add?
    ensures Within(n.m.queue, Next(n, step).m.queue)
  {
    WithinItself(n.m.queue);
    match step {
      case SendFails(u) => RemovalsKeepOrder(n.m, u, {});
      case RemoveOrphan(u) => RemovalsKeepOrder(n.m, u, {});
      case RemoveConfirmed(u) => RemovalsKeepOrder(n.m, u, {});
      case Reconcile(i) => RemovalsKeepOrder(n.m, "", n.t.answers[i]);
      case WatcherReconciles => RemovalsKeepOrder(n.m, "", {});
      case Handle(_) =>
        var f := n.p.stdout[0];
        RemovalsKeepOrder(n.m, if f.Started? || f.Discarded? then f.uuid else "", {});
      case _ =>
    }
  }

  lemma {:induction false} RunKeepsOrder(n: Net, steps: seq<Step>, added: seq<Entry>)
    requires Within(added, n.m.queue) && ValidRun(n, steps)
    ensures Within(added + Added(steps), Run(n, steps).m.queue)
    decreases |steps|
  {
    if steps == [] {
      assert added + [] == added;
    } else {
      var one := if steps[0].Add? then [steps[0].e] else [];
      if steps[0].Add? {
        WithinAppended(added, n.m.queue, steps[0].e);
      } else {
        StepKeepsOrder(n, steps[0]);
        WithinWithin(added, n.m.queue, Next(n, steps[0]).m.queue);
        assert added + one == added;
      }
      RunKeepsOrder(Next(n, steps[0]), steps[1..], added + one);
      Regroup(added, one, Added(steps[1..]));
    }
  }

  /** Over every interleaving, the pending entries are some of those that were queued, in the order they were. */
  lemma QueueKeepsTheOrder(steps: seq<Step>)
    requires ValidRun(START, steps)
    ensures Within(Added(steps), Run(START, steps).m.queue)
  {
    WithinItself([]);
    RunKeepsOrder(START, steps, []);
    assert [] + Added(steps) == Added(steps);
  }

  /** Exactly-once rendering, over every interleaving. Every uuid ever queued is in exactly one of
      pending, rendered and removed. A uuid whose start claude announced is rendered exactly if no
      reconcile lost it, only sends overlapping an interrupt or a death watcher are lost, and a
      confirmed cancel is never rendered. So without overlap the rendered messages are exactly the
      queued ones that claude started, each once. */
  lemma EveryStartIsRenderedOnce(steps: seq<Step>, u: Uuid)
    requires ValidRun(START, steps)
    ensures var n := Run(START, steps);
            && Conserved(n.m)
            && (u in n.m.minted && u in n.h.delivered ==> (u in n.m.rendered <==> u !in n.h.lost))
            && (u in n.h.lost ==> u in n.h.overlapped)
            && (u in n.h.cancelled ==> u !in n.m.rendered)
            && (n.h.overlapped == {} ==> (u in n.m.rendered <==> u in n.m.minted && u in n.h.delivered))
  {
    RunKeepsGood(START, steps);
    var n := Run(START, steps);
    assert CoveredAt(n, u) && DoomedAt(n, u);
    assert u in n.m.rendered <==> u in Rendered(n.m);
  }

  /** The condition is needed. In every reachable state where an interrupt has been answered, or a death
      watcher has made its check, and the reconcile is still to come, a send to the running process loses
      its message: the reconcile drops it, claude still gets it, and no continuation ever renders it. */
  lemma OverlappingSendIsLost(n: Net, e: Entry, reconcile: Step, steps: seq<Step>)
    requires Good(n) && n.p.alive && Enabled(n, Add(e, n.p.generation))
    requires (reconcile.Reconcile? || reconcile.WatcherReconciles?) && Enabled(n, reconcile)
    ensures var added := Next(n, Add(e, n.p.generation));
            && Enabled(added, reconcile)
            && var dropped := Next(added, reconcile);
               && e.uuid in dropped.h.lost && Enabled(dropped, Send(e.uuid))
               && (ValidRun(dropped, steps) ==> e.uuid !in Run(dropped, steps).m.rendered)
  {
    var added := Next(n, Add(e, n.p.generation));
    StepKeepsGood(n, Add(e, n.p.generation));
    PushDistinct(n.m.queue, e) by {
      assert e.uuid !in Pending(n.m);
    }
    assert forall still :: still in n.t.answers ==> e.uuid !in still;
    assert Current(added.p, e.uuid) && e.uuid in Unwritten(added.p);
    var dropped := Next(added, reconcile);
    StepKeepsGood(added, reconcile);
    if ValidRun(dropped, steps) {
      RunKeepsGood(dropped, steps);
      var last := Run(dropped, steps);
      assert CoveredAt(last, e.uuid);
      assert e.uuid in last.m.rendered <==> e.uuid in Rendered(last.m);
    }
  }
}
