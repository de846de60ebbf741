/** The two FIFO pipes between the session and claude, and claude's own queue behind them. A message is unsent
    until its write, then in stdin, then held, and at last announced on stdout. Commands and frames keep their
    order, and that is why an inventory that claude sends is still right when it is read: only what was sent
    later can be missing from it. */
module Pipes {
  import opened LineChain

  datatype Command = User(uuid: Uuid) | Cancel(uuid: Uuid) | Interrupt

  datatype Frame =
    | Started(uuid: Uuid)                // the message starts running
    | Discarded(uuid: Uuid)              // cancelled, discarded or refused
    | CancelReply(uuid: Uuid, ok: bool)
    | Inventory(still: set<Uuid>)        // the answer to an interrupt

  /** unsent holds messages that are queued but not yet written, each with the generation of the
      process it is for. */
  datatype Pipes = Pipes(unsent: map<Uuid, nat>, stdin: seq<Command>, held: set<Uuid>, stdout: seq<Frame>,
                         alive: bool, generation: nat)

  function UsersIn(stdin: seq<Command>): multiset<Uuid> {
    if stdin == [] then multiset{}
    else (if stdin[0].User? then multiset{stdin[0].uuid} else multiset{}) + UsersIn(stdin[1..])
  }

  function StartedIn(stdout: seq<Frame>): multiset<Uuid> {
    if stdout == [] then multiset{}
    else (if stdout[0].Started? then multiset{stdout[0].uuid} else multiset{}) + StartedIn(stdout[1..])
  }

  predicate Current(p: Pipes, u: Uuid) {
    p.alive && u in p.unsent && p.unsent[u] == p.generation
  }

  function Unwritten(p: Pipes): set<Uuid> {
    set u | u in p.unsent && Current(p, u)
  }

  /** The messages on their way to claude or in claude's queue. */
  function Ahead(p: Pipes): set<Uuid> {
    Unwritten(p) + Members(UsersIn(p.stdin)) + p.held
  }

  function Members(m: multiset<Uuid>): set<Uuid> {
    set u | u in m
  }

  /** The messages whose start claude can still come to announce. */
  function Live(p: Pipes): set<Uuid> {
    Ahead(p) + Members(StartedIn(p.stdout))
  }

  /** How often u occurs on its way to being announced. */
  function Copies(p: Pipes, u: Uuid): nat {
    (if u in p.unsent then 1 else 0) + UsersIn(p.stdin)[u] + (if u in p.held then 1 else 0) + StartedIn(p.stdout)[u]
  }

  function Queue(p: Pipes, u: Uuid, process: nat): Pipes {
    p.(unsent := p.unsent[u := process])
  }

  function Unqueue(p: Pipes, u: Uuid): Pipes {
    p.(unsent := p.unsent - {u})
  }

  function Write(p: Pipes, u: Uuid): Pipes {
    p.(unsent := p.unsent - {u}, stdin := p.stdin + [User(u)])
  }

  function Ask(p: Pipes, c: Command): Pipes {
    p.(stdin := p.stdin + [c])
  }

  /** claude takes the next command from stdin. A cancel succeeds only for a message still queued. */
  function Read(p: Pipes): Pipes
    requires p.stdin != []
  {
    var rest := p.(stdin := p.stdin[1..]);
    match p.stdin[0]
    case User(u) => rest.(held := p.held + {u})
    case Cancel(u) => rest.(held := p.held - {u}, stdout := p.stdout + [CancelReply(u, u in p.held)])
    case Interrupt => rest.(stdout := p.stdout + [Inventory(p.held)])
  }

  /** claude takes a message out of its queue and says so. */
  function Leave(p: Pipes, u: Uuid, f: Frame): Pipes {
    p.(held := p.held - {u}, stdout := p.stdout + [f])
  }

  function Emit(p: Pipes, f: Frame): Pipes {
    p.(stdout := p.stdout + [f])
  }

  function Scan(p: Pipes): Pipes
    requires p.stdout != []
  {
    p.(stdout := p.stdout[1..])
  }

  function Die(p: Pipes): Pipes {
    p.(alive := false, stdin := [], held := {})
  }

  function Respawn(p: Pipes): Pipes {
    p.(alive := true, generation := p.generation + 1)
  }

  lemma {:induction false} UsersAppend(stdin: seq<Command>, c: Command)
    ensures UsersIn(stdin + [c]) == UsersIn(stdin) + if c.User? then multiset{c.uuid} else multiset{}
  {
    if stdin == [] {
      assert stdin + [c] == [c];
    } else {
      assert (stdin + [c])[1..] == stdin[1..] + [c];
      UsersAppend(stdin[1..], c);
    }
  }

  lemma {:induction false} StartedAppend(stdout: seq<Frame>, f: Frame)
    ensures StartedIn(stdout + [f]) == StartedIn(stdout) + if f.Started? then multiset{f.uuid} else multiset{}
  {
    if stdout == [] {
      assert stdout + [f] == [f];
    } else {
      assert (stdout + [f])[1..] == stdout[1..] + [f];
      StartedAppend(stdout[1..], f);
    }
  }

  // ---- a message moves one way ----

  /** q follows p without bringing u in or duplicating it. */
  predicate NoNewCopy(p: Pipes, q: Pipes, u: Uuid) {
    Copies(q, u) <= Copies(p, u) && (u in Live(q) ==> u in Live(p)) && (u in Ahead(q) ==> u in Ahead(p))
  }

  lemma WriteMoves(p: Pipes, u: Uuid, v: Uuid)
    requires Current(p, v)
    ensures NoNewCopy(p, Write(p, v), u)
  {
    UsersAppend(p.stdin, User(v));
  }

  lemma AskMoves(p: Pipes, u: Uuid, c: Command)
    requires !c.User?
    ensures NoNewCopy(p, Ask(p, c), u)
  {
    UsersAppend(p.stdin, c);
  }

  lemma ReadOtherMoves(p: Pipes, u: Uuid)
    requires p.stdin != [] && !p.stdin[0].User?
    ensures NoNewCopy(p, Read(p), u)
  {
    var q := Read(p);
    assert Unwritten(q) == Unwritten(p);
    assert UsersIn(p.stdin) == UsersIn(q.stdin);
    var f := q.stdout[|p.stdout|];
    StartedAppend(p.stdout, f);
    assert StartedIn(q.stdout) == StartedIn(p.stdout);
  }

  lemma ReadMoves(p: Pipes, u: Uuid)
    requires p.stdin != []
    ensures NoNewCopy(p, Read(p), u)
  {
    if !p.stdin[0].User? {
      ReadOtherMoves(p, u);
    }
  }

  lemma LeaveMoves(p: Pipes, u: Uuid, v: Uuid, f: Frame)
    requires (f == Started(v) && v in p.held) || f == Discarded(v)
    ensures NoNewCopy(p, Leave(p, v, f), u)
  {
    StartedAppend(p.stdout, f);
  }

  lemma EmitMoves(p: Pipes, u: Uuid, f: Frame)
    ensures f != Started(u) ==> NoNewCopy(p, Emit(p, f), u)
    ensures u in Ahead(Emit(p, f)) ==> u in Ahead(p)
  {
    StartedAppend(p.stdout, f);
  }

  /** Scanning frees one copy of an announced message. */
  lemma ScanMoves(p: Pipes, u: Uuid)
    requires p.stdout != []
    ensures NoNewCopy(p, Scan(p), u)
    ensures p.stdout[0] == Started(u) ==> Copies(Scan(p), u) == Copies(p, u) - 1 && u in Live(p)
  {
  }

  lemma DieMoves(p: Pipes, u: Uuid)
    requires p.stdout == []
    ensures NoNewCopy(p, Die(p), u) && u !in Live(Die(p))
  {
  }

  lemma RespawnMoves(p: Pipes, u: Uuid)
    requires !p.alive && (u in p.unsent ==> p.unsent[u] <= p.generation)
    ensures NoNewCopy(p, Respawn(p), u)
  {
  }

  // ---- interrupts ----

  /** Behind an interrupt in stdin there are only late sends. */
  ghost predicate OnlyLateBehind(stdin: seq<Command>, unwritten: set<Uuid>, late: set<Uuid>) {
    stdin != [] ==>
      && (stdin[0] == Interrupt ==> unwritten + Members(UsersIn(stdin[1..])) <= late)
      && OnlyLateBehind(stdin[1..], unwritten, late)
  }

  /** Whatever can still start after an inventory in stdout is in the inventory or late. */
  ghost predicate Listed(stdout: seq<Frame>, ahead: set<Uuid>, late: set<Uuid>) {
    stdout != [] ==>
      && (stdout[0].Inventory? ==> ahead + Members(StartedIn(stdout[1..])) <= stdout[0].still + late)
      && Listed(stdout[1..], ahead, late)
  }

  ghost predicate Complete(p: Pipes, late: set<Uuid>) {
    OnlyLateBehind(p.stdin, Unwritten(p), late) && Listed(p.stdout, Ahead(p), late)
  }

  predicate HasInventory(stdout: seq<Frame>) {
    exists f :: f in stdout && f.Inventory?
  }

  predicate Outstanding(p: Pipes) {
    Interrupt in p.stdin || HasInventory(p.stdout)
  }

  lemma {:induction false} LateBehindGrows(stdin: seq<Command>, unwritten: set<Uuid>, wider: set<Uuid>,
                                           late: set<Uuid>, more: set<Uuid>)
    requires OnlyLateBehind(stdin, unwritten, late) && late <= more
    requires wider <= unwritten || (Interrupt in stdin ==> wider <= unwritten + more)
    ensures OnlyLateBehind(stdin, wider, more)
  {
    if stdin != [] {
      LateBehindGrows(stdin[1..], unwritten, wider, late, more);
    }
  }

  lemma {:induction false} LateBehindAppend(stdin: seq<Command>, c: Command, unwritten: set<Uuid>, fewer: set<Uuid>,
                                            late: set<Uuid>)
    requires OnlyLateBehind(stdin, unwritten, late) && fewer <= unwritten
    requires c == Interrupt ==> fewer <= late
    requires c.User? ==> c.uuid in unwritten
    ensures OnlyLateBehind(stdin + [c], fewer, late)
  {
    if stdin == [] {
      assert stdin + [c] == [c];
    } else {
      assert (stdin + [c])[1..] == stdin[1..] + [c];
      LateBehindAppend(stdin[1..], c, unwritten, fewer, late);
      UsersAppend(stdin[1..], c);
    }
  }

  lemma {:induction false} ListedGrows(stdout: seq<Frame>, ahead: set<Uuid>, wider: set<Uuid>, late: set<Uuid>, more: set<Uuid>)
    requires Listed(stdout, ahead, late) && late <= more
    requires wider <= ahead || (HasInventory(stdout) ==> wider <= ahead + more)
    ensures Listed(stdout, wider, more)
  {
    if stdout != [] {
      assert stdout[0] in stdout;
      ListedGrows(stdout[1..], ahead, wider, late, more);
    }
  }

  lemma {:induction false} ListedAppend(stdout: seq<Frame>, f: Frame, ahead: set<Uuid>, fewer: set<Uuid>, late: set<Uuid>)
    requires Listed(stdout, ahead, late) && fewer <= ahead
    requires f.Started? ==> f.uuid in ahead + late
    requires f.Inventory? ==> fewer <= f.still + late
    ensures Listed(stdout + [f], fewer, late)
  {
    if stdout == [] {
      assert stdout + [f] == [f];
    } else {
      assert (stdout + [f])[1..] == stdout[1..] + [f];
      ListedAppend(stdout[1..], f, ahead, fewer, late);
      StartedAppend(stdout[1..], f);
    }
  }

  lemma QueueComplete(p: Pipes, late: set<Uuid>, more: set<Uuid>, u: Uuid, process: nat)
    requires Complete(p, late) && late <= more && u !in p.unsent && (Outstanding(p) ==> u in more)
    ensures Complete(Queue(p, u, process), more)
  {
    var q := Queue(p, u, process);
    assert Unwritten(q) <= Unwritten(p) + {u};
    LateBehindGrows(p.stdin, Unwritten(p), Unwritten(q), late, more);
    ListedGrows(p.stdout, Ahead(p), Ahead(q), late, more);
  }

  lemma UnqueueComplete(p: Pipes, late: set<Uuid>, u: Uuid)
    requires Complete(p, late)
    ensures Complete(Unqueue(p, u), late)
  {
    var q := Unqueue(p, u);
    LateBehindGrows(p.stdin, Unwritten(p), Unwritten(q), late, late);
    ListedGrows(p.stdout, Ahead(p), Ahead(q), late, late);
  }

  lemma WriteComplete(p: Pipes, late: set<Uuid>, v: Uuid)
    requires Complete(p, late) && Current(p, v)
    ensures Complete(Write(p, v), late)
  {
    var q := Write(p, v);
    UsersAppend(p.stdin, User(v));
    LateBehindAppend(p.stdin, User(v), Unwritten(p), Unwritten(q), late);
    ListedGrows(p.stdout, Ahead(p), Ahead(q), late, late);
  }

  /** A send that is not written when an interrupt is, is late for it. */
  lemma AskComplete(p: Pipes, late: set<Uuid>, more: set<Uuid>, c: Command)
    requires Complete(p, late) && late <= more && !c.User? && (c == Interrupt ==> Unwritten(p) <= more)
    ensures Complete(Ask(p, c), more)
  {
    UsersAppend(p.stdin, c);
    assert Unwritten(Ask(p, c)) == Unwritten(p);
    LateBehindGrows(p.stdin, Unwritten(p), Unwritten(p), late, more);
    LateBehindAppend(p.stdin, c, Unwritten(p), Unwritten(p), more);
    ListedGrows(p.stdout, Ahead(p), Ahead(Ask(p, c)), late, more);
  }

  lemma ReadComplete(p: Pipes, late: set<Uuid>)
    requires Complete(p, late) && p.stdin != []
    ensures Complete(Read(p), late)
  {
    var q := Read(p);
    assert Unwritten(q) == Unwritten(p);
    if p.stdin[0].User? {
      assert Ahead(q) <= Ahead(p);
      ListedGrows(p.stdout, Ahead(p), Ahead(q), late, late);
    } else {
      assert Ahead(q) <= Ahead(p);
      if p.stdin[0].Interrupt? {
        assert Ahead(q) <= p.held + late;
      }
      ListedAppend(p.stdout, q.stdout[|p.stdout|], Ahead(p), Ahead(q), late);
    }
  }

  lemma LeaveComplete(p: Pipes, late: set<Uuid>, v: Uuid, f: Frame)
    requires Complete(p, late) && ((f == Started(v) && v in p.held) || f == Discarded(v))
    ensures Complete(Leave(p, v, f), late)
  {
    assert Unwritten(Leave(p, v, f)) == Unwritten(p);
    ListedAppend(p.stdout, f, Ahead(p), Ahead(Leave(p, v, f)), late);
  }

  lemma EmitComplete(p: Pipes, late: set<Uuid>, more: set<Uuid>, f: Frame)
    requires Complete(p, late) && late <= more && !f.Inventory? && (f.Started? ==> f.uuid in more)
    ensures Complete(Emit(p, f), more)
  {
    assert Unwritten(Emit(p, f)) == Unwritten(p) && Ahead(Emit(p, f)) == Ahead(p);
    LateBehindGrows(p.stdin, Unwritten(p), Unwritten(p), late, more);
    ListedGrows(p.stdout, Ahead(p), Ahead(p), late, more);
    ListedAppend(p.stdout, f, Ahead(p), Ahead(p), more);
  }

  /** When the scanner reaches an inventory, whatever can still start is in it or late. */
  lemma ScanComplete(p: Pipes, late: set<Uuid>)
    requires Complete(p, late) && p.stdout != []
    ensures Complete(Scan(p), late)
    ensures p.stdout[0].Inventory? ==> Live(Scan(p)) <= p.stdout[0].still + late
  {
    assert Unwritten(Scan(p)) == Unwritten(p) && Ahead(Scan(p)) == Ahead(p);
  }

  lemma RespawnComplete(p: Pipes, late: set<Uuid>)
    requires p.stdin == [] && p.stdout == []
    ensures Complete(Respawn(p), late)
  {
  }
}
