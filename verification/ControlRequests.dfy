/** Matching control responses to the requests waiting for them. Requesters, the scanner, timeouts and
    the process's death interleave between the lock sections. */
module ControlRequests {
  import opened Prelude

  type Id = nat

  datatype Response = Response(id: Id, payload: string)

  /** A requester after registering: in its select, past a timeout or the death of the process with the
      cleanup still to run, or done with or without a response. */
  datatype Waiter = Waiting | Expired | Done(response: Response) | Failed

  /** replies holds each request's one-slot channel, delivering what the scanner has taken out of pending
      and not yet sent. posted counts the values ever sent on each channel. */
  datatype State = State(reqSeq: nat, pending: set<Id>, replies: map<Id, seq<Response>>, waiters: map<Id, Waiter>,
                         delivering: Option<Response>, dead: bool, posted: multiset<Id>)

  const START := State(0, {}, map[], map[], None, false, multiset{})

  datatype Step =
    | Register                      // a new request
    | WriteFails(id: Id)            // its stdin write fails, which leaves it pending
    | Take(response: Response)      // the scanner reads a response and looks its request up
    | Post                          // the scanner sends on the channel
    | Receive(id: Id)
    | GiveUp(id: Id)                // the timeout or the closed process wins the select
    | CleanUp(id: Id)
    | Die

  /** handleControlResponse's lock section. */
  function Taken(s: State, r: Response): State {
    s.(pending := s.pending - {r.id}, delivering := if r.id in s.pending then Some(r) else None)
  }

  predicate Enabled(s: State, step: Step) {
    match step
    case Register => true
    case WriteFails(id) => id in s.waiters && s.waiters[id] == Waiting
    case Take(_) => s.delivering == None && !s.dead
    case Post => s.delivering.Some? && s.delivering.value.id in s.replies && |s.replies[s.delivering.value.id]| < 1
    case Receive(id) => id in s.waiters && s.waiters[id] == Waiting && id in s.replies && s.replies[id] != []
    case GiveUp(id) => id in s.waiters && s.waiters[id] == Waiting
    case CleanUp(id) => id in s.waiters && s.waiters[id] == Expired
    case Die => s.delivering == None
  }

  function Next(s: State, step: Step): State
    requires Enabled(s, step)
  {
    match step
    case Register =>
      var id := s.reqSeq + 1;
      s.(reqSeq := id, pending := s.pending + {id}, replies := s.replies[id := []], waiters := s.waiters[id := Waiting])
    case WriteFails(id) => s.(waiters := s.waiters[id := Failed])
    case Take(r) => Taken(s, r)
    case Post =>
      var r := s.delivering.value;
      s.(replies := s.replies[r.id := s.replies[r.id] + [r]], delivering := None, posted := s.posted + multiset{r.id})
    case Receive(id) => s.(replies := s.replies[id := s.replies[id][1..]], waiters := s.waiters[id := Done(s.replies[id][0])])
    case GiveUp(id) => s.(waiters := s.waiters[id := Expired])
    case CleanUp(id) => s.(pending := s.pending - {id}, waiters := s.waiters[id := Failed])
    case Die => s.(dead := true)
  }

  ghost predicate ValidRun(s: State, steps: seq<Step>)
    decreases |steps|
  {
    steps == [] || (Enabled(s, steps[0]) && ValidRun(Next(s, steps[0]), steps[1..]))
  }

  function Run(s: State, steps: seq<Step>): State
    requires ValidRun(s, steps)
    decreases |steps|
  {
    if steps == [] then s else Run(Next(s, steps[0]), steps[1..])
  }

  // ---- the process's lock sections, each against its step ----

  class ClaudeProcess {
    var reqSeq: nat
    var pending: set<Id>

    ghost predicate Represents(s: State)
      reads this
    {
      reqSeq == s.reqSeq && pending == s.pending
    }

    constructor ()
      ensures Represents(START)
    {
      reqSeq, pending := 0, {};
    }

    /** sendControlRequest's lock section. The new id has never been used. */
    method Register(ghost s: State) returns (id: Id)
      requires Represents(s)
      modifies this
      ensures Represents(Next(s, Step.Register)) && Next(s, Step.Register).waiters == s.waiters[id := Waiting]
      ensures id == reqSeq == old(reqSeq) + 1 && pending == old(pending) + {id}
    {
      reqSeq := reqSeq + 1;
      id := reqSeq;
      pending := pending + {id};
    }

    /** handleControlResponse's. found says whether a requester is owed the response. */
    method Take(r: Response, ghost s: State) returns (found: bool)
      requires Represents(s) && Enabled(s, Step.Take(r))
      modifies this`pending
      ensures Represents(Next(s, Step.Take(r)))
      ensures Next(s, Step.Take(r)).delivering == if found then Some(r) else None
      ensures pending == old(pending) - {r.id} && (found <==> r.id in old(pending))
    {
      found := r.id in pending;
      pending := pending - {r.id};
    }

    /** The cleanup after a timeout or the process's death. */
    method CleanUp(id: Id, ghost s: State)
      requires Represents(s) && Enabled(s, Step.CleanUp(id))
      modifies this`pending
      ensures Represents(Next(s, Step.CleanUp(id))) && pending == old(pending) - {id}
    {
      pending := pending - {id};
    }
  }

  // ---- invariants ----

  /** A request is owed a response, or the scanner is delivering it, or its channel has had its one value.
      Whatever is in a channel, on its way, or received carries the request's own id. */
  ghost predicate GoodAt(s: State, id: Id) {
    && (id in s.waiters <==> id in s.replies)
    && (id in s.replies ==> id <= s.reqSeq && forall r :: r in s.replies[id] ==> r.id == id)
    && (id in s.pending ==> id in s.replies)
    && (s.delivering.Some? && s.delivering.value.id == id ==> id in s.replies)
    && (if id in s.pending then 1 else 0) + (if s.delivering.Some? && s.delivering.value.id == id then 1 else 0)
       + s.posted[id] <= 1
    && (id in s.replies ==> |s.replies[id]| <= s.posted[id])
    && (id !in s.replies ==> s.posted[id] == 0)
    && (id in s.waiters && s.waiters[id].Done? ==> s.waiters[id].response.id == id && s.replies[id] == [] && s.posted[id] == 1)
  }

  ghost predicate Good(s: State) {
    forall id :: GoodAt(s, id)
  }

  lemma StepKeepsGood(s: State, step: Step)
    requires Good(s) && Enabled(s, step)
    ensures Good(Next(s, step))
  {
    forall id
      ensures GoodAt(Next(s, step), id)
    {
      assert GoodAt(s, id);
      match step {
        case Register => assert GoodAt(s, s.reqSeq + 1);
        case Take(r) => assert GoodAt(s, r.id);
        case _ =>
      }
    }
  }

  lemma {:induction false} RunKeepsGood(s: State, steps: seq<Step>)
    requires Good(s) && ValidRun(s, steps)
    ensures Good(Run(s, steps))
    decreases |steps|
  {
    if steps != [] {
      StepKeepsGood(s, steps[0]);
      RunKeepsGood(Next(s, steps[0]), steps[1..]);
    }
  }

  // ---- payloads ----

  /** The responses that the scanner reads in a run. */
  function Read(steps: seq<Step>): set<Response> {
    if steps == [] then {} else (if steps[0].Take? then {steps[0].response} else {}) + Read(steps[1..])
  }

  /** Whatever is on its way to a requester, or has reached it, is one of these. */
  ghost predicate From(s: State, read: set<Response>) {
    && (s.delivering.Some? ==> s.delivering.value in read)
    && (forall id, r :: id in s.replies && r in s.replies[id] ==> r in read)
    && (forall id :: id in s.waiters && s.waiters[id].Done? ==> s.waiters[id].response in read)
  }

  lemma {:induction false} RunDeliversWhatWasRead(s: State, steps: seq<Step>, read: set<Response>)
    requires From(s, read) && ValidRun(s, steps)
    ensures From(Run(s, steps), read + Read(steps))
    decreases |steps|
  {
    if steps == [] {
      assert read + {} == read;
    } else {
      var one := if steps[0].Take? then {steps[0].response} else {};
      StepDeliversWhatWasRead(s, steps[0], read);
      RunDeliversWhatWasRead(Next(s, steps[0]), steps[1..], read + one);
      assert read + one + Read(steps[1..]) == read + Read(steps);
    }
  }

  lemma StepDeliversWhatWasRead(s: State, step: Step, read: set<Response>)
    requires From(s, read) && Enabled(s, step)
    ensures From(Next(s, step), read + if step.Take? then {step.response} else {})
  {
  }

  /** A requester that is done has the very response that the scanner read, payload and all. */
  lemma PayloadIsKept(steps: seq<Step>, id: Id)
    requires ValidRun(START, steps)
    ensures var s := Run(START, steps);
            id in s.waiters && s.waiters[id].Done? ==> s.waiters[id].response in Read(steps) && s.waiters[id].response.id == id
  {
    RunDeliversWhatWasRead(START, steps, {});
    assert {} + Read(steps) == Read(steps);
    RunKeepsGood(START, steps);
    assert GoodAt(Run(START, steps), id);
  }

  /** Control responses reach only their own request. Over every interleaving, ids never repeat, each channel
      gets at most one value, so the scanner's send never blocks, each requester consumes only a response with
      its own id, and a response to a request that is not pending changes nothing. */
  lemma ResponsesReachTheirRequest(steps: seq<Step>, id: Id, late: Response)
    requires ValidRun(START, steps)
    ensures var s := Run(START, steps);
            && s.reqSeq + 1 !in s.waiters && s.reqSeq + 1 !in s.pending
            && s.posted[id] <= 1
            && (s.delivering.Some? ==> Enabled(s, Post))
            && (id in s.waiters && s.waiters[id].Done? ==> s.waiters[id].response.id == id)
            && (Enabled(s, Take(late)) && late.id !in s.pending ==> Next(s, Take(late)) == s)
  {
    RunKeepsGood(START, steps);
    var s := Run(START, steps);
    assert GoodAt(s, id) && GoodAt(s, s.reqSeq + 1);
    if s.delivering.Some? {
      assert GoodAt(s, s.delivering.value.id);
    }
  }

  /** Once a request's cleanup has run, no continuation delivers anything to it. */
  lemma {:induction false} CleanedUpStaysSilent(s: State, id: Id, steps: seq<Step>)
    requires Good(s) && id in s.waiters && s.waiters[id] == Failed && id !in s.pending
    requires s.delivering.Some? ==> s.delivering.value.id != id
    requires ValidRun(s, steps)
    ensures Run(s, steps).posted[id] == s.posted[id] && id in Run(s, steps).waiters && Run(s, steps).waiters[id] == Failed
    decreases |steps|
  {
    if steps != [] {
      StepKeepsGood(s, steps[0]);
      assert GoodAt(s, id) && GoodAt(s, s.reqSeq + 1);
      CleanedUpStaysSilent(Next(s, steps[0]), id, steps[1..]);
    }
  }
}
