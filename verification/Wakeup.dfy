/** Readers waiting on the one-slot wakeup channel of a stream buffer. Appending or closing, signalling,
    reading and waiting are separate steps, so a signal can come late and two signals can merge. */
module Wakeup {

  datatype Reader =
    | Reading(pos: nat)    // about to read from pos
    | Waiting(pos: nat)    // blocked on the channel
    | Finished             // saw the buffer closed

  /** unsent counts the writers that have changed the buffer and not yet signalled. */
  datatype State = State(total: nat, closed: bool, token: bool, unsent: nat, readers: seq<Reader>)

  datatype Step = Append | Close | Signal | Read(r: nat) | Wake(r: nat)

  predicate Enabled(s: State, step: Step) {
    match step
    case Append => !s.closed
    case Close => true
    case Signal => s.unsent > 0
    case Read(r) => r < |s.readers| && s.readers[r].Reading?
    case Wake(r) => r < |s.readers| && s.readers[r].Waiting? && s.token
  }

  function Next(s: State, step: Step): State
    requires Enabled(s, step)
  {
    match step
    case Append => s.(total := s.total + 1, unsent := s.unsent + 1)
    case Close => s.(closed := true, unsent := s.unsent + 1)
    case Signal => s.(token := true, unsent := s.unsent - 1)
    case Read(r) =>
      var pos := s.readers[r].pos;
      s.(readers := s.readers[r := if s.closed then Finished else Waiting(if pos < s.total then s.total else pos)])
    case Wake(r) => s.(token := false, readers := s.readers[r := Reading(s.readers[r].pos)])
  }

  ghost predicate ValidRun(s: State, steps: seq<Step>)
    decreases |steps|
  {
    steps == [] || (Enabled(s, steps[0]) && ValidRun(Next(s, steps[0]), steps[1..]))
  }

  function Run(s: State, steps: seq<Step>): State
    requires ValidRun(s, steps)
    decreases |steps|
  {
    if steps == [] then s else Run(Next(s, steps[0]), steps[1..])
  }

  predicate NoClose(steps: seq<Step>) {
    forall i :: 0 <= i < |steps| ==> steps[i] != Close
  }

  // ---- one reader ----

  /** A waiting reader that has lines or the close still to see has a wakeup coming. */
  ghost predicate NoLostWakeup(s: State) {
    && |s.readers| == 1
    && (s.readers[0].Waiting? && (s.readers[0].pos < s.total || s.closed) ==> s.token || s.unsent > 0)
  }

  lemma StepKeepsWakeup(s: State, step: Step)
    requires NoLostWakeup(s) && Enabled(s, step)
    ensures NoLostWakeup(Next(s, step))
  {
  }

  /** Once the buffer is closed, each signal and each step of the reader brings the reader's end nearer. */
  function Distance(s: State): nat
    requires |s.readers| == 1
  {
    3 * s.unsent + (if s.token then 2 else 0) + (if s.readers[0].Reading? then 1 else 0)
  }

  lemma {:induction false} SettlesAfterClose(s: State, steps: seq<Step>)
    requires NoLostWakeup(s) && s.closed && ValidRun(s, steps)
    requires NoClose(steps)
    ensures |Run(s, steps).readers| == 1 && |steps| <= Distance(s)
    ensures (forall step :: Enabled(Run(s, steps), step) ==> step == Close) ==> Run(s, steps).readers[0].Finished?
    decreases |steps|
  {
    if steps == [] {
      if s.readers[0].Reading? {
        assert Enabled(s, Read(0));
      } else if s.readers[0].Waiting? {
        assert if s.token then Enabled(s, Wake(0)) else Enabled(s, Signal);
      }
    } else {
      StepKeepsWakeup(s, steps[0]);
      SettlesAfterClose(Next(s, steps[0]), steps[1..]);
    }
  }

  lemma {:induction false} RunKeepsWakeup(s: State, steps: seq<Step>)
    requires NoLostWakeup(s) && ValidRun(s, steps)
    ensures NoLostWakeup(Run(s, steps))
    decreases |steps|
  {
    if steps != [] {
      StepKeepsWakeup(s, steps[0]);
      RunKeepsWakeup(Next(s, steps[0]), steps[1..]);
    }
  }

  /** No lost wakeup: from the start on, over every interleaving, a single waiting reader with something
      to see has a token in the channel or a writer about to post one. After a close, every run without
      further calls ends within a bounded number of steps, and it can only end with the reader finished. */
  lemma SingleReaderFinishes(steps: seq<Step>, rest: seq<Step>)
    requires ValidRun(State(0, false, false, 0, [Reading(0)]), steps)
    requires NoClose(rest)
    ensures var s := Run(State(0, false, false, 0, [Reading(0)]), steps);
            && NoLostWakeup(s)
            && (s.closed && ValidRun(s, rest) ==>
                 && |rest| <= Distance(s) && |Run(s, rest).readers| == 1
                 && ((forall step :: Enabled(Run(s, rest), step) ==> step == Close) ==> Run(s, rest).readers[0].Finished?))
  {
    RunKeepsWakeup(State(0, false, false, 0, [Reading(0)]), steps);
    var s := Run(State(0, false, false, 0, [Reading(0)]), steps);
    if s.closed && ValidRun(s, rest) {
      SettlesAfterClose(s, rest);
    }
  }

  // ---- several readers ----

  function WaitingIn(readers: seq<Reader>): nat {
    if readers == [] then 0 else WaitingIn(readers[..|readers| - 1]) + if readers[|readers| - 1].Waiting? then 1 else 0
  }

  lemma {:induction false} WaitingUpdate(readers: seq<Reader>, r: nat, x: Reader)
    requires r < |readers|
    ensures WaitingIn(readers[r := x]) + (if readers[r].Waiting? then 1 else 0) ==
            WaitingIn(readers) + if x.Waiting? then 1 else 0
  {
    var last := |readers| - 1;
    if r < last {
      assert readers[r := x][..last] == readers[..last][r := x];
      WaitingUpdate(readers[..last], r, x);
    } else {
      assert readers[r := x][..last] == readers[..last];
    }
  }

  function ReadingIn(readers: seq<Reader>): nat {
    if readers == [] then 0 else ReadingIn(readers[..|readers| - 1]) + if readers[|readers| - 1].Reading? then 1 else 0
  }

  lemma {:induction false} ReadingUpdate(readers: seq<Reader>, r: nat, x: Reader)
    requires r < |readers|
    ensures ReadingIn(readers[r := x]) + (if readers[r].Reading? then 1 else 0) ==
            ReadingIn(readers) + if x.Reading? then 1 else 0
  {
    var last := |readers| - 1;
    if r < last {
      assert readers[r := x][..last] == readers[..last][r := x];
      ReadingUpdate(readers[..last], r, x);
    } else {
      assert readers[r := x][..last] == readers[..last];
    }
  }

  /** One token wakes one reader. After a close with every signal posted, whatever happens next, the readers that
      wait and the token keep their balance, and every run without further calls ends. */
  lemma {:induction false} AllButOneStarve(s: State, steps: seq<Step>)
    requires s.closed && s.unsent == 0 && ValidRun(s, steps) && NoClose(steps)
    ensures var x := Run(s, steps);
            && x.closed && x.unsent == 0
            && WaitingIn(x.readers) - (if x.token then 1 else 0) == WaitingIn(s.readers) - (if s.token then 1 else 0)
            && |steps| + ReadingIn(x.readers) + (if x.token then 2 else 0) ==
               ReadingIn(s.readers) + if s.token then 2 else 0
    decreases |steps|
  {
    if steps != [] {
      match steps[0] {
        case Read(r) =>
          WaitingUpdate(s.readers, r, Finished);
          ReadingUpdate(s.readers, r, Finished);
        case Wake(r) =>
          WaitingUpdate(s.readers, r, Reading(s.readers[r].pos));
          ReadingUpdate(s.readers, r, Reading(s.readers[r].pos));
        case _ =>
      }
      AllButOneStarve(Next(s, steps[0]), steps[1..]);
    }
  }

  lemma {:induction false} NoneWaits(readers: seq<Reader>)
    ensures WaitingIn(readers) == 0 <==> forall r :: 0 <= r < |readers| ==> !readers[r].Waiting?
  {
    if readers != [] {
      NoneWaits(readers[..|readers| - 1]);
    }
  }

  ghost predicate AllFinish(s: State) {
    forall r :: 0 <= r < |s.readers| ==> s.readers[r].Finished?
  }

  /** Nothing can happen any more, short of another close. */
  ghost predicate Settled(s: State) {
    forall step :: Enabled(s, step) ==> step == Close
  }

  /** With any number of readers: after a close with every signal posted, a run that has settled has finished them
      all exactly if at most as many were waiting as there was a token for. */
  lemma AllFinishIff(s: State, steps: seq<Step>)
    requires s.closed && s.unsent == 0 && ValidRun(s, steps) && NoClose(steps) && Settled(Run(s, steps))
    ensures AllFinish(Run(s, steps)) <==> WaitingIn(s.readers) <= if s.token then 1 else 0
  {
    var x := Run(s, steps);
    AllButOneStarve(s, steps);
    NoneWaits(x.readers);
    forall r: nat | r < |x.readers|
      ensures !x.readers[r].Reading? && (x.readers[r].Waiting? ==> !x.token)
    {
      assert !Enabled(x, Read(r)) && !Enabled(x, Wake(r));
    }
  }

  /** And some run does settle: each step that is left to take brings the end nearer. */
  lemma SomeRunSettles(s: State) returns (steps: seq<Step>)
    requires s.closed && s.unsent == 0
    ensures ValidRun(s, steps) && NoClose(steps) && Settled(Run(s, steps))
    decreases ReadingIn(s.readers) + if s.token then 2 else 0
  {
    if Settled(s) {
      steps := [];
    } else {
      var step :| Enabled(s, step) && step != Close;
      AllButOneStarve(s, [step]);
      assert [step][1..] == [];
      var rest := SomeRunSettles(Next(s, step));
      steps := [step] + rest;
      assert steps[1..] == rest;
    }
  }

  /** Two readers attached to one buffer both wait before the close, and its one token leaves one of them waiting:
      that one never finishes. */
  lemma SecondReaderStarves(rest: seq<Step>)
    requires NoClose(rest)
    ensures var steps := [Read(0), Read(1), Close, Signal];
            var start := State(0, false, false, 0, [Reading(0), Reading(0)]);
            && ValidRun(start, steps)
            && (ValidRun(Run(start, steps), rest) ==> WaitingIn(Run(Run(start, steps), rest).readers) > 0)
            && (ValidRun(Run(start, steps), rest) && Settled(Run(Run(start, steps), rest)) ==>
                  !AllFinish(Run(Run(start, steps), rest)))
  {
    var start := State(0, false, false, 0, [Reading(0), Reading(0)]);
    var s1 := Next(start, Read(0));
    var s2 := Next(s1, Read(1));
    var s3 := Next(s2, Close);
    var s4 := Next(s3, Signal);
    var steps := [Read(0), Read(1), Close, Signal];
    assert steps[1..] == [Read(1), Close, Signal] && steps[1..][1..] == [Close, Signal];
    assert steps[1..][1..][1..] == [Signal] && steps[1..][1..][1..][1..] == [];
    assert ValidRun(s4, []) && ValidRun(s3, [Signal]) && ValidRun(s2, [Close, Signal]) && ValidRun(s1, steps[1..]);
    assert Run(start, steps) == s4;
    if ValidRun(s4, rest) {
      AllButOneStarve(s4, rest);
      assert s4.readers == [Waiting(0), Waiting(0)];
      assert s4.readers[..1] == [Waiting(0)] && s4.readers[..1][..0] == [];
      if Settled(Run(s4, rest)) {
        AllFinishIff(s4, rest);
      }
    }
  }
}
