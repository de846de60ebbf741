/** Reading a chain's tip and its links one after the other, while lines arrive and edits rewind. */
module ChainReads {
  import opened LineChain

  /** What can happen to a chain between two reads. */
  datatype Move = LineArrives(uuid: Uuid) | Rewound(branchPoint: Uuid)

  function Moved(c: Cursor, move: Move): Cursor {
    match move
    case LineArrives(u) => Advance(c, u)
    case Rewound(b) => c.(tip := b)
  }

  function MovedBy(c: Cursor, moves: seq<Move>): Cursor
    decreases |moves|
  {
    if moves == [] then c else MovedBy(Moved(c, moves[0]), moves[1..])
  }

  /** Branch points are linked lines, or the root. */
  predicate Allowed(c: Cursor, moves: seq<Move>)
    decreases |moves|
  {
    moves == [] ||
    ((moves[0].Rewound? ==> moves[0].branchPoint == "" || moves[0].branchPoint in c.parents)
     && Allowed(Moved(c, moves[0]), moves[1..]))
  }

  lemma {:induction false} MovesKeepOldBranches(c: Cursor, moves: seq<Move>, v: Uuid, w: Uuid)
    requires WellFormed(c) && Allowed(c, moves) && (v == "" || v in c.parents)
    ensures Reaches(MovedBy(c, moves).parents, v, w) <==> Reaches(c.parents, v, w)
    decreases |moves|
  {
    if moves != [] {
      if moves[0].LineArrives? {
        var u := moves[0].uuid;
        AdvanceKeepsWellFormed(c, u);
        if u != "" && u !in c.parents {
          LinkedMissesUnlinked(c.parents, v, u);
          FreshLinkKeepsBranch(c.parents, u, c.tip, v, w);
        }
      }
      MovesKeepOldBranches(Moved(c, moves[0]), moves[1..], v, w);
    }
  }

  /** Reading the tip first and the links later, with lines arriving and edits rewinding in between, gives the
      branch that was active when the tip was read. */
  lemma TipFirstReadIsConsistent(c: Cursor, moves: seq<Move>)
    requires WellFormed(c) && Allowed(c, moves)
    ensures Active(MovedBy(c, moves).parents, c.tip) == Branch(c)
  {
    forall w
      ensures w in Active(MovedBy(c, moves).parents, c.tip) <==> w in Branch(c)
    {
      ActiveIffReaches(MovedBy(c, moves).parents, c.tip, w);
      ActiveIffReaches(c.parents, c.tip, w);
      MovesKeepOldBranches(c, moves, c.tip, w);
    }
  }

  /** The other order is wrong as soon as one line arrives in between: of the whole branch only that line is left. */
  lemma LinksFirstReadLosesTheBranch(c: Cursor, u: Uuid)
    requires WellFormed(c) && u != "" && u !in c.parents
    ensures Active(c.parents, Advance(c, u).tip) == {u}
  {
    forall w
      ensures w in Active(c.parents, u) <==> w == u
    {
      ActiveIffReaches(c.parents, u, w);
      ReachesUnfold(c.parents, u, w);
      ReachesUnfold(c.parents, "", w);
    }
  }

  // ---- several lines in a row ----

  /** Nothing but new lines, each unlinked when it arrives. */
  predicate OnlyNewLines(c: Cursor, moves: seq<Move>)
    decreases |moves|
  {
    moves == [] ||
    (moves[0].LineArrives? && moves[0].uuid != "" && moves[0].uuid !in c.parents
     && OnlyNewLines(Moved(c, moves[0]), moves[1..]))
  }

  function Arrivals(moves: seq<Move>): set<Uuid> {
    set m | m in moves && m.LineArrives? :: m.uuid
  }

  lemma {:induction false} NewLinesAreLinked(c: Cursor, moves: seq<Move>)
    requires OnlyNewLines(c, moves)
    ensures MovedBy(c, moves).parents.Keys == c.parents.Keys + Arrivals(moves)
    ensures Allowed(c, moves) && Arrivals(moves) !! c.parents.Keys
    decreases |moves|
  {
    if moves != [] {
      NewLinesAreLinked(Moved(c, moves[0]), moves[1..]);
    }
  }

  lemma {:induction false} NewLinesJoin(c: Cursor, moves: seq<Move>)
    requires OnlyNewLines(c, moves)
    ensures Branch(MovedBy(c, moves)) == Branch(c) + Arrivals(moves)
    decreases |moves|
  {
    if moves != [] {
      AdvanceAddsExactlyOne(c, moves[0].uuid);
      NewLinesJoin(Moved(c, moves[0]), moves[1..]);
    }
  }

  lemma {:induction false} NewToBoth(c: Cursor, d: Cursor, moves: seq<Move>)
    requires c.parents.Keys == d.parents.Keys && OnlyNewLines(c, moves)
    ensures OnlyNewLines(d, moves)
    decreases |moves|
  {
    if moves != [] {
      NewToBoth(Moved(c, moves[0]), Moved(d, moves[0]), moves[1..]);
    }
  }

  /** A copy of the chain whose tip was read before its links, with new lines arriving between the two reads, and
      that then follows the same new lines: it sees everything but the lines of the gap. */
  lemma TornCopyMissesTheGap(c: Cursor, between: seq<Move>, later: Cursor, after: seq<Move>)
    requires WellFormed(c) && OnlyNewLines(c, between) && later == MovedBy(c, between) && OnlyNewLines(later, after)
    ensures Branch(MovedBy(Cursor(c.tip, later.parents), after)) == Branch(MovedBy(later, after)) - Arrivals(between)
    ensures Arrivals(between) <= Branch(MovedBy(later, after))
  {
    var torn := Cursor(c.tip, later.parents);
    NewLinesJoin(c, between);
    NewLinesAreLinked(c, between);
    NewLinesJoin(later, after);
    NewLinesAreLinked(later, after);
    TipFirstReadIsConsistent(c, between);
    NewToBoth(later, torn, after);
    NewLinesJoin(torn, after);
    forall u | u in Branch(c)
      ensures u !in Arrivals(between)
    {
      ActiveIsLinked(c, u);
    }
  }
}
