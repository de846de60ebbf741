/** The conversation tree that a live session keeps. */
module Session {
  import opened LineChain

  /** The walk that decides which messages are rendered. It ends on any map, cyclic or
      dangling, and returns exactly the uuids reachable from the leaf. */
  method ActiveSet(parents: Parents, leaf: Uuid) returns (active: set<Uuid>)
    ensures active == Active(parents, leaf)
  {
    active := {};
    var u := leaf;
    ghost var n: nat := 0;
    while u != "" && u !in active
      invariant u == Up(parents, leaf, n)
      invariant forall w :: w in active <==> w != "" && exists k: nat :: k < n && Up(parents, leaf, k) == w
      invariant active <= Mentioned(parents) + {leaf}
      decreases Mentioned(parents) + {leaf} - active
    {
      UpMentioned(parents, leaf, n);
      active := active + {u};
      UpPlus(parents, leaf, n, 1);
      assert Up(parents, u, 1) == ParentOf(parents, u);
      u := ParentOf(parents, u);
      n := n + 1;
    }
    forall w
      ensures w in active <==> w in Active(parents, leaf)
    {
      ActiveIffReaches(parents, leaf, w);
      if Reaches(parents, leaf, w) {
        var k: nat :| Up(parents, leaf, k) == w;
        WalkHasClosed(parents, leaf, n, k);
      }
    }
  }

  /** Once the walk is at the root or at a uuid it has met, every later uuid has been met. */
  lemma {:induction false} WalkHasClosed(parents: Parents, leaf: Uuid, n: nat, k: nat)
    requires Up(parents, leaf, n) == "" || exists j: nat :: j < n && Up(parents, leaf, j) == Up(parents, leaf, n)
    ensures Up(parents, leaf, k) == "" || exists j: nat :: j < n && Up(parents, leaf, j) == Up(parents, leaf, k)
    decreases k
  {
    if k >= n {
      UpPlus(parents, leaf, n, k - n);
      if Up(parents, leaf, n) != "" {
        var j: nat :| j < n && Up(parents, leaf, j) == Up(parents, leaf, n);
        UpPlus(parents, leaf, j, k - n);
        WalkHasClosed(parents, leaf, n, j + k - n);
      }
    }
  }

  class Session {
    var Tip: Uuid
    var LineParents: Parents

    constructor ()
      ensures Chain() == Cursor("", map[])
    {
      Tip, LineParents := "", map[];
    }

    ghost function Chain(): (c: Cursor)
      reads this
    {
      Cursor(Tip, LineParents)
    }

    /** Seeds the chain from a parsed transcript. */
    method InitTree(parents: Parents, lastUUID: Uuid)
      modifies this
      ensures Chain() == Cursor(lastUUID, parents)
    {
      LineParents := parents;
      Tip := lastUUID;
    }

    /** Links a live line below the tip. The active set gains exactly the new uuid, or nothing
        when the uuid is empty or linked. */
    method AdvanceTip(uuid: Uuid)
      modifies this
      ensures Chain() == Advance(old(Chain()), uuid)
      ensures Branch(Chain()) ==
              if uuid == "" || uuid in old(LineParents) then old(Branch(Chain())) else old(Branch(Chain())) + {uuid}
      ensures old(WellFormed(Chain())) ==> WellFormed(Chain())
    {
      AdvanceAddsExactlyOne(Chain(), uuid);
      if WellFormed(Chain()) {
        AdvanceKeepsWellFormed(Chain(), uuid);
      }
      if uuid == "" || uuid in LineParents {
        return;
      }
      LineParents := LineParents[uuid := Tip];
      Tip := uuid;
    }

    /** Moves the tip to a branch point. No link changes. */
    method SetTip(uuid: Uuid)
      modifies this`Tip
      ensures Chain() == old(Chain()).(tip := uuid)
      ensures old(WellFormed(Chain())) && (uuid == "" || uuid in LineParents) ==> WellFormed(Chain())
    {
      Tip := uuid;
    }
  }
}
