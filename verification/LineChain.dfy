/** Parent links between transcript lines, and the walk from a leaf to the root, on values. */
module LineChain {

  /** A line's uuid. The empty string stands for "no line", as in the Go source. */
  type Uuid = string

  type Parents = map<Uuid, Uuid>

  /** A chain together with the leaf the active walk starts from. */
  datatype Cursor = Cursor(tip: Uuid, parents: Parents)

  /** Reading a Go map: a missing key gives the zero value. */
  function ParentOf(parents: Parents, u: Uuid): Uuid {
    if u in parents then parents[u] else ""
  }

  /** The uuid n links above u. The walk ends at the empty uuid. */
  function Up(parents: Parents, u: Uuid, n: nat): Uuid
    decreases n
  {
    if u == "" || n == 0 then u else Up(parents, ParentOf(parents, u), n - 1)
  }

  ghost predicate Reaches(parents: Parents, leaf: Uuid, w: Uuid) {
    w != "" && exists n: nat :: Up(parents, leaf, n) == w
  }

  ghost function Mentioned(parents: Parents): set<Uuid> {
    parents.Keys + parents.Values
  }

  /** The uuids on the branch that ends at leaf. */
  ghost function Active(parents: Parents, leaf: Uuid): set<Uuid> {
    set w | w in Mentioned(parents) + {leaf} && Reaches(parents, leaf, w)
  }

  ghost function Branch(c: Cursor): set<Uuid> {
    Active(c.parents, c.tip)
  }

  /** Links a line below the tip and moves the tip to it, unless it is linked already. */
  function Advance(c: Cursor, u: Uuid): Cursor {
    if u == "" || u in c.parents then c else Cursor(u, c.parents[u := c.tip])
  }

  // ---- the walk ----

  lemma {:induction false} UpPlus(parents: Parents, u: Uuid, m: nat, n: nat)
    ensures Up(parents, u, m + n) == Up(parents, Up(parents, u, m), n)
    decreases m
  {
    if u != "" && m > 0 {
      UpPlus(parents, ParentOf(parents, u), m - 1, n);
    }
  }

  lemma {:induction false} UpMentioned(parents: Parents, u: Uuid, n: nat)
    ensures Up(parents, u, n) in Mentioned(parents) + {u, ""}
    decreases n
  {
    if u != "" && n > 0 {
      UpMentioned(parents, ParentOf(parents, u), n - 1);
    }
  }

  lemma ActiveIffReaches(parents: Parents, leaf: Uuid, w: Uuid)
    ensures w in Active(parents, leaf) <==> Reaches(parents, leaf, w)
  {
    if Reaches(parents, leaf, w) {
      var n: nat :| Up(parents, leaf, n) == w;
      UpMentioned(parents, leaf, n);
    }
  }

  lemma ReachesUnfold(parents: Parents, leaf: Uuid, w: Uuid)
    ensures Reaches(parents, leaf, w) <==>
            leaf != "" && w != "" && (w == leaf || Reaches(parents, ParentOf(parents, leaf), w))
  {
    if Reaches(parents, leaf, w) {
      var n: nat :| Up(parents, leaf, n) == w;
      if n > 0 && leaf != "" {
        assert Up(parents, ParentOf(parents, leaf), n - 1) == w;
      }
    }
    if leaf != "" && w != "" && w == leaf {
      assert Up(parents, leaf, 0) == w;
    } else if leaf != "" && w != "" && Reaches(parents, ParentOf(parents, leaf), w) {
      var n: nat :| Up(parents, ParentOf(parents, leaf), n) == w;
      assert Up(parents, leaf, n + 1) == w;
    }
  }

  lemma ReachesTransitive(parents: Parents, u: Uuid, v: Uuid, w: Uuid)
    requires Reaches(parents, u, v) && Reaches(parents, v, w)
    ensures Reaches(parents, u, w)
  {
    var m: nat :| Up(parents, u, m) == v;
    var n: nat :| Up(parents, v, n) == w;
    UpPlus(parents, u, m, n);
  }

  /** Two uuids on one branch are comparable. */
  lemma BranchIsLinear(parents: Parents, leaf: Uuid, v: Uuid, w: Uuid)
    requires Reaches(parents, leaf, v) && Reaches(parents, leaf, w)
    ensures Reaches(parents, v, w) || Reaches(parents, w, v)
  {
    var m: nat :| Up(parents, leaf, m) == v;
    var n: nat :| Up(parents, leaf, n) == w;
    if m <= n {
      UpPlus(parents, leaf, m, n - m);
    } else {
      UpPlus(parents, leaf, n, m - n);
    }
  }

  // ---- linking one more line ----

  /** Linking u changes no walk before the walk meets u. */
  lemma {:induction false} UpBefore(parents: Parents, u: Uuid, p: Uuid, v: Uuid, n: nat)
    requires forall k: nat :: k < n ==> Up(parents, v, k) != u
    ensures Up(parents[u := p], v, n) == Up(parents, v, n)
    decreases n
  {
    if v != "" && n > 0 {
      assert Up(parents, v, 0) != u;
      forall k: nat | k < n - 1
        ensures Up(parents, ParentOf(parents, v), k) != u
      {
        assert Up(parents, v, k + 1) != u;
      }
      UpBefore(parents, u, p, ParentOf(parents, v), n - 1);
    }
  }

  /** Linking an unlinked line that v's branch does not meet leaves v's branch alone. */
  lemma FreshLinkKeepsBranch(parents: Parents, u: Uuid, p: Uuid, v: Uuid, w: Uuid)
    requires u != "" && !Reaches(parents, v, u)
    ensures Reaches(parents[u := p], v, w) <==> Reaches(parents, v, w)
  {
    forall n: nat
      ensures Up(parents[u := p], v, n) == Up(parents, v, n)
    {
      UpBefore(parents, u, p, v, n);
    }
    if Reaches(parents[u := p], v, w) {
      var n: nat :| Up(parents[u := p], v, n) == w;
      assert Up(parents, v, n) == w;
    }
    if Reaches(parents, v, w) {
      var n: nat :| Up(parents, v, n) == w;
      assert Up(parents[u := p], v, n) == w;
    }
  }

  /** After an unlinked uuid the walk ends. */
  lemma UnlinkedEndsWalk(parents: Parents, v: Uuid, k: nat, n: nat)
    requires Up(parents, v, k) !in parents && k < n
    ensures Up(parents, v, n) == ""
  {
    UpPlus(parents, v, k, n - k);
  }

  lemma {:induction false} OldBranchSurvives(c: Cursor, u: Uuid, n: nat)
    requires u != "" && u !in c.parents && Up(c.parents, c.tip, n) != ""
    ensures Reaches(c.parents[u := c.tip], u, Up(c.parents, c.tip, n))
  {
    forall k: nat | k < n
      ensures Up(c.parents, c.tip, k) != u
    {
      if Up(c.parents, c.tip, k) == u {
        UnlinkedEndsWalk(c.parents, c.tip, k, n);
      }
    }
    UpBefore(c.parents, u, c.tip, c.tip, n);
    assert Up(c.parents[u := c.tip], u, n + 1) == Up(c.parents, c.tip, n);
  }

  lemma {:induction false} NewBranchIsOld(c: Cursor, u: Uuid, n: nat)
    requires u != "" && u !in c.parents
    ensures var w := Up(c.parents[u := c.tip], u, n);
            w == "" || w == u || Reaches(c.parents, c.tip, w)
    decreases n
  {
    var grown := c.parents[u := c.tip];
    if n > 0 {
      if k: nat :| k < n - 1 && Up(grown, c.tip, k) == u {
        // the walk came back to the freshly linked line
        UpPlus(grown, c.tip, k, n - 1 - k);
        NewBranchIsOld(c, u, n - 1 - k);
      } else {
        NoEarlyMeeting(c, u, grown, n - 1);
        UpBefore(c.parents, u, c.tip, c.tip, n - 1);
      }
    }
  }

  lemma {:induction false} NoEarlyMeeting(c: Cursor, u: Uuid, grown: Parents, n: nat)
    requires grown == c.parents[u := c.tip]
    requires forall k: nat :: k < n ==> Up(grown, c.tip, k) != u
    ensures forall k: nat :: k < n ==> Up(c.parents, c.tip, k) != u
    decreases n
  {
    if n > 0 {
      NoEarlyMeeting(c, u, grown, n - 1);
      UpBefore(c.parents, u, c.tip, c.tip, n - 1);
      assert Up(grown, c.tip, n - 1) != u;
    }
  }

  /** The law of AdvanceTip, on every chain, cyclic and dangling ones included: an unlinked
      uuid joins the active branch and nothing else changes, and a linked one changes nothing. */
  lemma AdvanceAddsExactlyOne(c: Cursor, u: Uuid)
    ensures Branch(Advance(c, u)) ==
            if u == "" || u in c.parents then Branch(c) else Branch(c) + {u}
  {
    if u != "" && u !in c.parents {
      var grown := c.parents[u := c.tip];
      forall w
        ensures w in Active(grown, u) <==> w in Active(c.parents, c.tip) + {u}
      {
        ActiveIffReaches(grown, u, w);
        ActiveIffReaches(c.parents, c.tip, w);
        if Reaches(grown, u, w) {
          var n: nat :| Up(grown, u, n) == w;
          NewBranchIsOld(c, u, n);
        }
        if w == u {
          assert Up(grown, u, 0) == u;
        } else if Reaches(c.parents, c.tip, w) {
          var n: nat :| Up(c.parents, c.tip, n) == w;
          OldBranchSurvives(c, u, n);
        }
      }
    }
  }

  // ---- closed, acyclic chains ----

  /** Every parent is a linked line or the root. */
  ghost predicate Closed(parents: Parents) {
    "" !in parents && forall u :: u in parents ==> parents[u] == "" || parents[u] in parents
  }

  ghost predicate Acyclic(parents: Parents) {
    forall u, n: nat :: u != "" && n > 0 ==> Up(parents, u, n) != u
  }

  ghost predicate WellFormed(c: Cursor) {
    Closed(c.parents) && Acyclic(c.parents) && (c.tip == "" || c.tip in c.parents)
  }

  lemma {:induction false} ClosedWalkStaysLinked(parents: Parents, u: Uuid, n: nat)
    requires Closed(parents) && (u == "" || u in parents)
    ensures Up(parents, u, n) == "" || Up(parents, u, n) in parents
    decreases n
  {
    if u != "" && n > 0 {
      ClosedWalkStaysLinked(parents, ParentOf(parents, u), n - 1);
    }
  }

  lemma LinkKeepsWalks(c: Cursor, u: Uuid, v: Uuid, n: nat)
    requires WellFormed(c) && u != "" && u !in c.parents && (v == "" || v in c.parents)
    ensures Up(c.parents[u := c.tip], v, n) == Up(c.parents, v, n)
  {
    forall k: nat | k < n
      ensures Up(c.parents, v, k) != u
    {
      ClosedWalkStaysLinked(c.parents, v, k);
    }
    UpBefore(c.parents, u, c.tip, v, n);
  }

  lemma AdvanceKeepsWellFormed(c: Cursor, u: Uuid)
    requires WellFormed(c)
    ensures WellFormed(Advance(c, u))
  {
    if u != "" && u !in c.parents {
      var grown := c.parents[u := c.tip];
      forall v, n: nat | v != "" && n > 0
        ensures Up(grown, v, n) != v
      {
        if v == u {
          LinkKeepsWalks(c, u, c.tip, n - 1);
          ClosedWalkStaysLinked(c.parents, c.tip, n - 1);
        } else if v in c.parents {
          LinkKeepsWalks(c, u, v, n);
        } else {
          assert Up(grown, v, n) == Up(grown, "", n - 1);
        }
      }
    }
  }

  /** On an acyclic chain reachability is antisymmetric. */
  lemma NoMutualReach(parents: Parents, u: Uuid, v: Uuid)
    requires Acyclic(parents) && Reaches(parents, u, v) && Reaches(parents, v, u)
    ensures u == v
  {
    var m: nat :| Up(parents, u, m) == v;
    var n: nat :| Up(parents, v, n) == u;
    UpPlus(parents, u, m, n);
  }

  /** A walk from a linked line never meets an unlinked one. */
  lemma LinkedMissesUnlinked(parents: Parents, v: Uuid, u: Uuid)
    requires Closed(parents) && (v == "" || v in parents) && u !in parents
    ensures !Reaches(parents, v, u)
  {
    if Reaches(parents, v, u) {
      var n: nat :| Up(parents, v, n) == u;
      ClosedWalkStaysLinked(parents, v, n);
    }
  }

  lemma ActiveIsLinked(c: Cursor, u: Uuid)
    requires WellFormed(c) && u in Branch(c)
    ensures u in c.parents
  {
    ActiveIffReaches(c.parents, c.tip, u);
    var n: nat :| Up(c.parents, c.tip, n) == u;
    ClosedWalkStaysLinked(c.parents, c.tip, n);
  }
}
