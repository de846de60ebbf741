/** The branch stack of a worktree: from a map of local upstreams, cycles included, to a preorder
    listing with depths. */
module BranchStack {
  import opened LineChain
  import opened Prelude

  type Name = string

  /** branch -> local upstream. Neither is ever empty. */
  type Upstreams = m: map<Name, Name> | "" !in m && "" !in m.Values

  datatype Entry = Entry(name: Name, depth: nat)

  // ---- the order of names ----

  predicate Less(a: Name, b: Name) {
    b != [] && (a == [] || a[0] < b[0] || (a[0] == b[0] && Less(a[1..], b[1..])))
  }

  lemma {:induction false} LessIsTotal(a: Name, b: Name)
    ensures a == b || Less(a, b) || Less(b, a)
    ensures !(Less(a, b) && Less(b, a)) && !Less(a, a)
  {
    if a != [] && b != [] {
      LessIsTotal(a[1..], b[1..]);
      LessIsTotal(a[1..], a[1..]);
      assert a == [a[0]] + a[1..] && b == [b[0]] + b[1..];
    } else if a != [] {
      LessIsTotal(a[1..], a[1..]);
    }
  }

  lemma {:induction false} LessIsTransitive(a: Name, b: Name, c: Name)
    requires Less(a, b) && Less(b, c)
    ensures Less(a, c)
  {
    if a != [] && a[0] == b[0] && b[0] == c[0] {
      LessIsTransitive(a[1..], b[1..], c[1..]);
    }
  }

  ghost predicate Ascending(names: seq<Name>) {
    forall i, j :: 0 <= i < j < |names| ==> Less(names[i], names[j])
  }

  /** Puts a name where it belongs in an ascending list. */
  function Inserted(names: seq<Name>, x: Name): seq<Name> {
    if names == [] then [x]
    else if Less(x, names[0]) then [x] + names
    else [names[0]] + Inserted(names[1..], x)
  }

  lemma {:induction false} InsertedAscends(names: seq<Name>, x: Name)
    requires Ascending(names) && x !in names
    ensures Ascending(Inserted(names, x))
    ensures forall y :: y in Inserted(names, x) <==> y == x || y in names
  {
    if names != [] {
      LessIsTotal(x, names[0]);
      if Less(x, names[0]) {
        forall j | 0 < j < |names|
          ensures Less(x, names[j])
        {
          LessIsTransitive(x, names[0], names[j]);
        }
      } else {
        assert names[0] in names && names == [names[0]] + names[1..];
        InsertedAscends(names[1..], x);
        var rest := Inserted(names[1..], x);
        forall j | 0 <= j < |rest|
          ensures Less(names[0], rest[j])
        {
          assert rest[j] in rest;
          if rest[j] != x {
            var k :| 0 <= k < |names[1..]| && names[1..][k] == rest[j];
            assert names[k + 1] == rest[j];
          }
        }
      }
    }
  }

  // ---- the children map ----

  function Kids(childrenOf: map<Name, seq<Name>>, name: Name): seq<Name> {
    if name in childrenOf then childrenOf[name] else []
  }

  ghost predicate IsChild(upstreamOf: Upstreams, child: Name, parent: Name) {
    child in upstreamOf && upstreamOf[child] == parent
  }

  /** Each branch's children, in ascending order. */
  ghost predicate Inverts(upstreamOf: Upstreams, childrenOf: map<Name, seq<Name>>) {
    forall p :: AreKids(upstreamOf, Kids(childrenOf, p), p)
  }

  ghost predicate AreKids(upstreamOf: Upstreams, kids: seq<Name>, parent: Name) {
    Ascending(kids) && forall c :: c in kids <==> IsChild(upstreamOf, c, parent)
  }

  method ChildrenOf(upstreamOf: Upstreams) returns (childrenOf: map<Name, seq<Name>>)
    ensures Inverts(upstreamOf, childrenOf)
  {
    childrenOf := map[];
    var left := upstreamOf.Keys;
    while left != {}
      invariant left <= upstreamOf.Keys
      invariant forall p :: Ascending(Kids(childrenOf, p))
      invariant forall p, c :: c in Kids(childrenOf, p) <==> IsChild(upstreamOf, c, p) && c !in left
      decreases |left|
    {
      var br :| br in left;
      var up := upstreamOf[br];
      InsertedAscends(Kids(childrenOf, up), br);
      var kids, before := Inserted(Kids(childrenOf, up), br), childrenOf;
      childrenOf := before[up := kids];
      assert forall p :: Kids(childrenOf, p) == if p == up then kids else Kids(before, p);
      left := left - {br};
    }
  }

  // ---- the upward walk ----

  /** The root is the last branch the walk from the current branch reaches before it would come to a
      branch without local upstream, to the default branch, or back to a branch it has visited. */
  ghost predicate IsRoot(upstreamOf: Upstreams, current: Name, defaultBranch: Name, root: Name) {
    exists n: nat ::
      && Up(upstreamOf, current, n) == root
      && (forall k: nat :: 0 < k <= n ==> Up(upstreamOf, current, k) !in {"", defaultBranch})
      && (forall j: nat, k: nat :: j < k <= n ==> Up(upstreamOf, current, j) != Up(upstreamOf, current, k))
      && (ParentOf(upstreamOf, root) in {"", defaultBranch} ||
          exists k: nat :: k <= n && Up(upstreamOf, current, k) == ParentOf(upstreamOf, root))
  }

  method FindRoot(upstreamOf: Upstreams, current: Name, defaultBranch: Name) returns (root: Name)
    requires current != ""
    ensures root != "" && IsRoot(upstreamOf, current, defaultBranch, root)
  {
    root := current;
    var visited := {root};
    ghost var n: nat := 0;
    while true
      invariant root == Up(upstreamOf, current, n) && root != ""
      invariant forall v :: v in visited <==> exists k: nat :: k <= n && Up(upstreamOf, current, k) == v
      invariant visited <= Mentioned(upstreamOf) + {current}
      invariant forall k: nat :: 0 < k <= n ==> Up(upstreamOf, current, k) !in {"", defaultBranch}
      invariant forall j: nat, k: nat :: j < k <= n ==> Up(upstreamOf, current, j) != Up(upstreamOf, current, k)
      decreases Mentioned(upstreamOf) + {current} - visited
    {
      var up := ParentOf(upstreamOf, root);
      UpPlus(upstreamOf, current, n, 1);
      assert Up(upstreamOf, root, 1) == up;
      UpMentioned(upstreamOf, current, n + 1);
      if up == "" || up == defaultBranch {
        break;
      }
      if up in visited {
        break;
      }
      visited := visited + {up};
      root := up;
      n := n + 1;
    }
  }

  // ---- the depth-first listing ----

  function Names(list: seq<Entry>): set<Name> {
    set e | e in list :: e.name
  }

  ghost predicate NoRepeat(list: seq<Entry>) {
    forall i, j :: 0 <= i < j < |list| ==> list[i].name != list[j].name
  }

  /** Entry i hangs below its upstream at j: one level deeper, with only deeper entries between. */
  ghost predicate HangsFrom(upstreamOf: Upstreams, list: seq<Entry>, i: nat, j: nat) {
    && j < i < |list| && IsChild(upstreamOf, list[i].name, list[j].name) && list[i].depth == list[j].depth + 1
    && forall k :: j < k < i ==> list[k].depth > list[j].depth
  }

  /** A subtree listed in preorder: its root first, every other entry below its upstream. */
  ghost predicate Subtree(upstreamOf: Upstreams, list: seq<Entry>) {
    && list != []
    && (forall i :: 0 < i < |list| ==> list[i].depth > list[0].depth)
    && (forall i :: 0 < i < |list| ==> HangsSomewhere(upstreamOf, list, i))
  }

  ghost predicate HangsSomewhere(upstreamOf: Upstreams, list: seq<Entry>, i: nat) {
    exists j: nat :: HangsFrom(upstreamOf, list, i, j)
  }

  /** Branches with the same upstream are listed in ascending order. */
  ghost predicate SiblingsAscend(upstreamOf: Upstreams, list: seq<Entry>) {
    forall i, j, p :: 0 < i < j < |list| && IsChild(upstreamOf, list[i].name, p) && IsChild(upstreamOf, list[j].name, p)
      ==> Less(list[i].name, list[j].name)
  }

  /** Listing one more child's subtree after what is listed of its parent's. */
  lemma GraftSubtree(upstreamOf: Upstreams, block: seq<Entry>, more: seq<Entry>)
    requires Subtree(upstreamOf, block) && Subtree(upstreamOf, more)
    requires IsChild(upstreamOf, more[0].name, block[0].name) && more[0].depth == block[0].depth + 1
    ensures Subtree(upstreamOf, block + more)
  {
    var all := block + more;
    forall i | 0 < i < |all|
      ensures HangsSomewhere(upstreamOf, all, i)
    {
      if i < |block| {
        assert HangsSomewhere(upstreamOf, block, i);
        var j: nat :| HangsFrom(upstreamOf, block, i, j);
        assert HangsFrom(upstreamOf, all, i, j);
      } else if i == |block| {
        assert HangsFrom(upstreamOf, all, i, 0);
      } else {
        assert HangsSomewhere(upstreamOf, more, i - |block|);
        var j: nat :| HangsFrom(upstreamOf, more, i - |block|, j);
        assert HangsFrom(upstreamOf, all, i, |block| + j);
      }
    }
  }

  lemma GraftKeepsDistinct(block: seq<Entry>, more: seq<Entry>)
    requires NoRepeat(block) && NoRepeat(more) && Names(block) !! Names(more)
    ensures NoRepeat(block + more)
  {
    forall i, j | 0 <= i < |block| && 0 <= j < |more|
      ensures block[i].name != more[j].name
    {
      assert block[i].name in Names(block) && more[j].name in Names(more);
    }
  }

  lemma UpstreamIsListed(upstreamOf: Upstreams, list: seq<Entry>, k: nat)
    requires Subtree(upstreamOf, list) && 0 < k < |list|
    ensures list[k].name in upstreamOf && upstreamOf[list[k].name] in Names(list)
  {
    assert HangsSomewhere(upstreamOf, list, k);
    var j: nat :| HangsFrom(upstreamOf, list, k, j);
  }

  /** Every entry's upstream is listed, so entries of different subtrees have different upstreams, and
      the children listed before come earlier in the ascending list. */
  lemma GraftKeepsOrder(upstreamOf: Upstreams, block: seq<Entry>, more: seq<Entry>, earlier: seq<Name>)
    requires Subtree(upstreamOf, block) && Subtree(upstreamOf, more) && Names(block) !! Names(more)
    requires NoRepeat(block) && SiblingsAscend(upstreamOf, block) && SiblingsAscend(upstreamOf, more)
    requires IsChild(upstreamOf, more[0].name, block[0].name) && more[0].depth == block[0].depth + 1
    requires forall k :: 0 < k < |block| && block[k].depth == block[0].depth + 1 ==> block[k].name in earlier
    requires forall x :: x in earlier ==> Less(x, more[0].name)
    requires forall k :: 0 < k < |more| ==> !IsChild(upstreamOf, more[k].name, block[0].name)
    ensures SiblingsAscend(upstreamOf, block + more)
  {
    var all := block + more;
    forall k | 0 < k < |block|
      ensures block[k].name in upstreamOf && upstreamOf[block[k].name] in Names(block)
    {
      UpstreamIsListed(upstreamOf, block, k);
    }
    forall k | 0 < k < |more|
      ensures more[k].name in upstreamOf && upstreamOf[more[k].name] in Names(more)
    {
      UpstreamIsListed(upstreamOf, more, k);
    }
    assert block[0].name in Names(block);
    forall i, j, p | 0 < i < j < |all| && IsChild(upstreamOf, all[i].name, p) && IsChild(upstreamOf, all[j].name, p)
      ensures Less(all[i].name, all[j].name)
    {
      if i < |block| && j == |block| {
        assert HangsSomewhere(upstreamOf, block, i);
        var h: nat :| HangsFrom(upstreamOf, block, i, h);
        assert block[h].name == block[0].name;
      } else if |block| < i {
        assert IsChild(upstreamOf, more[j - |block|].name, p);
      }
    }
  }

  /** The complete listing of one subtree. */
  ghost predicate Listing(upstreamOf: Upstreams, block: seq<Entry>, name: Name, depth: nat) {
    && Subtree(upstreamOf, block) && block[0] == Entry(name, depth)
    && NoRepeat(block) && SiblingsAscend(upstreamOf, block)
  }

  /** The children of the block's root that are listed are among these. */
  ghost predicate ChildrenAmong(block: seq<Entry>, depth: nat, earlier: seq<Name>) {
    forall k :: 0 < k < |block| && block[k].depth == depth + 1 ==> block[k].name in earlier
  }

  lemma Graft(upstreamOf: Upstreams, block: seq<Entry>, more: seq<Entry>, name: Name, depth: nat, c: Name, earlier: seq<Name>)
    requires Listing(upstreamOf, block, name, depth) && Listing(upstreamOf, more, c, depth + 1)
    requires Names(block) !! Names(more) && IsChild(upstreamOf, c, name)
    requires ChildrenAmong(block, depth, earlier) && forall x :: x in earlier ==> Less(x, c)
    ensures Listing(upstreamOf, block + more, name, depth) && Names(block + more) == Names(block) + Names(more)
    ensures ChildrenAmong(block + more, depth, earlier + [c])
  {
    GraftSubtree(upstreamOf, block, more);
    GraftKeepsDistinct(block, more);
    assert block[0].name in Names(block);
    forall k | 0 < k < |more|
      ensures !IsChild(upstreamOf, more[k].name, name)
    {
      UpstreamIsListed(upstreamOf, more, k);
    }
    GraftKeepsOrder(upstreamOf, block, more, earlier);
  }

  /** Everything below the listed names is listed, apart from the children of one still being listed. */
  ghost predicate ClosedBelow(upstreamOf: Upstreams, names: set<Name>, seen: set<Name>, open: set<Name>) {
    forall p, c :: p in names && p !in open && IsChild(upstreamOf, c, p) ==> c in seen
  }

  /** The listing of name's subtree when the first i children are done. */
  ghost predicate Progress(upstreamOf: Upstreams, block: seq<Entry>, name: Name, depth: nat, kids: seq<Name>, i: nat,
                           before: set<Name>)
    requires i <= |kids|
  {
    && Listing(upstreamOf, block, name, depth) && Names(block) !! before
    && (forall k :: 0 <= k < i ==> kids[k] in before + Names(block))
    && ChildrenAmong(block, depth, kids[..i])
    && ClosedBelow(upstreamOf, Names(block), before + Names(block), {name})
  }

  /** What one call of Walk lists. */
  ghost predicate Walked(upstreamOf: Upstreams, block: seq<Entry>, name: Name, depth: nat, before: set<Name>) {
    if name in before then block == []
    else && Listing(upstreamOf, block, name, depth) && Names(block) !! before
         && ClosedBelow(upstreamOf, Names(block), before + Names(block), {})
  }

  lemma ProgressStep(upstreamOf: Upstreams, block: seq<Entry>, more: seq<Entry>, name: Name, depth: nat,
                     kids: seq<Name>, i: nat, before: set<Name>)
    requires i < |kids| && AreKids(upstreamOf, kids, name)
    requires Progress(upstreamOf, block, name, depth, kids, i, before)
    requires Walked(upstreamOf, more, kids[i], depth + 1, before + Names(block))
    ensures Progress(upstreamOf, block + more, name, depth, kids, i + 1, before)
    ensures Names(block + more) == Names(block) + Names(more)
  {
    assert kids[..i + 1] == kids[..i] + [kids[i]];
    if kids[i] in before + Names(block) {
      assert block + more == block;
    } else {
      Graft(upstreamOf, block, more, name, depth, kids[i], kids[..i]);
      assert more[0].name in Names(more);
    }
  }

  lemma KidIsBranch(upstreamOf: Upstreams, kids: seq<Name>, name: Name, i: nat)
    requires i < |kids| && AreKids(upstreamOf, kids, name)
    ensures kids[i] in upstreamOf.Keys
  {
    assert kids[i] in kids;
  }

  class Walker {
    var seen: set<Name>
    var ordered: seq<Entry>

    constructor ()
      ensures seen == {} && ordered == []
    {
      seen, ordered := {}, [];
    }

    /** Lists name's subtree, except what has been seen. */
    method Walk(upstreamOf: Upstreams, childrenOf: map<Name, seq<Name>>, name: Name, depth: nat)
      returns (ghost block: seq<Entry>)
      requires Inverts(upstreamOf, childrenOf)
      modifies this
      ensures ordered == old(ordered) + block && seen == old(seen) + Names(block)
      ensures Walked(upstreamOf, block, name, depth, old(seen))
      decreases upstreamOf.Keys + {name} - seen
    {
      block := [];
      if name in seen {
        return;
      }
      seen := seen + {name};
      ordered := ordered + [Entry(name, depth)];
      block := [Entry(name, depth)];
      ghost var before := old(seen);
      var kids := Kids(childrenOf, name);
      assert AreKids(upstreamOf, kids, name);
      for i := 0 to |kids|
        invariant ordered == old(ordered) + block && seen == before + Names(block)
        invariant Progress(upstreamOf, block, name, depth, kids, i, before)
        invariant name in seen
      {
        KidIsBranch(upstreamOf, kids, name, i);
        ghost var more := Walk(upstreamOf, childrenOf, kids[i], depth + 1);
        ProgressStep(upstreamOf, block, more, name, depth, kids, i, before);
        Regroup(old(ordered), block, more);
        block := block + more;
      }
    }
  }

  // ---- the whole stack ----

  /** Walks up to the root of the stack, then lists everything below it. */
  method BranchStack(upstreamOf: Upstreams, current: Name, defaultBranch: Name)
    returns (ordered: seq<Entry>, ghost root: Name)
    requires current != ""
    ensures IsRoot(upstreamOf, current, defaultBranch, root)
    ensures Listing(upstreamOf, ordered, root, 0)
    ensures forall b :: b in Names(ordered) <==> Reaches(upstreamOf, b, root)
    ensures current in Names(ordered)
  {
    var top := FindRoot(upstreamOf, current, defaultBranch);
    root := top;
    var childrenOf := ChildrenOf(upstreamOf);
    var walker := new Walker();
    ghost var block := walker.Walk(upstreamOf, childrenOf, top, 0);
    ordered := walker.ordered;
    assert ordered == block;
    forall b
      ensures b in Names(ordered) <==> Reaches(upstreamOf, b, root)
    {
      ListedReachesRoot(upstreamOf, ordered, b);
      if Reaches(upstreamOf, b, root) {
        var n: nat :| Up(upstreamOf, b, n) == root;
        assert block[0].name in Names(block);
        BelowIsListed(upstreamOf, Names(block), root, b, n);
      }
    }
  }

  lemma {:induction false} EntryReachesRoot(upstreamOf: Upstreams, list: seq<Entry>, i: nat)
    requires Subtree(upstreamOf, list) && i < |list| && list[0].name != ""
    ensures Reaches(upstreamOf, list[i].name, list[0].name)
  {
    if i == 0 {
      assert Up(upstreamOf, list[0].name, 0) == list[0].name;
    } else {
      assert HangsSomewhere(upstreamOf, list, i);
      var j: nat :| HangsFrom(upstreamOf, list, i, j);
      EntryReachesRoot(upstreamOf, list, j);
      ReachesUnfold(upstreamOf, list[i].name, list[0].name);
    }
  }

  lemma ListedReachesRoot(upstreamOf: Upstreams, list: seq<Entry>, b: Name)
    requires Subtree(upstreamOf, list) && list[0].name != ""
    ensures b in Names(list) ==> Reaches(upstreamOf, b, list[0].name)
  {
    if b in Names(list) {
      var e :| e in list && e.name == b;
      var i: nat :| i < |list| && list[i] == e;
      EntryReachesRoot(upstreamOf, list, i);
    }
  }

  lemma {:induction false} BelowIsListed(upstreamOf: Upstreams, names: set<Name>, root: Name, b: Name, n: nat)
    requires ClosedBelow(upstreamOf, names, names, {}) && root in names && root != ""
    requires Up(upstreamOf, b, n) == root
    ensures b in names
    decreases n
  {
    if b != "" && n > 0 {
      BelowIsListed(upstreamOf, names, root, ParentOf(upstreamOf, b), n - 1);
      if b in upstreamOf {
        assert IsChild(upstreamOf, b, ParentOf(upstreamOf, b));
      }
    }
  }

  /** Depths start at the root's and rise by at most one, which the nested markup relies on. */
  lemma DepthsRiseByOne(upstreamOf: Upstreams, list: seq<Entry>, i: nat)
    requires Subtree(upstreamOf, list) && i + 1 < |list|
    ensures list[0].depth < list[i + 1].depth <= list[i].depth + 1
  {
    assert HangsSomewhere(upstreamOf, list, i + 1);
    var j: nat :| HangsFrom(upstreamOf, list, i + 1, j);
  }

  /** The contract leaves no choice: a listing of the same branches from the same root is the same list,
      so the result does not depend on the order in which the maps are traversed. */
  lemma ListingIsUnique(upstreamOf: Upstreams, a: seq<Entry>, b: seq<Entry>, root: Name)
    requires Listing(upstreamOf, a, root, 0) && Listing(upstreamOf, b, root, 0) && Names(a) == Names(b)
    ensures a == b
  {
    SamePrefix(upstreamOf, a, b, root, |a|);
    SamePrefix(upstreamOf, b, a, root, |b|);
  }

  lemma {:induction false} SamePrefix(upstreamOf: Upstreams, a: seq<Entry>, b: seq<Entry>, root: Name, k: nat)
    requires Listing(upstreamOf, a, root, 0) && Listing(upstreamOf, b, root, 0) && Names(a) == Names(b)
    requires k <= |a|
    ensures k <= |b| && a[..k] == b[..k]
    decreases k
  {
    if k > 1 {
      SamePrefix(upstreamOf, a, b, root, k - 1);
      NextIsSame(upstreamOf, a, b, root, k - 1);
      assert a[..k] == a[..k - 1] + [a[k - 1]] && b[..k] == b[..k - 1] + [b[k - 1]];
    } else if k == 1 {
      assert a[..1] == [a[0]] && b[..1] == [b[0]];
    }
  }

  lemma PositionOf(list: seq<Entry>, name: Name) returns (i: nat)
    requires name in Names(list)
    ensures i < |list| && list[i].name == name
  {
    var e :| e in list && e.name == name;
    i :| i < |list| && list[i] == e;
  }

  lemma UpstreamPosition(upstreamOf: Upstreams, list: seq<Entry>, i: nat) returns (j: nat)
    requires Subtree(upstreamOf, list) && 0 < i < |list|
    ensures HangsFrom(upstreamOf, list, i, j)
  {
    assert HangsSomewhere(upstreamOf, list, i);
    j :| HangsFrom(upstreamOf, list, i, j);
  }

  /** Where the other listing, equal up to k, has the entry that this one has at k. */
  lemma LaterElsewhere(upstreamOf: Upstreams, a: seq<Entry>, b: seq<Entry>, k: nat) returns (p: nat, xb: nat)
    requires Subtree(upstreamOf, a) && Subtree(upstreamOf, b) && NoRepeat(a) && NoRepeat(b) && Names(a) == Names(b)
    requires 0 < k < |a| && k <= |b| && forall i :: 0 <= i < k ==> a[i] == b[i]
    ensures k <= xb < |b| && b[xb].name == a[k].name
    ensures HangsFrom(upstreamOf, a, k, p) && HangsFrom(upstreamOf, b, xb, p)
  {
    p := UpstreamPosition(upstreamOf, a, k);
    assert a[k].name in Names(a);
    xb := PositionOf(b, a[k].name);
    var q := UpstreamPosition(upstreamOf, b, xb);
    assert b[q].name == a[p].name == b[p].name;
  }

  lemma NextIsSame(upstreamOf: Upstreams, a: seq<Entry>, b: seq<Entry>, root: Name, k: nat)
    requires Listing(upstreamOf, a, root, 0) && Listing(upstreamOf, b, root, 0) && Names(a) == Names(b)
    requires 0 < k < |a| && k <= |b| && a[..k] == b[..k]
    ensures k < |b| && a[k] == b[k]
  {
    assert forall i :: 0 <= i < k ==> a[i] == a[..k][i] == b[..k][i] == b[i];
    var p, xb := LaterElsewhere(upstreamOf, a, b, k);
    var q, ya := LaterElsewhere(upstreamOf, b, a, k);
    assert p == q;
    if k < xb && k < ya {
      LessIsTotal(a[k].name, b[k].name);
    }
  }
}
