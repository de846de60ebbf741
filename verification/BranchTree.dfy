/** The nested markup of a branch stack: tags written left to right from a list of depths. */
module BranchTree {
  import opened BranchStack
  import opened Prelude

  /** The tags that matter for nesting, with a node's mark and its row. */
  datatype Tag = OpenNode(last: bool) | Row(name: Name, archive: bool) | CloseNode | OpenKids | CloseKids

  datatype Tree = Node(last: bool, name: Name, archive: bool, kids: Forest)

  /** Sibling trees, the rightmost on the outside. */
  datatype Forest = Empty | Grow(left: Forest, right: Tree)

  // ---- what the renderer writes ----

  /** Entry i has a later sibling: an equally deep entry with only deeper ones between. */
  ghost predicate LaterSibling(list: seq<Entry>, i: nat)
    requires i < |list|
  {
    exists j :: i < j < |list| && list[j].depth == list[i].depth && DeeperBetween(list, i, j)
  }

  ghost predicate DeeperBetween(list: seq<Entry>, i: nat, j: nat)
    requires i < j <= |list|
  {
    forall k :: i < k < j ==> list[k].depth > list[i].depth
  }

  method IsLastSibling(list: seq<Entry>, i: nat) returns (last: bool)
    requires i < |list|
    ensures last <==> !LaterSibling(list, i)
  {
    var depth := list[i].depth;
    for j := i + 1 to |list|
      invariant DeeperBetween(list, i, j)
    {
      if list[j].depth <= depth {
        assert list[j].depth == depth ==> DeeperBetween(list, i, j);
        assert list[j].depth < depth ==> forall k :: j < k < |list| ==> !DeeperBetween(list, i, k);
        return list[j].depth < depth;
      }
    }
    return true;
  }

  /** The mark of entry i. At the top level it is the workstream's. */
  ghost function Mark(list: seq<Entry>, i: nat, isLastWs: bool): bool
    requires i < |list|
  {
    if list[i].depth == 0 then isLastWs else !LaterSibling(list, i)
  }

  ghost function Marks(list: seq<Entry>, isLastWs: bool): (marks: seq<bool>)
    ensures |marks| == |list|
  {
    seq(|list|, i requires 0 <= i < |list| => Mark(list, i, isLastWs))
  }

  /** n nodes closed from the inside, with the containers between them. */
  function Closers(n: nat): seq<Tag> {
    if n == 0 then [] else if n == 1 then [CloseNode] else [CloseNode, CloseKids] + Closers(n - 1)
  }

  /** What is written between two entries' nodes. */
  function Between(prevDepth: int, depth: nat): seq<Tag>
    requires prevDepth >= -1
  {
    if prevDepth == -1 then [] else if depth <= prevDepth then Closers(prevDepth - depth + 1) else [OpenKids]
  }

  function DepthBefore(list: seq<Entry>, i: nat): (d: int)
    requires i <= |list|
    ensures d >= -1
  {
    if i == 0 then -1 else list[i - 1].depth
  }

  /** Everything written before entry i, up to the tags between. */
  ghost function Written(list: seq<Entry>, marks: seq<bool>, i: nat): seq<Tag>
    requires i <= |list| == |marks|
  {
    if i == 0 then []
    else Written(list, marks, i - 1) + Between(DepthBefore(list, i - 1), list[i - 1].depth)
         + [OpenNode(marks[i - 1]), Row(list[i - 1].name, list[i - 1].depth == 0)]
  }

  ghost function Markup(list: seq<Entry>, isLastWs: bool): seq<Tag> {
    Written(list, Marks(list, isLastWs), |list|) + Closers(DepthBefore(list, |list|) + 1)
  }

  lemma {:induction false} ClosersGrow(n: nat)
    requires n > 0
    ensures Closers(n + 1) == Closers(n) + [CloseKids, CloseNode]
  {
    if n > 1 {
      ClosersGrow(n - 1);
    }
  }

  /** Closes the nodes at depths from `from` down to `to`, and the containers between them. */
  method CloseNodes(b: seq<Tag>, from: int, to: nat) returns (b': seq<Tag>)
    requires from >= to - 1
    ensures b' == b + Closers(from - to + 1)
  {
    b' := b;
    var d: int := from;
    while d >= to
      invariant to - 1 <= d <= from
      invariant b' + Closers(d - to + 1) == b + Closers(from - to + 1)
    {
      b' := b' + [CloseNode];
      if d > to {
        b' := b' + [CloseKids];
      }
      d := d - 1;
    }
  }

  /** The node of entry i is opened and its row written, after the nodes that end there are closed. */
  method RenderEntry(b: seq<Tag>, list: seq<Entry>, i: nat, prevDepth: int, isLastWs: bool) returns (b': seq<Tag>)
    requires i < |list| && prevDepth == DepthBefore(list, i)
    ensures b' == b + Between(prevDepth, list[i].depth)
                  + [OpenNode(Mark(list, i, isLastWs)), Row(list[i].name, list[i].depth == 0)]
  {
    b' := b;
    var depth := list[i].depth;
    if i > 0 && depth <= prevDepth {
      b' := CloseNodes(b', prevDepth, depth);
    }
    if i > 0 && depth > prevDepth {
      b' := b' + [OpenKids];
    }
    var lastClass := isLastWs;
    if depth != 0 {
      lastClass := IsLastSibling(list, i);
    }
    b' := b' + [OpenNode(lastClass), Row(list[i].name, depth == 0)];
  }

  method RenderBranchTree(list: seq<Entry>, isLastWs: bool) returns (b: seq<Tag>)
    ensures b == Markup(list, isLastWs)
  {
    b := [];
    ghost var marks := Marks(list, isLastWs);
    var prevDepth: int := -1;
    for i := 0 to |list|
      invariant prevDepth == DepthBefore(list, i) && b == Written(list, marks, i)
    {
      b := RenderEntry(b, list, i, prevDepth, isLastWs);
      prevDepth := list[i].depth;
    }
    b := CloseNodes(b, prevDepth, 0);
  }

  // ---- forests and their markup ----

  function Print(forest: Forest): seq<Tag> {
    match forest
    case Empty => []
    case Grow(left, t) => Print(left) + PrintTree(t)
  }

  function PrintTree(t: Tree): seq<Tag> {
    if t.kids == Empty then Head(t) + [CloseNode] else Head(t) + [OpenKids] + Print(t.kids) + [CloseKids, CloseNode]
  }

  function Head(t: Tree): seq<Tag> {
    [OpenNode(t.last), Row(t.name, t.archive)]
  }

  function Decode(tags: seq<Tag>): Option<Forest> {
    match ReadForest(Empty, tags)
    case Some((forest, rest)) => if rest == [] then Some(forest) else None
    case None => None
  }

  /** Adds nodes to a forest until something else comes. */
  function ReadForest(forest: Forest, tags: seq<Tag>): (r: Option<(Forest, seq<Tag>)>)
    ensures r.Some? ==> |r.value.1| <= |tags|
    decreases |tags|, 1
  {
    if tags == [] || !tags[0].OpenNode? then Some((forest, tags)) else
    match ReadTree(tags)
    case None => None
    case Some((t, rest)) => ReadForest(Grow(forest, t), rest)
  }

  function ReadTree(tags: seq<Tag>): (r: Option<(Tree, seq<Tag>)>)
    ensures r.Some? ==> |r.value.1| < |tags|
    decreases |tags|, 0
  {
    if |tags| < 3 || !tags[0].OpenNode? || !tags[1].Row? then None
    else if tags[2] == CloseNode then Some((Node(tags[0].last, tags[1].name, tags[1].archive, Empty), tags[3..]))
    else if tags[2] != OpenKids then None else
    match ReadForest(Empty, tags[3..])
    case None => None
    case Some((kids, rest)) =>
      if |rest| >= 2 && rest[0] == CloseKids && rest[1] == CloseNode && kids != Empty
      then Some((Node(tags[0].last, tags[1].name, tags[1].archive, kids), rest[2..]))
      else None
  }

  /** Both forests' trees, left's first. */
  function Join(left: Forest, right: Forest): Forest {
    match right
    case Empty => left
    case Grow(r, t) => Grow(Join(left, r), t)
  }

  lemma {:induction false} JoinEmpty(forest: Forest)
    ensures Join(Empty, forest) == forest
  {
    if forest.Grow? {
      JoinEmpty(forest.left);
    }
  }

  /** Reading a printed forest goes on with what follows it. */
  lemma {:induction false} ReadUndoesPrint(left: Forest, forest: Forest, rest: seq<Tag>)
    ensures ReadForest(left, Print(forest) + rest) == ReadForest(Join(left, forest), rest)
    decreases forest
  {
    match forest {
      case Empty => assert Print(forest) + rest == rest;
      case Grow(front, t) =>
        assert Print(forest) + rest == Print(front) + (PrintTree(t) + rest);
        ReadUndoesPrint(left, front, PrintTree(t) + rest);
        ReadTreeUndoesPrint(t, rest);
    }
  }

  lemma {:induction false} ReadTreeUndoesPrint(t: Tree, rest: seq<Tag>)
    ensures ReadTree(PrintTree(t) + rest) == Some((t, rest))
    decreases t
  {
    var tags := PrintTree(t) + rest;
    if t.kids == Empty {
      assert tags[3..] == rest;
    } else {
      var after := [CloseKids, CloseNode] + rest;
      assert tags[3..] == Print(t.kids) + after;
      ReadUndoesPrint(Empty, t.kids, after);
      JoinEmpty(t.kids);
      assert after[2..] == rest;
    }
  }

  lemma DecodeUndoesPrint(forest: Forest)
    ensures Decode(Print(forest)) == Some(forest)
  {
    ReadUndoesPrint(Empty, forest, []);
    JoinEmpty(forest);
    assert Print(forest) + [] == Print(forest);
  }

  // ---- the forest a list of depths stands for ----

  /** The forest with one more node at depth d of its right edge. */
  function Snoc(forest: Forest, d: nat, x: Tree): Forest
    decreases d
  {
    if d == 0 || forest == Empty then Grow(forest, x)
    else Grow(forest.left, forest.right.(kids := Snoc(forest.right.kids, d - 1, x)))
  }

  /** The depth of the last node in preorder. */
  function Edge(forest: Forest): (d: int)
    ensures d >= -1
  {
    if forest == Empty then -1 else Edge(forest.right.kids) + 1
  }

  ghost function Leaf(list: seq<Entry>, marks: seq<bool>, i: nat): Tree
    requires i < |list| == |marks|
  {
    Node(marks[i], list[i].name, list[i].depth == 0, Empty)
  }

  ghost function ForestOf(list: seq<Entry>, marks: seq<bool>, i: nat): Forest
    requires i <= |list| == |marks|
  {
    if i == 0 then Empty else Snoc(ForestOf(list, marks, i - 1), list[i - 1].depth, Leaf(list, marks, i - 1))
  }

  /** The nodes of a forest in preorder, with depths. */
  function Flat(forest: Forest, depth: nat): seq<Entry> {
    match forest
    case Empty => []
    case Grow(left, t) => Flat(left, depth) + ([Entry(t.name, depth)] + Flat(t.kids, depth + 1))
  }

  /** Depths start at 0 and rise by at most one, as in every listing of a branch stack. */
  predicate Rising(list: seq<Entry>) {
    forall i {:trigger DepthBefore(list, i)} :: 0 <= i < |list| ==> list[i].depth <= DepthBefore(list, i) + 1
  }

  lemma {:induction false} SnocEdge(forest: Forest, d: nat, x: Tree)
    requires d <= Edge(forest) + 1 && x.kids == Empty
    ensures Edge(Snoc(forest, d, x)) == d && Snoc(forest, d, x) != Empty
    decreases d
  {
    if d > 0 {
      SnocEdge(forest.right.kids, d - 1, x);
    }
  }

  lemma {:induction false} ForestEdge(list: seq<Entry>, marks: seq<bool>, i: nat)
    requires Rising(list) && i <= |list| == |marks|
    ensures Edge(ForestOf(list, marks, i)) == DepthBefore(list, i)
  {
    if i > 0 {
      ForestEdge(list, marks, i - 1);
      SnocEdge(ForestOf(list, marks, i - 1), list[i - 1].depth, Leaf(list, marks, i - 1));
    }
  }

  lemma {:induction false} FlatSnoc(forest: Forest, d: nat, x: Tree, depth: nat)
    requires d <= Edge(forest) + 1 && x.kids == Empty
    ensures Flat(Snoc(forest, d, x), depth) == Flat(forest, depth) + [Entry(x.name, depth + d)]
    decreases d
  {
    if d > 0 {
      FlatSnoc(forest.right.kids, d - 1, x, depth + 1);
    }
  }

  /** The forest has the listed preorder and depths. */
  lemma {:induction false} ForestFlattens(list: seq<Entry>, marks: seq<bool>, i: nat)
    requires Rising(list) && i <= |list| == |marks|
    ensures Flat(ForestOf(list, marks, i), 0) == list[..i]
  {
    if i > 0 {
      ForestFlattens(list, marks, i - 1);
      ForestEdge(list, marks, i - 1);
      FlatSnoc(ForestOf(list, marks, i - 1), list[i - 1].depth, Leaf(list, marks, i - 1), 0);
      assert list[..i] == list[..i - 1] + [list[i - 1]];
    }
  }

  // ---- the markup is the forest's ----

  /** The markup of a forest up to the tags that close its right edge. */
  function Opened(forest: Forest): seq<Tag> {
    match forest
    case Empty => []
    case Grow(left, t) =>
      if t.kids == Empty then Print(left) + Head(t) else Print(left) + Head(t) + [OpenKids] + Opened(t.kids)
  }

  lemma {:induction false} PrintIsOpenedThenClosed(forest: Forest)
    ensures Print(forest) == Opened(forest) + Closers(Edge(forest) + 1)
  {
    if forest.Grow? {
      var t := forest.right;
      if t.kids == Empty {
        assert Closers(Edge(forest) + 1) == [CloseNode];
      } else {
        PrintIsOpenedThenClosed(t.kids);
        ClosersGrow(Edge(t.kids) + 1);
        calc {
          Print(forest);
          Print(forest.left) + Head(t) + [OpenKids] + (Opened(t.kids) + Closers(Edge(t.kids) + 1)) + [CloseKids, CloseNode];
          Opened(forest) + (Closers(Edge(t.kids) + 1) + [CloseKids, CloseNode]);
        }
      }
    }
  }

  lemma OpenedFirstKid(forest: Forest, x: Tree)
    requires forest.Grow? && forest.right.kids == Empty && x.kids == Empty
    ensures Opened(Snoc(forest, 1, x)) == Opened(forest) + Between(Edge(forest), 1) + Head(x)
  {
    var u := forest.right.(kids := Grow(Empty, x));
    assert Snoc(forest, 1, x) == Grow(forest.left, u);
    assert Opened(u.kids) == Head(x);
  }

  lemma {:induction false} OpenedSnoc(forest: Forest, d: nat, x: Tree)
    requires d <= Edge(forest) + 1 && x.kids == Empty
    ensures Opened(Snoc(forest, d, x)) == Opened(forest) + Between(Edge(forest), d) + Head(x)
    decreases d
  {
    if d == 0 {
      PrintIsOpenedThenClosed(forest);
    } else if forest.right.kids == Empty {
      OpenedFirstKid(forest, x);
    } else {
      var t := forest.right;
      SnocEdge(t.kids, d - 1, x);
      OpenedSnoc(t.kids, d - 1, x);
      var u := t.(kids := Snoc(t.kids, d - 1, x));
      var before := Print(forest.left) + Head(t) + [OpenKids];
      assert Opened(Grow(forest.left, u)) == before + Opened(u.kids);
      assert Between(Edge(forest), d) == Between(Edge(t.kids), d - 1);
      Regroup(before, Opened(t.kids) + Between(Edge(t.kids), d - 1), Head(x));
      Regroup(before, Opened(t.kids), Between(Edge(t.kids), d - 1));
    }
  }

  lemma {:induction false} WrittenIsOpened(list: seq<Entry>, marks: seq<bool>, i: nat)
    requires Rising(list) && i <= |list| == |marks|
    ensures Written(list, marks, i) == Opened(ForestOf(list, marks, i))
  {
    if i > 0 {
      WrittenIsOpened(list, marks, i - 1);
      ForestEdge(list, marks, i - 1);
      OpenedSnoc(ForestOf(list, marks, i - 1), list[i - 1].depth, Leaf(list, marks, i - 1));
    }
  }

  // ---- the marks are the forest's ----

  function Size(forest: Forest): nat {
    match forest
    case Empty => 0
    case Grow(left, t) => Size(left) + 1 + Size(t.kids)
  }

  lemma {:induction false} FlatSize(forest: Forest, depth: nat)
    ensures |Flat(forest, depth)| == Size(forest)
    ensures forall e :: e in Flat(forest, depth) ==> e.depth >= depth
  {
    if forest.Grow? {
      FlatSize(forest.left, depth);
      FlatSize(forest.right.kids, depth + 1);
    }
  }

  /** The forest's nodes carry the marks and archive buttons of the entries from `at` on. */
  ghost predicate Carries(forest: Forest, list: seq<Entry>, marks: seq<bool>, at: nat)
    requires |marks| == |list| && at + Size(forest) <= |list|
  {
    forest.Grow? ==>
      var root := at + Size(forest.left);
      && forest.right.last == marks[root] && forest.right.archive == (list[root].depth == 0)
      && Carries(forest.left, list, marks, at) && Carries(forest.right.kids, list, marks, root + 1)
  }

  lemma {:induction false} SnocSize(forest: Forest, d: nat, x: Tree)
    requires x.kids == Empty
    ensures Size(Snoc(forest, d, x)) == Size(forest) + 1
    decreases d
  {
    if d > 0 && forest.Grow? {
      SnocSize(forest.right.kids, d - 1, x);
    }
  }

  lemma {:induction false} CarriesSnoc(forest: Forest, d: nat, x: Tree, list: seq<Entry>, marks: seq<bool>, at: nat)
    requires |marks| == |list| && at + Size(forest) < |list| && x.kids == Empty
    requires Carries(forest, list, marks, at)
    requires var i := at + Size(forest); x.last == marks[i] && x.archive == (list[i].depth == 0)
    ensures Size(Snoc(forest, d, x)) == Size(forest) + 1 && Carries(Snoc(forest, d, x), list, marks, at)
    decreases d
  {
    SnocSize(forest, d, x);
    if d > 0 && forest.Grow? {
      CarriesSnoc(forest.right.kids, d - 1, x, list, marks, at + Size(forest.left) + 1);
    }
  }

  lemma {:induction false} ForestCarries(list: seq<Entry>, marks: seq<bool>, i: nat)
    requires i <= |list| == |marks|
    ensures Size(ForestOf(list, marks, i)) == i && Carries(ForestOf(list, marks, i), list, marks, 0)
  {
    if i > 0 {
      ForestCarries(list, marks, i - 1);
      CarriesSnoc(ForestOf(list, marks, i - 1), list[i - 1].depth, Leaf(list, marks, i - 1), list, marks, 0);
    }
  }

  /** Nested nodes are marked exactly if they are the rightmost of their siblings, top-level nodes exactly
      if the workstream is the last one, and only top-level nodes can be archived. */
  predicate WellMarked(forest: Forest, nested: bool, isLastWs: bool, rightmost: bool) {
    forest.Grow? ==>
      && forest.right.last == (if nested then rightmost else isLastWs)
      && forest.right.archive == !nested
      && WellMarked(forest.right.kids, true, isLastWs, true)
      && WellMarked(forest.left, nested, isLastWs, false)
  }

  /** What follows a forest's entries tells whether a sibling follows: a shallower entry or none, or an
      equally deep one. */
  ghost predicate Followed(list: seq<Entry>, end: nat, depth: nat, rightmost: bool) {
    if rightmost then end <= |list| && (end == |list| || list[end].depth < depth)
    else end < |list| && list[end].depth == depth
  }

  /** These entries are in the list from `at` on. */
  ghost predicate Matches(list: seq<Entry>, at: nat, mine: seq<Entry>) {
    at + |mine| <= |list| && forall k :: 0 <= k < |mine| ==> list[at + k] == mine[k]
  }

  lemma MatchesParts(list: seq<Entry>, at: nat, a: seq<Entry>, x: Entry, c: seq<Entry>)
    requires Matches(list, at, a + ([x] + c))
    ensures at + |a| + 1 + |c| <= |list| && Matches(list, at, a) && list[at + |a|] == x && Matches(list, at + |a| + 1, c)
  {
    var all := a + ([x] + c);
    forall k | 0 <= k < |a|
      ensures list[at + k] == a[k]
    {
      assert all[k] == a[k];
    }
    assert all[|a|] == x;
    forall k | 0 <= k < |c|
      ensures list[at + |a| + 1 + k] == c[k]
    {
      assert all[|a| + 1 + k] == c[k];
    }
  }

  lemma DeeperBehind(list: seq<Entry>, root: nat, kids: seq<Entry>, depth: nat)
    requires root < |list| && Matches(list, root + 1, kids) && list[root].depth == depth
    requires forall e :: e in kids ==> e.depth > depth
    ensures DeeperBetween(list, root, root + 1 + |kids|)
  {
    forall k | root < k < root + 1 + |kids|
      ensures list[k].depth > list[root].depth
    {
      assert list[root + 1 + (k - root - 1)] == kids[k - root - 1];
    }
  }

  lemma SplitEntries(left: Forest, t: Tree, list: seq<Entry>, at: nat, depth: nat)
    requires Matches(list, at, Flat(Grow(left, t), depth))
    ensures |Flat(left, depth)| == Size(left) && |Flat(t.kids, depth + 1)| == Size(t.kids)
    ensures Matches(list, at, Flat(left, depth)) && Matches(list, at + Size(left) + 1, Flat(t.kids, depth + 1))
    ensures at + Size(left) < |list| && list[at + Size(left)].depth == depth
    ensures at + Size(left) + 1 + Size(t.kids) <= |list|
    ensures DeeperBetween(list, at + Size(left), at + Size(left) + 1 + Size(t.kids))
  {
    FlatSize(left, depth);
    FlatSize(t.kids, depth + 1);
    MatchesParts(list, at, Flat(left, depth), Entry(t.name, depth), Flat(t.kids, depth + 1));
    DeeperBehind(list, at + Size(left), Flat(t.kids, depth + 1), depth);
  }

  /** The forest's nodes sit at the entries from `at` on, each with its descendants right behind it. */
  ghost predicate SitsAt(forest: Forest, list: seq<Entry>, at: nat, depth: nat)
    requires at + Size(forest) <= |list|
  {
    forest.Grow? ==>
      var root, end := at + Size(forest.left), at + Size(forest);
      && list[root].depth == depth && DeeperBetween(list, root, end)
      && SitsAt(forest.left, list, at, depth) && SitsAt(forest.right.kids, list, root + 1, depth + 1)
  }

  lemma {:induction false} FlatSits(forest: Forest, list: seq<Entry>, at: nat, depth: nat)
    requires at + Size(forest) <= |list| && Matches(list, at, Flat(forest, depth))
    ensures SitsAt(forest, list, at, depth)
    decreases forest
  {
    match forest {
      case Empty =>
      case Grow(left, t) =>
        SplitEntries(left, t, list, at, depth);
        FlatSits(left, list, at, depth);
        FlatSits(t.kids, list, at + Size(left) + 1, depth + 1);
        SitsFrom(left, t, list, at, depth);
    }
  }

  lemma SitsFrom(left: Forest, t: Tree, list: seq<Entry>, at: nat, depth: nat)
    requires at + Size(left) + 1 + Size(t.kids) <= |list| && SitsAt(left, list, at, depth)
    requires SitsAt(t.kids, list, at + Size(left) + 1, depth + 1)
    requires list[at + Size(left)].depth == depth && DeeperBetween(list, at + Size(left), at + Size(left) + 1 + Size(t.kids))
    ensures SitsAt(Grow(left, t), list, at, depth)
  {
  }

  lemma RootMarkIsRight(forest: Forest, list: seq<Entry>, isLastWs: bool, at: nat, depth: nat, rightmost: bool)
    requires forest.Grow? && at + Size(forest) <= |list| && SitsAt(forest, list, at, depth)
    requires Carries(forest, list, Marks(list, isLastWs), at) && Followed(list, at + Size(forest), depth, rightmost)
    ensures forest.right.last == (if depth > 0 then rightmost else isLastWs) && forest.right.archive == (depth == 0)
    ensures Followed(list, at + Size(forest.left), depth, false) && Followed(list, at + Size(forest), depth + 1, true)
  {
  }

  lemma {:induction false} CarriedMarksAreRight(forest: Forest, list: seq<Entry>, isLastWs: bool, at: nat, depth: nat,
                                                rightmost: bool)
    requires at + Size(forest) <= |list| && SitsAt(forest, list, at, depth)
    requires Carries(forest, list, Marks(list, isLastWs), at) && Followed(list, at + Size(forest), depth, rightmost)
    ensures WellMarked(forest, depth > 0, isLastWs, rightmost)
    decreases forest
  {
    if forest.Grow? {
      RootMarkIsRight(forest, list, isLastWs, at, depth, rightmost);
      CarriedMarksAreRight(forest.left, list, isLastWs, at, depth, false);
      CarriedMarksAreRight(forest.right.kids, list, isLastWs, at + Size(forest.left) + 1, depth + 1, true);
    }
  }

  /** The law of the branch tree: for every rising list of depths, the markup decodes, to the forest whose
      preorder is the list and whose nested nodes are marked exactly if no sibling follows. */
  lemma MarkupDecodesToTheForest(list: seq<Entry>, isLastWs: bool)
    requires Rising(list)
    ensures var decoded := Decode(Markup(list, isLastWs));
            decoded.Some? && Flat(decoded.value, 0) == list && WellMarked(decoded.value, false, isLastWs, true)
  {
    var forest := ForestOf(list, Marks(list, isLastWs), |list|);
    MarkupIsPrinted(list, isLastWs);
    DecodeUndoesPrint(forest);
    ForestFlattens(list, Marks(list, isLastWs), |list|);
    ForestCarries(list, Marks(list, isLastWs), |list|);
    FlatSits(forest, list, 0, 0);
    CarriedMarksAreRight(forest, list, isLastWs, 0, 0, true);
  }

  lemma MarkupIsPrinted(list: seq<Entry>, isLastWs: bool)
    requires Rising(list)
    ensures Markup(list, isLastWs) == Print(ForestOf(list, Marks(list, isLastWs), |list|))
  {
    var marks := Marks(list, isLastWs);
    WrittenIsOpened(list, marks, |list|);
    ForestEdge(list, marks, |list|);
    PrintIsOpenedThenClosed(ForestOf(list, marks, |list|));
  }

  /** Every listing of a branch stack is rising. */
  lemma StackIsRising(upstreamOf: Upstreams, list: seq<Entry>, root: Name)
    requires Listing(upstreamOf, list, root, 0)
    ensures Rising(list)
  {
    forall i | 0 <= i < |list|
      ensures list[i].depth <= DepthBefore(list, i) + 1
    {
      if i > 0 {
        DepthsRiseByOne(upstreamOf, list, i - 1);
      }
    }
  }

  // ---- and only for rising lists ----

  function Opens(tags: seq<Tag>): nat {
    if tags == [] then 0 else Opens(tags[..|tags| - 1]) + if tags[|tags| - 1].OpenNode? then 1 else 0
  }

  function Closes(tags: seq<Tag>): nat {
    if tags == [] then 0 else Closes(tags[..|tags| - 1]) + if tags[|tags| - 1].CloseNode? then 1 else 0
  }

  lemma {:induction false} CountConcat(a: seq<Tag>, b: seq<Tag>)
    ensures Opens(a + b) == Opens(a) + Opens(b) && Closes(a + b) == Closes(a) + Closes(b)
    decreases |b|
  {
    if b == [] {
      assert a + b == a;
    } else {
      assert (a + b)[..|a + b| - 1] == a + b[..|b| - 1];
      CountConcat(a, b[..|b| - 1]);
    }
  }

  lemma {:induction false} CountClosers(n: nat)
    ensures Opens(Closers(n)) == 0 && Closes(Closers(n)) == n
  {
    if n > 1 {
      CountClosers(n - 1);
      CountConcat([CloseNode, CloseKids], Closers(n - 1));
      CountConcat([CloseNode], [CloseKids]);
      assert [CloseNode] + [CloseKids] == [CloseNode, CloseKids];
    }
  }

  /** How many levels the first i depths skip when they rise. */
  function Skipped(list: seq<Entry>, i: nat): nat
    requires i <= |list|
  {
    if i == 0 then 0
    else Skipped(list, i - 1)
         + var rise := list[i - 1].depth - DepthBefore(list, i - 1); if rise > 1 then rise - 1 else 0
  }

  lemma {:induction false} CountWritten(list: seq<Entry>, marks: seq<bool>, i: nat)
    requires i <= |list| == |marks|
    ensures Opens(Written(list, marks, i)) == i
    ensures Closes(Written(list, marks, i)) + DepthBefore(list, i) + 1 == i + Skipped(list, i)
  {
    if i > 0 {
      CountWritten(list, marks, i - 1);
      var prev, depth := DepthBefore(list, i - 1), list[i - 1].depth;
      var node := [OpenNode(marks[i - 1]), Row(list[i - 1].name, depth == 0)];
      CountConcat(Written(list, marks, i - 1) + Between(prev, depth), node);
      CountConcat(Written(list, marks, i - 1), Between(prev, depth));
      CountBetween(prev, depth);
      CountNode(marks[i - 1], list[i - 1].name, depth == 0);
    }
  }

  lemma CountBetween(prev: int, depth: nat)
    requires prev >= -1
    ensures Opens(Between(prev, depth)) == 0
    ensures Closes(Between(prev, depth)) == if 0 <= prev && depth <= prev then prev - depth + 1 else 0
  {
    if 0 <= prev && depth <= prev {
      CountClosers(prev - depth + 1);
    } else if prev >= 0 {
      assert [OpenKids][..0] == [];
    }
  }

  lemma CountNode(last: bool, name: Name, archive: bool)
    ensures Opens([OpenNode(last), Row(name, archive)]) == 1 && Closes([OpenNode(last), Row(name, archive)]) == 0
  {
    assert [OpenNode(last)] + [Row(name, archive)] == [OpenNode(last), Row(name, archive)];
    CountConcat([OpenNode(last)], [Row(name, archive)]);
  }

  lemma {:induction false} SkippedIffNotRising(list: seq<Entry>, i: nat)
    requires i <= |list|
    ensures Skipped(list, i) == 0 <==>
            forall k {:trigger DepthBefore(list, k)} :: 0 <= k < i ==> list[k].depth <= DepthBefore(list, k) + 1
  {
    if i > 0 {
      SkippedIffNotRising(list, i - 1);
    }
  }

  /** A list that skips a level gets more closing than opening tags, one for each level skipped. */
  lemma MarkupBalancesIffRising(list: seq<Entry>, isLastWs: bool)
    ensures Opens(Markup(list, isLastWs)) == |list|
    ensures Closes(Markup(list, isLastWs)) == |list| <==> Rising(list)
  {
    var marks, closers := Marks(list, isLastWs), Closers(DepthBefore(list, |list|) + 1);
    CountWritten(list, marks, |list|);
    CountClosers(DepthBefore(list, |list|) + 1);
    CountConcat(Written(list, marks, |list|), closers);
    SkippedIffNotRising(list, |list|);
  }
}
