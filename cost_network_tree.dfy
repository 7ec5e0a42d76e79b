// The cost-driver tree of the radial network view: visible-leaf counting,
// pre-order search, colour and size rules, and the recursive angular layout.
// Angles are measured in turns (1 turn = 2π radians); the Cartesian position
// cos/sin(mid angle) · ring radius is not modelled.
module CostNetworkTree {
  import opened Common

  datatype Kind = Root | Process | Element | Driver | Detail | SubDetail | Micro | Action

  /** A node of the network (`name` is the source's `label`); an absent `children` array is the empty sequence. */
  datatype Node = Node(
    id: string, name: string, value: real, variance: real,
    kind: Kind, children: seq<Node>, relation: Option<string>)

  // -----------------------------------------------------------------
  // Visible leaves
  // -----------------------------------------------------------------

  /** The node is expanded and has at least one child. */
  predicate Expands(n: Node, expanded: set<string>)
  {
    n.id in expanded && |n.children| > 0
  }

  /** Leaves of the currently visible subtree under n. */
  function CountLeaves(n: Node, expanded: set<string>): (r: nat)
    ensures r >= 1
    ensures !Expands(n, expanded) ==> r == 1
    decreases n
  {
    if !Expands(n, expanded) then 1 else SumLeaves(n.children, expanded)
  }

  /** Σ CountLeaves over a list of siblings (the `reduce` of the source). */
  function SumLeaves(cs: seq<Node>, expanded: set<string>): (r: nat)
    ensures r >= |cs|
    decreases cs
  {
    if cs == [] then 0 else SumLeaves(cs[..|cs| - 1], expanded) + CountLeaves(cs[|cs| - 1], expanded)
  }

  /** Expanding more ids never decreases a leaf count. */
  lemma {:induction false} CountLeavesMonotone(n: Node, e1: set<string>, e2: set<string>)
    requires e1 <= e2
    ensures CountLeaves(n, e1) <= CountLeaves(n, e2)
    decreases n
  {
    if Expands(n, e1) {
      SumLeavesMonotone(n.children, e1, e2);
    }
  }

  lemma {:induction false} SumLeavesMonotone(cs: seq<Node>, e1: set<string>, e2: set<string>)
    requires e1 <= e2
    ensures SumLeaves(cs, e1) <= SumLeaves(cs, e2)
    decreases cs
  {
    if cs != [] {
      SumLeavesMonotone(cs[..|cs| - 1], e1, e2);
      CountLeavesMonotone(cs[|cs| - 1], e1, e2);
    }
  }

  // -----------------------------------------------------------------
  // Pre-order search
  // -----------------------------------------------------------------

  /** All nodes of the tree in pre-order. */
  function Subtrees(t: Node): (r: seq<Node>)
    ensures |r| >= 1 && r[0] == t
    decreases t
  {
    [t] + SubtreesAll(t.children)
  }

  function SubtreesAll(cs: seq<Node>): seq<Node>
    decreases cs
  {
    if cs == [] then [] else Subtrees(cs[0]) + SubtreesAll(cs[1..])
  }

  /** The ids of a list of nodes. */
  function IdsOf(s: seq<Node>): set<string>
  {
    set n | n in s :: n.id
  }

  /** Every id of the tree under t, t included. */
  function IdSet(t: Node): set<string>
  {
    IdsOf(Subtrees(t))
  }

  /** No two nodes of the tree share an id. */
  predicate UniqueIds(t: Node)
  {
    var s := Subtrees(t);
    forall i, j :: 0 <= i < j < |s| ==> s[i].id != s[j].id
  }

  /** Reference definition: the first element of a list with the given id. */
  function FirstWithId(s: seq<Node>, id: string): Option<Node>
  {
    if s == [] then None else if s[0].id == id then Some(s[0]) else FirstWithId(s[1..], id)
  }

  /** Depth-first search: the node itself, then each child's subtree in order. */
  function FindNode(t: Node, id: string): (r: Option<Node>)
    ensures r.Some? ==> r.value.id == id
    decreases t
  {
    if t.id == id then Some(t) else FindIn(t.children, id)
  }

  function FindIn(cs: seq<Node>, id: string): (r: Option<Node>)
    ensures r.Some? ==> r.value.id == id
    decreases cs
  {
    if cs == [] then None
    else match FindNode(cs[0], id)
      case Some(n) => Some(n)
      case None => FindIn(cs[1..], id)
  }

  lemma {:induction false} FirstWithIdAppend(a: seq<Node>, b: seq<Node>, id: string)
    ensures FirstWithId(a + b, id) == if FirstWithId(a, id).Some? then FirstWithId(a, id) else FirstWithId(b, id)
  {
    if a != [] {
      assert (a + b)[1..] == a[1..] + b;
      FirstWithIdAppend(a[1..], b, id);
    } else {
      assert a + b == b;
    }
  }

  /** findNode returns the first node in pre-order whose id matches. */
  lemma {:induction false} FindNodeIsFirst(t: Node, id: string)
    ensures FindNode(t, id) == FirstWithId(Subtrees(t), id)
    decreases t
  {
    FindInIsFirst(t.children, id);
    assert ([t] + SubtreesAll(t.children))[1..] == SubtreesAll(t.children);
  }

  lemma {:induction false} FindInIsFirst(cs: seq<Node>, id: string)
    ensures FindIn(cs, id) == FirstWithId(SubtreesAll(cs), id)
    decreases cs
  {
    if cs != [] {
      FindNodeIsFirst(cs[0], id);
      FindInIsFirst(cs[1..], id);
      FirstWithIdAppend(Subtrees(cs[0]), SubtreesAll(cs[1..]), id);
    }
  }

  lemma {:induction false} FirstWithIdNone(s: seq<Node>, id: string)
    ensures FirstWithId(s, id).None? <==> id !in IdsOf(s)
  {
    if s != [] {
      FirstWithIdNone(s[1..], id);
      assert s == [s[0]] + s[1..];
    }
  }

  /** findNode yields null exactly when no node of the tree has that id. */
  lemma FindNodeNone(t: Node, id: string)
    ensures FindNode(t, id).None? <==> id !in IdSet(t)
  {
    FindNodeIsFirst(t, id);
    FirstWithIdNone(Subtrees(t), id);
  }

  lemma {:induction false} FirstWithIdMember(s: seq<Node>, id: string)
    ensures FirstWithId(s, id).Some? ==> FirstWithId(s, id).value in s
  {
    if s != [] && s[0].id != id {
      FirstWithIdMember(s[1..], id);
    }
  }

  /** What findNode returns is a node of the tree. */
  lemma FindNodeIn(t: Node, id: string)
    ensures FindNode(t, id).Some? ==> FindNode(t, id).value in Subtrees(t)
  {
    FindNodeIsFirst(t, id);
    FirstWithIdMember(Subtrees(t), id);
  }

  lemma {:induction false} FirstWithIdAt(s: seq<Node>, j: nat)
    requires j < |s| && forall i :: 0 <= i < j ==> s[i].id != s[j].id
    ensures FirstWithId(s, s[j].id) == Some(s[j])
  {
    if j > 0 {
      FirstWithIdAt(s[1..], j - 1);
    }
  }

  /** With unique ids, searching for any node's id finds that very node. */
  lemma FindUnique(t: Node, n: Node)
    requires UniqueIds(t) && n in Subtrees(t)
    ensures FindNode(t, n.id) == Some(n)
  {
    var s := Subtrees(t);
    var j :| 0 <= j < |s| && s[j] == n;
    FirstWithIdAt(s, j);
    FindNodeIsFirst(t, n.id);
  }

  lemma {:induction false} SubtreesAllMember(cs: seq<Node>, m: Node)
    ensures m in SubtreesAll(cs) <==> exists c :: c in cs && m in Subtrees(c)
    decreases cs
  {
    if cs != [] {
      SubtreesAllMember(cs[1..], m);
      if m in SubtreesAll(cs) {
        if m in Subtrees(cs[0]) {
          assert cs[0] in cs;
        } else {
          var c :| c in cs[1..] && m in Subtrees(c);
          assert c in cs;
        }
      }
      if exists c :: c in cs && m in Subtrees(c) {
        var c :| c in cs && m in Subtrees(c);
        if c != cs[0] {
          assert cs == [cs[0]] + cs[1..];
          assert c in cs[1..];
        }
      }
    }
  }

  /** A subtree of a subtree is a subtree. */
  lemma {:induction false} SubtreeTransitive(t: Node, n: Node, m: Node)
    requires n in Subtrees(t) && m in Subtrees(n)
    ensures m in Subtrees(t)
    decreases t
  {
    if n != t {
      SubtreesAllMember(t.children, n);
      var c :| c in t.children && n in Subtrees(c);
      SubtreeTransitive(c, n, m);
      SubtreesAllMember(t.children, m);
    }
  }

  lemma ChildIsSubtree(n: Node, c: Node)
    requires c in n.children
    ensures c in Subtrees(n)
  {
    SubtreesAllMember(n.children, c);
  }

  lemma {:induction false} SubtreesAllSnoc(cs: seq<Node>, c: Node)
    ensures SubtreesAll(cs + [c]) == SubtreesAll(cs) + Subtrees(c)
    decreases cs
  {
    if cs == [] {
      assert [c][1..] == [];
    } else {
      assert (cs + [c])[1..] == cs[1..] + [c];
      SubtreesAllSnoc(cs[1..], c);
    }
  }

  /** The ids under t are t's own id and the ids under each child. */
  lemma IdSetSplit(t: Node)
    ensures IdSet(t) == {t.id} + IdsOf(SubtreesAll(t.children))
  {
    assert Subtrees(t) == [t] + SubtreesAll(t.children);
  }

  lemma IdsOfAppend(a: seq<Node>, b: seq<Node>)
    ensures IdsOf(a + b) == IdsOf(a) + IdsOf(b)
  {
  }

  // -----------------------------------------------------------------
  // Colour and size rules
  // -----------------------------------------------------------------

  datatype Colour = Red | Orange | Yellow | LightBlue | Blue

  function Hex(c: Colour): string
  {
    match c
    case Red => "#ef4444"
    case Orange => "#f97316"
    case Yellow => "#eab308"
    case LightBlue => "#60a5fa"
    case Blue => "#3b82f6"
  }

  /** Five buckets with strict lower bounds 10, 5, 0 and -5. */
  function NodeColour(variance: real): (c: Colour)
    ensures c == Red <==> variance > 10.0
    ensures c == Orange <==> 5.0 < variance <= 10.0
    ensures c == Yellow <==> 0.0 < variance <= 5.0
    ensures c == LightBlue <==> -5.0 < variance <= 0.0
    ensures c == Blue <==> variance <= -5.0
  {
    if variance > 10.0 then Red
    else if variance > 5.0 then Orange
    else if variance > 0.0 then Yellow
    else if variance > -5.0 then LightBlue
    else Blue
  }

  /** NODE_SIZES (every kind has an entry, so the `|| 30` fallback never applies). */
  function NodeSize(k: Kind): (r: int)
    ensures 24 <= r <= 82
  {
    match k
    case Root => 82
    case Process => 68
    case Element => 58
    case Driver => 48
    case Detail => 40
    case SubDetail => 34
    case Micro => 28
    case Action => 24
  }

  /** Half the base size, scaled up by |variance|/40 and by at most one half. */
  function NodeRadius(k: Kind, variance: real): (r: real)
    ensures NodeSize(k) as real / 2.0 <= r <= 0.75 * NodeSize(k) as real
    ensures Abs(variance) >= 20.0 ==> r == 0.75 * NodeSize(k) as real
  {
    var base := NodeSize(k) as real;
    var scale := 1.0 + Min(Abs(variance) / 40.0, 0.5);
    base * scale / 2.0
  }

  /** The radius depends on |variance| only, and grows with it. */
  lemma {:induction false} RadiusByMagnitude(k: Kind, a: real, b: real)
    ensures Abs(a) == Abs(b) ==> NodeRadius(k, a) == NodeRadius(k, b)
    ensures Abs(a) <= Abs(b) ==> NodeRadius(k, a) <= NodeRadius(k, b)
  {
    var base := NodeSize(k) as real;
    if Abs(a) <= Abs(b) {
      assert Min(Abs(a) / 40.0, 0.5) <= Min(Abs(b) / 40.0, 0.5);
      MulMonotone(base, 1.0 + Min(Abs(a) / 40.0, 0.5), 1.0 + Min(Abs(b) / 40.0, 0.5));
    }
  }

  lemma MulMonotone(w: real, x: real, y: real)
    requires w >= 0.0 && x <= y
    ensures w * x <= w * y
  {
  }

  // -----------------------------------------------------------------
  // Radial layout
  // -----------------------------------------------------------------

  const LevelRadii: seq<int> := [0, 260, 460, 630, 780, 910, 1020, 1120]

  /** LEVEL_RADII[min(level, 7)]: deeper levels share the outermost ring. */
  function LevelRadius(level: nat): (r: int)
    ensures level >= |LevelRadii| - 1 ==> r == LevelRadii[|LevelRadii| - 1]
    ensures level < |LevelRadii| ==> r == LevelRadii[level]
  {
    LevelRadii[if level < |LevelRadii| - 1 then level else |LevelRadii| - 1]
  }

  /** What the layout records for a node: its arc (in turns), level and ring radius. */
  datatype Placement = Placement(node: Node, start: real, end: real, level: nat, radius: int)

  /** The root spans one full turn starting at the top: [-1/4, 3/4) turns, i.e. [-π/2, 3π/2). */
  const RootStart: real := -0.25
  const RootEnd: real := 0.75

  /** Start of the arc of child i: the parent's start plus its share of the preceding leaves. */
  function ArcStart(start: real, width: real, total: nat, before: nat): real
    requires total > 0
  {
    start + width * (before as real / total as real)
  }

  /** Ids of the nodes the layout reaches: n, and below it only through expanded nodes. */
  function VisibleIds(n: Node, expanded: set<string>): set<string>
    decreases n
  {
    {n.id} + if Expands(n, expanded) then VisibleIdsAll(n.children, expanded) else {}
  }

  function VisibleIdsAll(cs: seq<Node>, expanded: set<string>): set<string>
    decreases cs
  {
    if cs == [] then {} else VisibleIdsAll(cs[..|cs| - 1], expanded) + VisibleIds(cs[|cs| - 1], expanded)
  }

  /**
   * The map `assign(n, start, end, level)` writes: n's own entry, then (if n
   * expands) the children left to right, a later write replacing an earlier one.
   */
  function Layout(n: Node, start: real, end: real, level: nat, expanded: set<string>): map<string, Placement>
    decreases n
  {
    var own := map[n.id := Placement(n, start, end, level, LevelRadius(level))];
    if Expands(n, expanded) then
      own + ChildLayouts(n.children, start, end - start, SumLeaves(n.children, expanded), level + 1, expanded)
    else
      own
  }

  /** The children's layouts: the child after `before` leaves gets [ArcStart(before), + width·leaves/total). */
  function ChildLayouts(cs: seq<Node>, start: real, width: real, total: nat, level: nat, expanded: set<string>)
    : map<string, Placement>
    requires total > 0
    decreases cs
  {
    if cs == [] then map[]
    else
      ChildLayouts(cs[..|cs| - 1], start, width, total, level, expanded)
      + Layout(cs[|cs| - 1], ChildStart(cs, start, width, total, expanded),
               ChildEnd(cs, start, width, total, expanded), level, expanded)
  }

  /** `cur` when the last child of cs is reached. */
  function ChildStart(cs: seq<Node>, start: real, width: real, total: nat, expanded: set<string>): real
    requires total > 0 && cs != []
  {
    ArcStart(start, width, total, SumLeaves(cs[..|cs| - 1], expanded))
  }

  /** `cur + childArc` for the last child of cs. */
  function ChildEnd(cs: seq<Node>, start: real, width: real, total: nat, expanded: set<string>): real
    requires total > 0 && cs != []
  {
    ChildStart(cs, start, width, total, expanded)
    + width * (CountLeaves(cs[|cs| - 1], expanded) as real / total as real)
  }

  /** A node gets a position exactly when every ancestor on its path is expanded; levels only grow. */
  lemma {:induction false} LayoutKeys(n: Node, start: real, end: real, level: nat, expanded: set<string>)
    ensures Layout(n, start, end, level, expanded).Keys == VisibleIds(n, expanded)
    ensures forall k :: k in Layout(n, start, end, level, expanded) ==>
      Layout(n, start, end, level, expanded)[k].level >= level
    decreases n
  {
    if Expands(n, expanded) {
      ChildLayoutsKeys(n.children, start, end - start, SumLeaves(n.children, expanded), level + 1, expanded);
    }
  }

  lemma {:induction false} ChildLayoutsKeys(cs: seq<Node>, start: real, width: real, total: nat, level: nat,
                                            expanded: set<string>)
    requires total > 0
    ensures ChildLayouts(cs, start, width, total, level, expanded).Keys == VisibleIdsAll(cs, expanded)
    ensures forall k :: k in ChildLayouts(cs, start, width, total, level, expanded) ==>
      ChildLayouts(cs, start, width, total, level, expanded)[k].level >= level
    decreases cs
  {
    if cs != [] {
      ChildLayoutsKeys(cs[..|cs| - 1], start, width, total, level, expanded);
      LayoutKeys(cs[|cs| - 1], ChildStart(cs, start, width, total, expanded),
                 ChildEnd(cs, start, width, total, expanded), level, expanded);
    }
  }

  /** Every arc recorded under a node lies within that node's arc. */
  lemma {:induction false} LayoutWithin(n: Node, start: real, end: real, level: nat, expanded: set<string>)
    requires start <= end
    ensures forall k :: k in Layout(n, start, end, level, expanded) ==>
      start <= Layout(n, start, end, level, expanded)[k].start
      <= Layout(n, start, end, level, expanded)[k].end <= end
    decreases n
  {
    if Expands(n, expanded) {
      var total := SumLeaves(n.children, expanded);
      ChildLayoutsWithin(n.children, start, end - start, total, level + 1, expanded);
      FullShare(start, end, total);
    }
  }

  lemma FullShare(start: real, end: real, total: nat)
    requires total > 0
    ensures ArcStart(start, end - start, total, total) == end
  {
    assert total as real / total as real == 1.0;
  }

  lemma {:induction false} ChildLayoutsWithin(cs: seq<Node>, start: real, width: real, total: nat, level: nat,
                                              expanded: set<string>)
    requires total > 0 && width >= 0.0
    ensures forall k :: k in ChildLayouts(cs, start, width, total, level, expanded) ==>
      start <= ChildLayouts(cs, start, width, total, level, expanded)[k].start
      <= ChildLayouts(cs, start, width, total, level, expanded)[k].end
      <= ArcStart(start, width, total, SumLeaves(cs, expanded))
    decreases cs
  {
    if cs != [] {
      var init, c := cs[..|cs| - 1], cs[|cs| - 1];
      var before, leaves := SumLeaves(init, expanded), CountLeaves(c, expanded);
      var s0, e0 := ChildStart(cs, start, width, total, expanded), ChildEnd(cs, start, width, total, expanded);
      var mid, top := ArcStart(start, width, total, before), ArcStart(start, width, total, SumLeaves(cs, expanded));
      ArcStep(start, width, total, before, leaves);
      assert start <= s0 <= e0 && e0 == top && mid <= top;
      var a: map<string, Placement> := ChildLayouts(init, start, width, total, level, expanded);
      var b: map<string, Placement> := Layout(c, s0, e0, level, expanded);
      ChildLayoutsWithin(init, start, width, total, level, expanded);
      LayoutWithin(c, s0, e0, level, expanded);
      forall k | k in a + b ensures start <= (a + b)[k].start <= (a + b)[k].end <= top {
        if k in b {
          assert (a + b)[k] == b[k];
        } else {
          assert (a + b)[k] == a[k];
        }
      }
    }
  }

  lemma DivNonNegative(a: real, t: real)
    requires a >= 0.0 && t > 0.0
    ensures a / t >= 0.0
  {
  }

  /** One step of the running angle: cur + childArc is the start of the next child. */
  /** ArcStep, with the end count given by name. */
  lemma ArcStepTo(start: real, width: real, total: nat, before: nat, leaves: nat, after: nat)
    requires total > 0 && after == before + leaves
    ensures ArcStart(start, width, total, before) + width * (leaves as real / total as real)
            == ArcStart(start, width, total, after)
  {
    ArcStep(start, width, total, before, leaves);
  }

  lemma ArcStep(start: real, width: real, total: nat, before: nat, leaves: nat)
    requires total > 0
    ensures ArcStart(start, width, total, before) + width * (leaves as real / total as real)
            == ArcStart(start, width, total, before + leaves)
    ensures width >= 0.0 ==> start <= ArcStart(start, width, total, before)
    ensures width >= 0.0 ==>
      ArcStart(start, width, total, before) <= ArcStart(start, width, total, before + leaves)
  {
    var t := total as real;
    assert (before + leaves) as real / t == before as real / t + leaves as real / t;
    DivNonNegative(before as real, t);
    DivNonNegative(leaves as real, t);
    if width >= 0.0 {
      MulMonotone(width, 0.0, before as real / t);
      MulMonotone(width, 0.0, leaves as real / t);
    }
  }

  /**
   * The child arcs tile the parent arc: the first starts at the parent's
   * start, child i spans the share leaves(i)/totalLeaves of the parent's
   * width and ends where child i+1 begins, and the last ends at the parent's end.
   */
  lemma {:induction false} ArcsTile(cs: seq<Node>, start: real, end: real, expanded: set<string>, i: nat)
    requires i < |cs|
    ensures SumLeaves(cs, expanded) > 0
    ensures ArcStart(start, end - start, SumLeaves(cs, expanded), 0) == start
    ensures ArcStart(start, end - start, SumLeaves(cs, expanded), SumLeaves(cs, expanded)) == end
    ensures ArcStart(start, end - start, SumLeaves(cs, expanded), SumLeaves(cs[..i], expanded))
            + (end - start) * (CountLeaves(cs[i], expanded) as real / SumLeaves(cs, expanded) as real)
            == ArcStart(start, end - start, SumLeaves(cs, expanded), SumLeaves(cs[..i + 1], expanded))
  {
    var total := SumLeaves(cs, expanded);
    var before, leaves := SumLeaves(cs[..i], expanded), CountLeaves(cs[i], expanded);
    var after := SumLeaves(cs[..i + 1], expanded);
    assert after == before + leaves by {
      assert cs[..i + 1][..i] == cs[..i];
    }
    ArcStepTo(start, end - start, total, before, leaves, after);
    FullShare(start, end, total);
    NoShare(start, end - start, total);
  }

  lemma NoShare(start: real, width: real, total: nat)
    requires total > 0
    ensures ArcStart(start, width, total, 0) == start
  {
  }

  /** The root id does not occur again below the root. */
  lemma RootIdNotBelow(n: Node)
    requires UniqueIds(n)
    ensures n.id !in IdsOf(SubtreesAll(n.children))
  {
    var s := Subtrees(n);
    var below := SubtreesAll(n.children);
    assert s == [n] + below;
    forall j | 0 <= j < |below| ensures below[j].id != n.id {
      assert s[1 + j] == below[j];
    }
  }

  /** With unique ids a node's own entry is not overwritten by a descendant. */
  lemma OwnPlacement(n: Node, start: real, end: real, level: nat, expanded: set<string>)
    requires UniqueIds(n)
    ensures n.id in Layout(n, start, end, level, expanded)
    ensures Layout(n, start, end, level, expanded)[n.id]
            == Placement(n, start, end, level, LevelRadius(level))
  {
    var own: map<string, Placement> := map[n.id := Placement(n, start, end, level, LevelRadius(level))];
    if Expands(n, expanded) {
      var total := SumLeaves(n.children, expanded);
      var kids: map<string, Placement> := ChildLayouts(n.children, start, end - start, total, level + 1, expanded);
      assert Layout(n, start, end, level, expanded) == own + kids;
      RootNotAmongChildren(n, start, end - start, total, level + 1, expanded);
      assert (own + kids)[n.id] == own[n.id];
    }
  }

  lemma RootNotAmongChildren(n: Node, start: real, width: real, total: nat, level: nat, expanded: set<string>)
    requires UniqueIds(n) && total > 0
    ensures n.id !in ChildLayouts(n.children, start, width, total, level, expanded)
  {
    ChildLayoutsKeys(n.children, start, width, total, level, expanded);
    VisibleWithinIds(n.children, expanded);
    RootIdNotBelow(n);
  }

  /** Only ids of the tree can appear in the layout. */
  lemma {:induction false} VisibleWithin(n: Node, expanded: set<string>)
    ensures VisibleIds(n, expanded) <= IdSet(n)
    decreases n
  {
    IdSetSplit(n);
    if Expands(n, expanded) {
      VisibleWithinIds(n.children, expanded);
    }
  }

  lemma {:induction false} VisibleWithinIds(cs: seq<Node>, expanded: set<string>)
    ensures VisibleIdsAll(cs, expanded) <= IdsOf(SubtreesAll(cs))
    decreases cs
  {
    if cs != [] {
      var init, c := cs[..|cs| - 1], cs[|cs| - 1];
      VisibleWithinIds(init, expanded);
      VisibleWithin(c, expanded);
      assert cs == init + [c];
      SubtreesAllSnoc(init, c);
    }
  }

  lemma MapUnionAssoc<K, V>(a: map<K, V>, b: map<K, V>, c: map<K, V>)
    ensures (a + b) + c == a + (b + c)
  {
  }

  /** The arc a child with `leaves` leaves receives out of `width` shared among `total` leaves. */
  function Share(width: real, leaves: nat, total: nat): (r: real)
    requires total > 0
    ensures width >= 0.0 ==> 0.0 <= r <= width * (leaves as real) / (total as real)
  {
    width * (leaves as real / total as real)
  }

  /** One step of the loop of `assign`: the running angle and the map grow by the next child. */
  lemma AssignStep(cs: seq<Node>, i: nat, start: real, width: real, total: nat, level: nat,
                   expanded: set<string>, cur: real, arc: real)
    requires total > 0 && i < |cs|
    requires cur == ArcStart(start, width, total, SumLeaves(cs[..i], expanded))
    requires arc == Share(width, CountLeaves(cs[i], expanded), total)
    ensures cur + arc == ArcStart(start, width, total, SumLeaves(cs[..i + 1], expanded))
    ensures ChildLayouts(cs[..i + 1], start, width, total, level, expanded)
         == ChildLayouts(cs[..i], start, width, total, level, expanded) + Layout(cs[i], cur, cur + arc, level, expanded)
  {
    var p := cs[..i + 1];
    assert p[..|p| - 1] == cs[..i] && p[|p| - 1] == cs[i];
    assert SumLeaves(p, expanded) == SumLeaves(cs[..i], expanded) + CountLeaves(cs[i], expanded);
    ArcStep(start, width, total, SumLeaves(cs[..i], expanded), CountLeaves(cs[i], expanded));
    assert ChildStart(p, start, width, total, expanded) == cur;
    assert ChildEnd(p, start, width, total, expanded) == cur + arc;
  }

  /**
   * `assign`: records n, then walks the children with a running angle `cur`,
   * giving each the arc (end - start) · leaves(child) / totalLeaves.
   */
  method Assign(n: Node, start: real, end: real, level: nat, expanded: set<string>,
                acc: map<string, Placement>) returns (res: map<string, Placement>)
    ensures res == acc + Layout(n, start, end, level, expanded)
    decreases n, 1
  {
    ghost var own := map[n.id := Placement(n, start, end, level, LevelRadius(level))];
    res := acc[n.id := Placement(n, start, end, level, LevelRadius(level))];
    assert res == acc + own;
    if n.id in expanded && |n.children| > 0 {
      var totalLeaves := SumLeaves(n.children, expanded);
      ghost var kids := ChildLayouts(n.children, start, end - start, totalLeaves, level + 1, expanded);
      res := AssignChildren(n.children, start, end, totalLeaves, level + 1, expanded, res);
      MapUnionAssoc(acc, own, kids);
    }
  }

  /** The loop of `assign` over the children, advancing `cur` by each child's arc. */
  method AssignChildren(cs: seq<Node>, start: real, end: real, totalLeaves: nat, level: nat,
                        expanded: set<string>, acc: map<string, Placement>) returns (res: map<string, Placement>)
    requires totalLeaves > 0
    ensures res == acc + ChildLayouts(cs, start, end - start, totalLeaves, level, expanded)
    decreases cs, 0
  {
    res := acc;
    var cur := start;
    assert cs[..0] == [];
    for i := 0 to |cs|
      invariant cur == ArcStart(start, end - start, totalLeaves, SumLeaves(cs[..i], expanded))
      invariant res == acc + ChildLayouts(cs[..i], start, end - start, totalLeaves, level, expanded)
    {
      var childArc := Share(end - start, CountLeaves(cs[i], expanded), totalLeaves);
      ghost var prev := ChildLayouts(cs[..i], start, end - start, totalLeaves, level, expanded);
      ghost var child := Layout(cs[i], cur, cur + childArc, level, expanded);
      AssignStep(cs, i, start, end - start, totalLeaves, level, expanded, cur, childArc);
      res := Assign(cs[i], cur, cur + childArc, level, expanded, res);
      MapUnionAssoc(acc, prev, child);
      cur := cur + childArc;
    }
    assert cs[..|cs|] == cs;
  }

  /** The nodes at depth d below t: t itself at depth 0, then the children's nodes one deeper. */
  function AtDepth(t: Node, d: nat): set<Node>
    decreases t
  {
    if d == 0 then {t} else AtDepthAll(t.children, d - 1)
  }

  function AtDepthAll(cs: seq<Node>, d: nat): set<Node>
    decreases cs
  {
    if cs == [] then {} else AtDepthAll(cs[..|cs| - 1], d) + AtDepth(cs[|cs| - 1], d)
  }

  /** No two entries of a list of nodes share an id. */
  predicate DistinctIds(s: seq<Node>)
  {
    forall i, j :: 0 <= i < j < |s| ==> s[i].id != s[j].id
  }

  /** Distinct ids in a concatenation: in each part, and no id in both. */
  lemma DistinctSplit(a: seq<Node>, b: seq<Node>)
    requires DistinctIds(a + b)
    ensures DistinctIds(a) && DistinctIds(b) && IdsOf(a) !! IdsOf(b)
  {
    var s := a + b;
    forall i, j | 0 <= i < j < |a| ensures a[i].id != a[j].id {
      assert s[i] == a[i] && s[j] == a[j];
    }
    forall i, j | 0 <= i < j < |b| ensures b[i].id != b[j].id {
      assert s[|a| + i] == b[i] && s[|a| + j] == b[j];
    }
    forall i, j | 0 <= i < |a| && 0 <= j < |b| ensures a[i].id != b[j].id {
      assert s[i] == a[i] && s[|a| + j] == b[j];
    }
  }

  /** A node at some depth below t is one of t's subtrees. */
  lemma {:induction false} AtDepthInSubtrees(t: Node, d: nat, m: Node)
    requires m in AtDepth(t, d)
    ensures m in Subtrees(t)
    decreases t
  {
    if d > 0 {
      AtDepthAllInSubtrees(t.children, d - 1, m);
    }
  }

  lemma {:induction false} AtDepthAllInSubtrees(cs: seq<Node>, d: nat, m: Node)
    requires m in AtDepthAll(cs, d)
    ensures m in SubtreesAll(cs)
    decreases cs
  {
    var init, c := cs[..|cs| - 1], cs[|cs| - 1];
    assert cs == init + [c];
    SubtreesAllSnoc(init, c);
    if m in AtDepth(c, d) {
      AtDepthInSubtrees(c, d, m);
    } else {
      AtDepthAllInSubtrees(init, d, m);
    }
  }

  /**
   * With unique ids, a node at depth d that the layout reaches is recorded as
   * itself, at level `level + d`, on that level's ring.
   */
  lemma {:induction false} LayoutDepth(n: Node, start: real, end: real, level: nat, expanded: set<string>,
                                       m: Node, d: nat)
    requires UniqueIds(n) && m in AtDepth(n, d) && m.id in Layout(n, start, end, level, expanded)
    ensures Layout(n, start, end, level, expanded)[m.id].node == m
    ensures Layout(n, start, end, level, expanded)[m.id].level == level + d
    ensures Layout(n, start, end, level, expanded)[m.id].radius == LevelRadius(level + d)
    decreases n
  {
    if d == 0 {
      OwnPlacement(n, start, end, level, expanded);
    } else {
      AtDepthAllInSubtrees(n.children, d - 1, m);
      RootIdNotBelow(n);
      assert m.id != n.id;
      assert Expands(n, expanded);
      assert Subtrees(n) == [n] + SubtreesAll(n.children);
      DistinctSplit([n], SubtreesAll(n.children));
      ChildLayoutsDepth(n.children, start, end - start, SumLeaves(n.children, expanded), level + 1, expanded, m, d - 1);
    }
  }

  lemma {:induction false} ChildLayoutsDepth(cs: seq<Node>, start: real, width: real, total: nat, level: nat,
                                             expanded: set<string>, m: Node, d: nat)
    requires total > 0 && DistinctIds(SubtreesAll(cs)) && m in AtDepthAll(cs, d)
    requires m.id in ChildLayouts(cs, start, width, total, level, expanded)
    ensures ChildLayouts(cs, start, width, total, level, expanded)[m.id].node == m
    ensures ChildLayouts(cs, start, width, total, level, expanded)[m.id].level == level + d
    ensures ChildLayouts(cs, start, width, total, level, expanded)[m.id].radius == LevelRadius(level + d)
    decreases cs
  {
    var init, c := cs[..|cs| - 1], cs[|cs| - 1];
    var cStart, cEnd := ChildStart(cs, start, width, total, expanded), ChildEnd(cs, start, width, total, expanded);
    assert cs == init + [c];
    SubtreesAllSnoc(init, c);
    DistinctSplit(SubtreesAll(init), Subtrees(c));
    ChildLayoutsKeys(init, start, width, total, level, expanded);
    VisibleWithinIds(init, expanded);
    LayoutKeys(c, cStart, cEnd, level, expanded);
    VisibleWithin(c, expanded);
    if m in AtDepth(c, d) {
      AtDepthInSubtrees(c, d, m);
      assert m.id in IdSet(c);
      LayoutDepth(c, cStart, cEnd, level, expanded, m, d);
    } else {
      AtDepthAllInSubtrees(init, d, m);
      assert m.id in IdsOf(SubtreesAll(init));
      ChildLayoutsDepth(init, start, width, total, level, expanded, m, d);
    }
  }

  /** The positions map: the root laid out over one full turn at level 0. */
  method Positions(tree: Node, expanded: set<string>) returns (pos: map<string, Placement>)
    ensures pos == Layout(tree, RootStart, RootEnd, 0, expanded)
    ensures pos.Keys == VisibleIds(tree, expanded)
    ensures forall k :: k in pos ==> RootStart <= pos[k].start <= pos[k].end <= RootEnd
    ensures UniqueIds(tree) ==> forall d: nat, m :: m in AtDepth(tree, d) && m.id in pos ==>
      pos[m.id].node == m && pos[m.id].level == d && pos[m.id].radius == LevelRadius(d)
  {
    pos := Assign(tree, RootStart, RootEnd, 0, expanded, map[]);
    assert map[] + Layout(tree, RootStart, RootEnd, 0, expanded) == Layout(tree, RootStart, RootEnd, 0, expanded);
    LayoutKeys(tree, RootStart, RootEnd, 0, expanded);
    LayoutWithin(tree, RootStart, RootEnd, 0, expanded);
    if UniqueIds(tree) {
      forall d: nat, m | m in AtDepth(tree, d) && m.id in pos
        ensures pos[m.id].node == m && pos[m.id].level == d && pos[m.id].radius == LevelRadius(d)
      {
        LayoutDepth(tree, RootStart, RootEnd, 0, expanded, m, d);
      }
    }
  }

  // -----------------------------------------------------------------
  // View window
  // -----------------------------------------------------------------

  datatype Box = Box(x: real, y: real, w: real, h: real)

  function MinOf(s: seq<real>): (r: real)
    requires |s| > 0
    ensures r in s && forall v :: v in s ==> r <= v
  {
    if |s| == 1 then s[0]
    else
      assert s == [s[0]] + s[1..];
      Min(s[0], MinOf(s[1..]))
  }

  function MaxOf(s: seq<real>): (r: real)
    requires |s| > 0
    ensures r in s && forall v :: v in s ==> v <= r
  {
    if |s| == 1 then s[0]
    else
      assert s == [s[0]] + s[1..];
      Max(s[0], MaxOf(s[1..]))
  }

  const Pad: real := 200.0

  /**
   * The base view box: a fixed 1000×1000 square around the origin for at
   * most one position, otherwise the bounding box of the positions padded
   * by 200 on every side.
   */
  function BaseViewBox(xs: seq<real>, ys: seq<real>): (b: Box)
    requires |xs| == |ys|
    ensures |xs| <= 1 ==> b == Box(-500.0, -500.0, 1000.0, 1000.0)
    ensures |xs| > 1 ==> b.w >= 2.0 * Pad && b.h >= 2.0 * Pad
    ensures |xs| > 1 ==> forall i :: 0 <= i < |xs| ==>
      b.x + Pad <= xs[i] <= b.x + b.w - Pad && b.y + Pad <= ys[i] <= b.y + b.h - Pad
    ensures |xs| > 1 ==> exists i :: 0 <= i < |xs| && xs[i] == b.x + Pad
    ensures |xs| > 1 ==> exists i :: 0 <= i < |ys| && ys[i] == b.y + Pad
  {
    if |xs| <= 1 then Box(-500.0, -500.0, 1000.0, 1000.0)
    else
      var minX, maxX := MinOf(xs) - Pad, MaxOf(xs) + Pad;
      var minY, maxY := MinOf(ys) - Pad, MaxOf(ys) + Pad;
      assert forall i :: 0 <= i < |xs| ==> xs[i] in xs && ys[i] in ys;
      Box(minX, minY, maxX - minX, maxY - minY)
  }

  /** The SVG view box: the base box scaled by 1/zoom around its centre, then shifted by -pan. */
  function ViewWindow(base: Box, zoom: real, panX: real, panY: real): (v: Box)
    requires zoom > 0.0
    ensures v.w * zoom == base.w && v.h * zoom == base.h
    ensures v.x + v.w / 2.0 == base.x + base.w / 2.0 - panX
    ensures v.y + v.h / 2.0 == base.y + base.h / 2.0 - panY
  {
    var cx := base.x + base.w / 2.0;
    var cy := base.y + base.h / 2.0;
    var zw := base.w / zoom;
    var zh := base.h / zoom;
    Box(cx - zw / 2.0 - panX, cy - zh / 2.0 - panY, zw, zh)
  }

  /** At zoom 1 with no pan the window is the base box itself. */
  lemma FittedWindowIsBase(base: Box)
    ensures ViewWindow(base, 1.0, 0.0, 0.0) == base
  {
  }
}
