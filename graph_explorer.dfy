// The level-limited causal graph explorer: which nodes of the raw graph are
// shown for a given expanded set and level ceiling, which links survive,
// how clicks and the expand/collapse buttons change that state, and where a
// link is clipped against the boxes of its end nodes.
module GraphExplorer {
  import opened Common

  /** A node of the raw graph (`name` is the source's `label`). */
  datatype GNode = GNode(id: string, name: string, kind: string, value: real, level: int)

  /** A link between two node ids (`name` is the source's optional `label`). */
  datatype GLink = GLink(source: string, target: string, name: string)

  datatype Graph = Graph(nodes: seq<GNode>, links: seq<GLink>)

  /** A shown node: the raw node plus its `__expanded` flag. */
  datatype Shown = Shown(node: GNode, isExpanded: bool)

  datatype Filtered = Filtered(nodes: seq<Shown>, links: seq<GLink>)

  // -----------------------------------------------------------------
  // Lookups
  // -----------------------------------------------------------------

  /** `allNodes.find(n => n.id === id)`: the first node with that id. */
  function FindById(nodes: seq<GNode>, id: string): (r: Option<GNode>)
    ensures r.Some? ==> r.value in nodes && r.value.id == id
    ensures r.None? <==> forall n :: n in nodes ==> n.id != id
  {
    if nodes == [] then None
    else if nodes[0].id == id then Some(nodes[0])
    else FindById(nodes[1..], id)
  }

  /** `allNodes.find(n => n.level === 0)`: the first node at level 0. */
  function FindRoot(nodes: seq<GNode>): (r: Option<GNode>)
    ensures r.Some? ==> r.value in nodes && r.value.level == 0
    ensures r.None? <==> forall n :: n in nodes ==> n.level != 0
  {
    if nodes == [] then None
    else if nodes[0].level == 0 then Some(nodes[0])
    else FindRoot(nodes[1..])
  }

  /** The targets of the links leaving `s`, in link order. */
  function Targets(links: seq<GLink>, s: string): (r: seq<string>)
    ensures forall t :: t in r <==> exists l :: l in links && l.source == s && l.target == t
  {
    if links == [] then []
    else
      var last := links[|links| - 1];
      assert forall l :: l in links <==> l in links[..|links| - 1] || l == last;
      Targets(links[..|links| - 1], s) + (if last.source == s then [last.target] else [])
  }

  /** `childByParent.get(s) || []`. */
  function ChildrenOf(m: map<string, seq<string>>, s: string): seq<string>
  {
    if s in m then m[s] else []
  }

  /** The parent-to-children map: each link appends its target to its source's list. */
  method BuildChildMap(links: seq<GLink>) returns (m: map<string, seq<string>>)
    ensures forall s :: ChildrenOf(m, s) == Targets(links, s)
    ensures forall s :: s in m ==> exists l :: l in links && l.source == s
  {
    m := map[];
    for i := 0 to |links|
      invariant forall s :: ChildrenOf(m, s) == Targets(links[..i], s)
      invariant forall s :: s in m ==> exists l :: l in links[..i] && l.source == s
    {
      ChildMapStep(links, i, m);
      var src := links[i].source;
      m := m[src := ChildrenOf(m, src) + [links[i].target]];
    }
    assert links[..|links|] == links;
  }

  /** One link of BuildChildMap: the map for links[..i] extended by link i is the map for links[..i+1]. */
  lemma ChildMapStep(links: seq<GLink>, i: nat, m: map<string, seq<string>>)
    requires i < |links|
    requires forall s :: ChildrenOf(m, s) == Targets(links[..i], s)
    requires forall s :: s in m ==> exists l :: l in links[..i] && l.source == s
    ensures var m' := m[links[i].source := ChildrenOf(m, links[i].source) + [links[i].target]];
      (forall s :: ChildrenOf(m', s) == Targets(links[..i + 1], s))
      && (forall s :: s in m' ==> exists l :: l in links[..i + 1] && l.source == s)
  {
    assert links[..i + 1][..i] == links[..i];
    assert links[..i + 1][i] == links[i];
    assert forall l :: l in links[..i] ==> l in links[..i + 1];
  }

  // -----------------------------------------------------------------
  // The visibility rule
  // -----------------------------------------------------------------

  /** The inputs of the visibility pass. */
  datatype Ctx = Ctx(nodes: seq<GNode>, links: seq<GLink>, expanded: set<string>, maxLevel: int)

  /** A child may be shown: it is a known node and its level is at most maxLevel. */
  predicate Qualifies(c: Ctx, id: string)
  {
    FindById(c.nodes, id).Some? && FindById(c.nodes, id).value.level <= c.maxLevel
  }

  /** A dequeued id opens its children: it is a known node, expanded or below level maxLevel - 1. */
  predicate Opens(c: Ctx, id: string)
  {
    FindById(c.nodes, id).Some? && (id in c.expanded || FindById(c.nodes, id).value.level < c.maxLevel - 1)
  }

  /**
   * The pass never marks ids as visited, so it stops only when links go
   * strictly down the levels; the graph API builds its links that way.
   */
  predicate LevelsIncrease(c: Ctx)
  {
    forall l :: l in c.links && FindById(c.nodes, l.source).Some? && FindById(c.nodes, l.target).Some? ==>
      FindById(c.nodes, l.source).value.level < FindById(c.nodes, l.target).value.level
  }

  /** Levels left below an id before maxLevel; the termination measure of the pass. */
  function Height(c: Ctx, id: string): nat
  {
    match FindById(c.nodes, id)
    case Some(n) => if n.level <= c.maxLevel then (c.maxLevel - n.level + 1) as nat else 0
    case None => 0
  }

  lemma TargetDeeper(c: Ctx, pid: string, t: string)
    requires LevelsIncrease(c) && Opens(c, pid) && t in Targets(c.links, pid) && Qualifies(c, t)
    ensures Height(c, t) < Height(c, pid)
  {
    var l :| l in c.links && l.source == pid && l.target == t;
  }

  /** Reference definition: the ids reachable from `id` through opening nodes and qualifying children. */
  ghost function Reach(c: Ctx, id: string): set<string>
    requires LevelsIncrease(c)
    decreases Height(c, id), 1
  {
    {id} + (if Opens(c, id) then ReachAll(c, id, Targets(c.links, id)) else {})
  }

  ghost function ReachAll(c: Ctx, pid: string, ts: seq<string>): set<string>
    requires LevelsIncrease(c) && Opens(c, pid) && forall t :: t in ts ==> t in Targets(c.links, pid)
    decreases Height(c, pid), 0, |ts|
  {
    if ts == [] then {}
    else
      var t := ts[|ts| - 1];
      ReachAll(c, pid, ts[..|ts| - 1]) + (if Qualifies(c, t) then (TargetDeeper(c, pid, t); Reach(c, t)) else {})
  }

  /** How many times ids will still be dequeued below `id`, `id` included. */
  ghost function Work(c: Ctx, id: string): nat
    requires LevelsIncrease(c)
    decreases Height(c, id), 1
  {
    1 + (if Opens(c, id) then WorkAll(c, id, Targets(c.links, id)) else 0)
  }

  ghost function WorkAll(c: Ctx, pid: string, ts: seq<string>): nat
    requires LevelsIncrease(c) && Opens(c, pid) && forall t :: t in ts ==> t in Targets(c.links, pid)
    decreases Height(c, pid), 0, |ts|
  {
    if ts == [] then 0
    else
      var t := ts[|ts| - 1];
      WorkAll(c, pid, ts[..|ts| - 1]) + (if Qualifies(c, t) then (TargetDeeper(c, pid, t); Work(c, t)) else 0)
  }

  /** The qualifying ids of a list, in order: what the inner loop pushes. */
  function Qualifying(c: Ctx, ts: seq<string>): (r: seq<string>)
    ensures forall t :: t in r <==> t in ts && Qualifies(c, t)
  {
    if ts == [] then []
    else
      var t := ts[|ts| - 1];
      assert forall x :: x in ts <==> x in ts[..|ts| - 1] || x == t;
      Qualifying(c, ts[..|ts| - 1]) + (if Qualifies(c, t) then [t] else [])
  }

  lemma QualifyingSnoc(c: Ctx, ts: seq<string>, j: nat)
    requires j < |ts|
    ensures Qualifying(c, ts[..j + 1]) == Qualifying(c, ts[..j]) + (if Qualifies(c, ts[j]) then [ts[j]] else [])
    ensures Elems(Qualifying(c, ts[..j + 1])) == Elems(Qualifying(c, ts[..j])) + (if Qualifies(c, ts[j]) then {ts[j]} else {})
  {
    assert ts[..j + 1][..j] == ts[..j];
  }

  /** The ids held in a queue. */
  function Elems(q: seq<string>): set<string>
  {
    set t | t in q
  }

  ghost function ReachQ(c: Ctx, q: seq<string>): set<string>
    requires LevelsIncrease(c)
  {
    if q == [] then {} else ReachQ(c, q[..|q| - 1]) + Reach(c, q[|q| - 1])
  }

  ghost function WorkQ(c: Ctx, q: seq<string>): nat
    requires LevelsIncrease(c)
  {
    if q == [] then 0 else WorkQ(c, q[..|q| - 1]) + Work(c, q[|q| - 1])
  }

  lemma {:induction false} QAppend(c: Ctx, a: seq<string>, b: seq<string>)
    requires LevelsIncrease(c)
    ensures ReachQ(c, a + b) == ReachQ(c, a) + ReachQ(c, b)
    ensures WorkQ(c, a + b) == WorkQ(c, a) + WorkQ(c, b)
    decreases |b|
  {
    if b == [] {
      assert a + b == a;
    } else {
      assert (a + b)[..|a + b| - 1] == a + b[..|b| - 1];
      QAppend(c, a, b[..|b| - 1]);
    }
  }

  /** Pushing the qualifying children queues exactly the reach and the work below the parent. */
  lemma {:induction false} QualifyingQ(c: Ctx, pid: string, ts: seq<string>)
    requires LevelsIncrease(c) && Opens(c, pid) && forall t :: t in ts ==> t in Targets(c.links, pid)
    ensures ReachQ(c, Qualifying(c, ts)) == ReachAll(c, pid, ts)
    ensures WorkQ(c, Qualifying(c, ts)) == WorkAll(c, pid, ts)
    decreases |ts|
  {
    if ts != [] {
      var t := ts[|ts| - 1];
      QualifyingQ(c, pid, ts[..|ts| - 1]);
      if Qualifies(c, t) {
        QAppend(c, Qualifying(c, ts[..|ts| - 1]), [t]);
        assert [t][..0] == [];
      } else {
        assert Qualifying(c, ts) == Qualifying(c, ts[..|ts| - 1]);
      }
    }
  }

  lemma ReachSelf(c: Ctx, id: string)
    requires LevelsIncrease(c)
    ensures id in Reach(c, id)
  {
  }

  lemma {:induction false} ReachQContains(c: Ctx, q: seq<string>)
    requires LevelsIncrease(c)
    ensures forall x :: x in q ==> x in ReachQ(c, q)
    decreases |q|
  {
    if q != [] {
      ReachQContains(c, q[..|q| - 1]);
      assert forall x :: x in q ==> x in q[..|q| - 1] || x == q[|q| - 1];
    }
  }

  /** One dequeue-and-expand step keeps `visible ∪ reach(queue)` unchanged and lowers the work by one. */
  lemma DequeueStep(c: Ctx, pid: string, rest: seq<string>, kids: seq<string>, vis: set<string>)
    requires LevelsIncrease(c) && pid in vis
    requires Opens(c, pid) ==> kids == Targets(c.links, pid)
    ensures !Opens(c, pid) ==>
      vis + ReachQ(c, rest) == vis + ReachQ(c, [pid] + rest) && WorkQ(c, rest) < WorkQ(c, [pid] + rest)
    ensures Opens(c, pid) ==>
      var q := Qualifying(c, kids);
      vis + Elems(q) + ReachQ(c, rest + q) == vis + ReachQ(c, [pid] + rest)
      && WorkQ(c, rest + q) < WorkQ(c, [pid] + rest)
  {
    QAppend(c, [pid], rest);
    assert [pid][..0] == [];
    if Opens(c, pid) {
      var q := Qualifying(c, kids);
      QAppend(c, rest, q);
      QualifyingQ(c, pid, kids);
      ReachQContains(c, q);
    }
  }

  lemma SeqAssoc(a: seq<string>, b: seq<string>, x: string)
    ensures (a + b) + [x] == a + (b + [x])
  {
  }

  /** The inner loop of the pass: each qualifying child is marked visible and queued, in order. */
  method PushChildren(c: Ctx, kids: seq<string>, queue0: seq<string>, vis0: set<string>)
    returns (queue: seq<string>, vis: set<string>)
    ensures queue == queue0 + Qualifying(c, kids)
    ensures vis == vis0 + Elems(Qualifying(c, kids))
  {
    queue, vis := queue0, vis0;
    assert kids[..0] == [];
    for j := 0 to |kids|
      invariant queue == queue0 + Qualifying(c, kids[..j])
      invariant vis == vis0 + Elems(Qualifying(c, kids[..j]))
    {
      QualifyingSnoc(c, kids, j);
      ghost var before := Qualifying(c, kids[..j]);
      var cNode := FindById(c.nodes, kids[j]);
      if cNode.Some? && cNode.value.level <= c.maxLevel {
        assert Qualifies(c, kids[j]);
        vis := vis + {kids[j]};
        SeqAssoc(queue0, before, kids[j]);
        queue := queue + [kids[j]];
      } else {
        assert !Qualifies(c, kids[j]);
        assert before + [] == before;
      }
    }
    assert kids[..|kids|] == kids;
  }

  /**
   * The breadth-first pass: starting from the root, a dequeued id that
   * opens adds each qualifying child to the visible set and to the queue.
   */
  method VisibleFrom(c: Ctx, m: map<string, seq<string>>, rootId: string) returns (vis: set<string>)
    requires LevelsIncrease(c)
    requires forall s :: ChildrenOf(m, s) == Targets(c.links, s)
    ensures vis == Reach(c, rootId)
  {
    var queue := [rootId];
    vis := {rootId};
    assert [rootId][..0] == [];
    while |queue| > 0
      invariant forall q :: q in queue ==> q in vis
      invariant vis + ReachQ(c, queue) == Reach(c, rootId)
      decreases WorkQ(c, queue)
    {
      var pid := queue[0];
      ghost var before := queue;
      queue := queue[1..];
      assert before == [pid] + queue;
      var kids := ChildrenOf(m, pid);
      DequeueStep(c, pid, queue, kids, vis);
      var pNode := FindById(c.nodes, pid);
      if pNode.None? {
        continue;
      }
      var isExpanded := pid in c.expanded || pNode.value.level < c.maxLevel - 1;
      if !isExpanded {
        continue;
      }
      queue, vis := PushChildren(c, kids, queue, vis);
    }
  }


  // -----------------------------------------------------------------
  // Properties of the visible set
  // -----------------------------------------------------------------

  lemma {:induction false} ReachAllMember(c: Ctx, pid: string, ts: seq<string>, t: string)
    requires LevelsIncrease(c) && Opens(c, pid) && forall x :: x in ts ==> x in Targets(c.links, pid)
    requires t in ts && Qualifies(c, t)
    ensures Reach(c, t) <= ReachAll(c, pid, ts)
    decreases |ts|
  {
    if ts[|ts| - 1] != t {
      assert t in ts[..|ts| - 1] by {
        assert ts == ts[..|ts| - 1] + [ts[|ts| - 1]];
      }
      ReachAllMember(c, pid, ts[..|ts| - 1], t);
    }
  }

  /** Whatever is reachable from a reachable id is reachable. */
  lemma {:induction false} ReachTransitive(c: Ctx, r: string, y: string)
    requires LevelsIncrease(c) && y in Reach(c, r)
    ensures Reach(c, y) <= Reach(c, r)
    decreases Height(c, r), 1
  {
    if y != r {
      ReachAllTransitive(c, r, Targets(c.links, r), y);
    }
  }

  lemma {:induction false} ReachAllTransitive(c: Ctx, pid: string, ts: seq<string>, y: string)
    requires LevelsIncrease(c) && Opens(c, pid) && forall t :: t in ts ==> t in Targets(c.links, pid)
    requires y in ReachAll(c, pid, ts)
    ensures Reach(c, y) <= ReachAll(c, pid, ts)
    decreases Height(c, pid), 0, |ts|
  {
    var t := ts[|ts| - 1];
    if y in ReachAll(c, pid, ts[..|ts| - 1]) {
      ReachAllTransitive(c, pid, ts[..|ts| - 1], y);
    } else {
      TargetDeeper(c, pid, t);
      ReachTransitive(c, t, y);
    }
  }

  /** Closure: a qualifying child of a visible id that opens is visible. */
  lemma ReachClosed(c: Ctx, r: string, p: string, x: string)
    requires LevelsIncrease(c) && p in Reach(c, r) && Opens(c, p)
    requires x in Targets(c.links, p) && Qualifies(c, x)
    ensures x in Reach(c, r)
  {
    ReachTransitive(c, r, p);
    ReachAllMember(c, p, Targets(c.links, p), x);
  }

  /** Soundness: every visible id but the root is a qualifying child of a visible id that opens. */
  lemma {:induction false} ReachSound(c: Ctx, r: string, x: string)
    requires LevelsIncrease(c) && x in Reach(c, r) && x != r
    ensures exists p :: p in Reach(c, r) && Opens(c, p) && x in Targets(c.links, p) && Qualifies(c, x)
    decreases Height(c, r), 1
  {
    ReachAllSound(c, r, Targets(c.links, r), x);
  }

  lemma {:induction false} ReachAllSound(c: Ctx, pid: string, ts: seq<string>, x: string)
    requires LevelsIncrease(c) && Opens(c, pid) && forall t :: t in ts ==> t in Targets(c.links, pid)
    requires x in ReachAll(c, pid, ts)
    ensures exists p :: (p == pid || p in ReachAll(c, pid, ts)) && Opens(c, p) && x in Targets(c.links, p) && Qualifies(c, x)
    decreases Height(c, pid), 0, |ts|
  {
    var t := ts[|ts| - 1];
    if x in ReachAll(c, pid, ts[..|ts| - 1]) {
      ReachAllSound(c, pid, ts[..|ts| - 1], x);
    } else {
      TargetDeeper(c, pid, t);
      if x != t {
        ReachSound(c, t, x);
      }
    }
  }

  // -----------------------------------------------------------------
  // The filtered graph
  // -----------------------------------------------------------------

  /** `b` keeps `a`'s elements in order, possibly dropping some. */
  predicate SubsequenceOf<T(==)>(a: seq<T>, b: seq<T>)
    decreases |b|
  {
    if a == [] then true
    else if b == [] then false
    else if a[|a| - 1] == b[|b| - 1] then SubsequenceOf(a[..|a| - 1], b[..|b| - 1])
    else SubsequenceOf(a, b[..|b| - 1])
  }

  /** The `filter`/`map` over the raw nodes: visible ones, in order, flagged with their expansion. */
  function ShowVisible(nodes: seq<GNode>, vis: set<string>, expanded: set<string>): (r: seq<Shown>)
    ensures forall s :: s in r <==> s.node in nodes && s.node.id in vis && s.isExpanded == (s.node.id in expanded)
    ensures |r| <= |nodes|
  {
    if nodes == [] then []
    else
      var n := nodes[|nodes| - 1];
      assert forall x :: x in nodes <==> x in nodes[..|nodes| - 1] || x == n;
      ShowVisible(nodes[..|nodes| - 1], vis, expanded) + (if n.id in vis then [Shown(n, n.id in expanded)] else [])
  }

  function RawNodes(s: seq<Shown>): (r: seq<GNode>)
    ensures |r| == |s| && forall i :: 0 <= i < |s| ==> r[i] == s[i].node
  {
    if s == [] then [] else RawNodes(s[..|s| - 1]) + [s[|s| - 1].node]
  }

  lemma {:induction false} SubsequenceExtend<T>(a: seq<T>, b: seq<T>, x: T)
    requires SubsequenceOf(a, b)
    ensures SubsequenceOf(a, b + [x])
    decreases |b|, 1
  {
    assert (b + [x])[..|b + [x]| - 1] == b;
    if a != [] && a[|a| - 1] == x {
      SubsequenceDropLast(a, b);
    }
  }

  lemma {:induction false} SubsequenceDropLast<T>(a: seq<T>, b: seq<T>)
    requires SubsequenceOf(a, b) && a != []
    ensures SubsequenceOf(a[..|a| - 1], b)
    decreases |b|, 0
  {
    var a', b' := a[..|a| - 1], b[..|b| - 1];
    if a[|a| - 1] == b[|b| - 1] {
      SubsequenceExtend(a', b', b[|b| - 1]);
    } else {
      SubsequenceDropLast(a, b');
      SubsequenceExtend(a', b', b[|b| - 1]);
    }
    assert b' + [b[|b| - 1]] == b;
  }

  lemma {:induction false} SubsequenceBoth<T>(a: seq<T>, b: seq<T>, x: T)
    requires SubsequenceOf(a, b)
    ensures SubsequenceOf(a + [x], b + [x])
  {
    assert (a + [x])[..|a + [x]| - 1] == a;
    assert (b + [x])[..|b + [x]| - 1] == b;
  }

  /** Visible nodes keep their input order. */
  lemma {:induction false} ShowVisibleOrdered(nodes: seq<GNode>, vis: set<string>, expanded: set<string>)
    ensures SubsequenceOf(RawNodes(ShowVisible(nodes, vis, expanded)), nodes)
    decreases |nodes|
  {
    if nodes != [] {
      var n := nodes[|nodes| - 1];
      var front := nodes[..|nodes| - 1];
      var r0 := ShowVisible(front, vis, expanded);
      ShowVisibleOrdered(front, vis, expanded);
      assert nodes == front + [n];
      if n.id in vis {
        assert RawNodes(r0 + [Shown(n, n.id in expanded)]) == RawNodes(r0) + [n];
        SubsequenceBoth(RawNodes(r0), front, n);
      } else {
        assert ShowVisible(nodes, vis, expanded) == r0;
        SubsequenceExtend(RawNodes(r0), front, n);
      }
    }
  }

  /** `nodeIdSet`: the ids of the shown nodes. */
  function ShownIds(s: seq<Shown>): set<string>
  {
    set x | x in s :: x.node.id
  }

  /** The link filter: a link survives exactly when both its ends are shown. */
  function KeepLinks(links: seq<GLink>, ids: set<string>): (r: seq<GLink>)
    ensures forall l :: l in r <==> l in links && l.source in ids && l.target in ids
    ensures SubsequenceOf(r, links)
  {
    if links == [] then []
    else
      var l := links[|links| - 1];
      var r0 := KeepLinks(links[..|links| - 1], ids);
      assert forall x :: x in links <==> x in links[..|links| - 1] || x == l;
      assert links == links[..|links| - 1] + [l];
      if l.source in ids && l.target in ids then
        SubsequenceBoth(r0, links[..|links| - 1], l);
        r0 + [l]
      else
        SubsequenceExtend(r0, links[..|links| - 1], l);
        r0
  }

  /** With every visible id a known node, the shown ids are exactly the visible set. */
  lemma ShownIdsAreVisible(nodes: seq<GNode>, vis: set<string>, expanded: set<string>)
    requires forall v :: v in vis ==> FindById(nodes, v).Some?
    ensures ShownIds(ShowVisible(nodes, vis, expanded)) == vis
  {
    var r := ShowVisible(nodes, vis, expanded);
    forall v | v in vis
      ensures v in ShownIds(r)
    {
      var n := FindById(nodes, v).value;
      assert Shown(n, n.id in expanded) in r;
    }
  }

  /** `filteredGraph`: empty without data or without a level-0 node; otherwise the pass and the two filters. */
  method FilteredGraph(raw: Option<Graph>, expanded: set<string>, maxLevel: int) returns (g: Filtered)
    requires raw.Some? ==> LevelsIncrease(Ctx(raw.value.nodes, raw.value.links, expanded, maxLevel))
    ensures raw.None? ==> g == Filtered([], [])
    ensures raw.Some? && FindRoot(raw.value.nodes).None? ==> g == Filtered([], [])
    ensures raw.Some? && FindRoot(raw.value.nodes).Some? ==>
      var c := Ctx(raw.value.nodes, raw.value.links, expanded, maxLevel);
      var vis := Reach(c, FindRoot(raw.value.nodes).value.id);
      g.nodes == ShowVisible(raw.value.nodes, vis, expanded)
      && g.links == KeepLinks(raw.value.links, ShownIds(g.nodes))
  {
    if raw.None? {
      return Filtered([], []);
    }
    var allNodes := raw.value.nodes;
    var allLinks := raw.value.links;
    var childByParent := BuildChildMap(allLinks);
    var rootNode := FindRoot(allNodes);
    if rootNode.None? {
      return Filtered([], []);
    }
    var c := Ctx(allNodes, allLinks, expanded, maxLevel);
    var visibleIds := VisibleFrom(c, childByParent, rootNode.value.id);
    var nodes := ShowVisible(allNodes, visibleIds, expanded);
    var links := KeepLinks(allLinks, ShownIds(nodes));
    g := Filtered(nodes, links);
  }

  /** Every reachable id is a known node, except possibly the start, which the pass takes from the node list. */
  lemma {:induction false} ReachKnown(c: Ctx, r: string, x: string)
    requires LevelsIncrease(c) && x in Reach(c, r) && x != r
    ensures FindById(c.nodes, x).Some?
  {
    ReachSound(c, r, x);
  }

  /** The shown nodes are the visible set, and a link survives exactly when both ends are visible. */
  lemma FilteredLinks(g: Graph, expanded: set<string>, maxLevel: int, l: GLink)
    requires LevelsIncrease(Ctx(g.nodes, g.links, expanded, maxLevel)) && FindRoot(g.nodes).Some?
    ensures
      var c := Ctx(g.nodes, g.links, expanded, maxLevel);
      var vis := Reach(c, FindRoot(g.nodes).value.id);
      ShownIds(ShowVisible(g.nodes, vis, expanded)) == vis
      && (l in KeepLinks(g.links, ShownIds(ShowVisible(g.nodes, vis, expanded)))
          <==> l in g.links && l.source in vis && l.target in vis)
  {
    var c := Ctx(g.nodes, g.links, expanded, maxLevel);
    var root := FindRoot(g.nodes).value;
    var vis := Reach(c, root.id);
    forall v | v in vis
      ensures FindById(g.nodes, v).Some?
    {
      if v != root.id {
        ReachKnown(c, root.id, v);
      }
    }
    ShownIdsAreVisible(g.nodes, vis, expanded);
  }

  // -----------------------------------------------------------------
  // The explorer's state
  // -----------------------------------------------------------------

  const ExpandAllLevel: int := 10

  function NodeIds(nodes: seq<GNode>): set<string>
  {
    set n | n in nodes :: n.id
  }

  class Explorer {
    var expandedSet: set<string>
    var maxLevel: int

    /** The ceiling never drops below 1. */
    predicate Valid()
      reads this
    {
      maxLevel >= 1
    }

    constructor ()
      ensures Valid() && expandedSet == {} && maxLevel == 1
    {
      expandedSet := {};
      maxLevel := 1;
    }

    /**
     * `handleNodeClick`: toggles only the clicked id; when expanding, the
     * ceiling is raised to childLevel + 1 if the child level reaches it.
     */
    method NodeClick(node: GNode)
      requires Valid()
      modifies this
      ensures Valid()
      ensures node.id in old(expandedSet) ==> expandedSet == old(expandedSet) - {node.id} && maxLevel == old(maxLevel)
      ensures node.id !in old(expandedSet) ==> expandedSet == old(expandedSet) + {node.id}
      ensures maxLevel >= old(maxLevel)
      ensures node.id !in old(expandedSet) && node.level + 1 >= old(maxLevel) ==> maxLevel == node.level + 2
      ensures node.id !in old(expandedSet) && node.level + 1 < old(maxLevel) ==> maxLevel == old(maxLevel)
    {
      if node.id in expandedSet {
        expandedSet := expandedSet - {node.id};
      } else {
        expandedSet := expandedSet + {node.id};
        var childLevel := node.level + 1;
        if childLevel >= maxLevel {
          maxLevel := if maxLevel >= childLevel + 1 then maxLevel else childLevel + 1;
        }
      }
    }

    /** `expandAll`: without data nothing changes; otherwise ceiling 10 and every raw id expanded. */
    method ExpandAll(raw: Option<Graph>)
      requires Valid()
      modifies this
      ensures Valid()
      ensures raw.None? ==> expandedSet == old(expandedSet) && maxLevel == old(maxLevel)
      ensures raw.Some? ==> maxLevel == ExpandAllLevel && expandedSet == NodeIds(raw.value.nodes)
    {
      if raw.None? {
        return;
      }
      maxLevel := ExpandAllLevel;
      expandedSet := NodeIds(raw.value.nodes);
    }

    /** `collapseAll`, and the reset when the product or month changes: nothing expanded, ceiling 1. */
    method CollapseAll()
      modifies this
      ensures Valid()
      ensures expandedSet == {} && maxLevel == 1
    {
      expandedSet := {};
      maxLevel := 1;
    }

    /** The graph shown for the current state. */
    method View(raw: Option<Graph>) returns (g: Filtered)
      requires raw.Some? ==> LevelsIncrease(Ctx(raw.value.nodes, raw.value.links, expandedSet, maxLevel))
      ensures raw.None? ==> g == Filtered([], [])
      ensures raw.Some? && FindRoot(raw.value.nodes).Some? ==>
        g.nodes == ShowVisible(raw.value.nodes,
          Reach(Ctx(raw.value.nodes, raw.value.links, expandedSet, maxLevel), FindRoot(raw.value.nodes).value.id),
          expandedSet)
    {
      g := FilteredGraph(raw, expandedSet, maxLevel);
    }
  }

  /**
   * After collapse-all only the root is shown: nothing is expanded and the
   * ceiling is 1, so the root opens only below level 0. The node `find`
   * returns for the root's id is the root itself unless an earlier node
   * shares its id; only such a node with a negative level would open.
   */
  lemma CollapsedShowsOnlyRoot(g: Graph)
    requires LevelsIncrease(Ctx(g.nodes, g.links, {}, 1)) && FindRoot(g.nodes).Some?
    ensures FindById(g.nodes, FindRoot(g.nodes).value.id).Some?
    ensures FindById(g.nodes, FindRoot(g.nodes).value.id).value.level >= 0 ==>
      Reach(Ctx(g.nodes, g.links, {}, 1), FindRoot(g.nodes).value.id) == {FindRoot(g.nodes).value.id}
  {
  }

  // -----------------------------------------------------------------
  // Link painting
  // -----------------------------------------------------------------

  /** `adx || 0.001`: a zero offset is replaced by 0.001. */
  function NonZero(d: real): (r: real)
    ensures r != 0.0
    ensures d != 0.0 ==> r == d
  {
    if d != 0.0 then d else 0.001
  }

  /** The scale s = min(hw / |adx|, hh / |ady|) of clipRect (with zero offsets replaced). */
  function ClipScale(hw: real, hh: real, adx: real, ady: real): (s: real)
    requires hw > 0.0 && hh > 0.0
    ensures s > 0.0
    ensures s * Abs(NonZero(adx)) <= hw && s * Abs(NonZero(ady)) <= hh
    ensures s * Abs(NonZero(adx)) == hw || s * Abs(NonZero(ady)) == hh
  {
    Min(hw / Abs(NonZero(adx)), hh / Abs(NonZero(ady)))
  }

  /**
   * `clipRect`: the point where the ray from the centre (cx, cy) toward
   * (ax, ay) leaves the box of half-sizes hw × hh.
   */
  function ClipRect(cx: real, cy: real, hw: real, hh: real, ax: real, ay: real): (real, real)
    requires hw > 0.0 && hh > 0.0
  {
    var s := ClipScale(hw, hh, ax - cx, ay - cy);
    (ClipAxis(cx, ax, hw, s), ClipAxis(cy, ay, hh, s))
  }

  /**
   * The clipped point lies on the ray, scaled by the same factor on both
   * axes; it lies in the box, and on its border unless the ray is
   * axis-parallel.
   */
  lemma ClipRectInBox(cx: real, cy: real, hw: real, hh: real, ax: real, ay: real)
    requires hw > 0.0 && hh > 0.0
    ensures var p := ClipRect(cx, cy, hw, hh, ax, ay);
      var s := ClipScale(hw, hh, ax - cx, ay - cy);
      p.0 - cx == (ax - cx) * s && p.1 - cy == (ay - cy) * s
      && Abs(p.0 - cx) <= hw && Abs(p.1 - cy) <= hh
      && (ax != cx && ay != cy ==> Abs(p.0 - cx) == hw || Abs(p.1 - cy) == hh)
  {
    var s := ClipScale(hw, hh, ax - cx, ay - cy);
    var x := ClipAxis(cx, ax, hw, s);
    var y := ClipAxis(cy, ay, hh, s);
    assert ClipRect(cx, cy, hw, hh, ax, ay) == (x, y);
  }

  /** One coordinate of the clipped point: c + (a - c) · s. */
  function ClipAxis(c: real, a: real, h: real, s: real): (q: real)
    requires s > 0.0 && h > 0.0 && s * Abs(NonZero(a - c)) <= h
    ensures q - c == (a - c) * s
    ensures Abs(q - c) <= h
    ensures a != c && s * Abs(NonZero(a - c)) == h ==> Abs(q - c) == h
  {
    ClipBounds(a - c, s, h);
    c + (a - c) * s
  }

  lemma ClipBounds(d: real, s: real, h: real)
    requires s > 0.0 && h > 0.0 && s * Abs(NonZero(d)) <= h
    ensures Abs(d * s) <= h
    ensures d != 0.0 && s * Abs(NonZero(d)) == h ==> Abs(d * s) == h
  {
    if d != 0.0 {
      if d < 0.0 {
        assert Abs(d * s) == -d * s == s * Abs(d);
      } else {
        assert Abs(d * s) == d * s == s * Abs(d);
      }
    }
  }

  /** A position on the canvas, absent before the physics has placed the node. */
  datatype Pos = Pos(x: real, y: real)

  /** The squared distance between two centres (dist < 1 exactly when this is < 1). */
  function Dist2(a: Pos, b: Pos): (r: real)
    ensures r >= 0.0
  {
    (b.x - a.x) * (b.x - a.x) + (b.y - a.y) * (b.y - a.y)
  }

  /**
   * Which segment `paintLink` draws: none when an end has no position or the
   * centres are less than 1 apart, otherwise from the source's box edge (2
   * units of margin) to the target's box edge.
   */
  function LinkSegment(src: Option<Pos>, tgt: Option<Pos>, srcHalf: (real, real), tgtHalf: (real, real)): (r: Option<((real, real), (real, real))>)
    requires srcHalf.0 > 0.0 && srcHalf.1 > 0.0 && tgtHalf.0 > 0.0 && tgtHalf.1 > 0.0
    ensures r.Some? <==> (src.Some? && tgt.Some? && Dist2(src.value, tgt.value) >= 1.0)
    ensures r.Some? ==>
      Abs(r.value.0.0 - src.value.x) <= srcHalf.0 + 2.0 && Abs(r.value.0.1 - src.value.y) <= srcHalf.1 + 2.0 &&
      Abs(r.value.1.0 - tgt.value.x) <= tgtHalf.0 + 2.0 && Abs(r.value.1.1 - tgt.value.y) <= tgtHalf.1 + 2.0
  {
    if src.None? || tgt.None? then None
    else
      var s := src.value;
      var t := tgt.value;
      if Dist2(s, t) < 1.0 then None
      else
        ClipRectInBox(s.x, s.y, srcHalf.0 + 2.0, srcHalf.1 + 2.0, t.x, t.y);
        ClipRectInBox(t.x, t.y, tgtHalf.0 + 2.0, tgtHalf.1 + 2.0, s.x, s.y);
        Some((ClipRect(s.x, s.y, srcHalf.0 + 2.0, srcHalf.1 + 2.0, t.x, t.y),
              ClipRect(t.x, t.y, tgtHalf.0 + 2.0, tgtHalf.1 + 2.0, s.x, s.y)))
  }
}
