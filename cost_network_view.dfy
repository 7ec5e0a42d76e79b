// The interactive state of the radial network view: the expanded-id set with
// its cascading collapse, the selected node, zoom, pan and the drag gesture.
module CostNetworkView {
  import opened Common
  import opened CostNetworkTree

  const MinZoom: real := 0.25
  const MaxZoom: real := 6.0

  /** Squared drag threshold: a gesture becomes a drag once hypot(dx, dy) > 4. */
  const DragThreshold2: real := 16.0

  /** Ids a collapse of `id` removes: id itself and, if the tree has a node with that id, all ids under it. */
  function CascadeIds(tree: Node, id: string): (r: set<string>)
    ensures id in r
    ensures FindNode(tree, id).Some? ==> IdSet(FindNode(tree, id).value) <= r
  {
    {id} + (match FindNode(tree, id) case Some(n) => IdSet(n) case None => {})
  }

  /** The ids under the first i + 1 children: those under the first i and those under child i. */
  lemma ChildIdsSnoc(tree: Node, cs: seq<Node>, i: nat)
    requires i < |cs| && FindNode(tree, cs[i].id) == Some(cs[i])
    ensures IdsOf(SubtreesAll(cs[..i + 1])) == IdsOf(SubtreesAll(cs[..i])) + CascadeIds(tree, cs[i].id)
  {
    assert cs[..i + 1] == cs[..i] + [cs[i]];
    SubtreesAllSnoc(cs[..i], cs[i]);
    IdsOfAppend(SubtreesAll(cs[..i]), Subtrees(cs[i]));
    assert cs[i].id in IdSet(cs[i]);
  }

  /** The expanded set after toggling `id`: collapse with cascade if it was expanded, else add it alone. */
  function Toggled(tree: Node, expanded: set<string>, id: string): set<string>
  {
    if id in expanded then expanded - CascadeIds(tree, id) else expanded + {id}
  }

  /** Clamp into [MinZoom, MaxZoom], as max(0.25, min(6, z)). */
  function ClampZoom(z: real): (r: real)
    ensures MinZoom <= r <= MaxZoom
    ensures MinZoom <= z <= MaxZoom ==> r == z
    ensures z < MinZoom ==> r == MinZoom
    ensures z > MaxZoom ==> r == MaxZoom
  {
    Max(MinZoom, Min(MaxZoom, z))
  }

  /** The wheel factor: scrolling down (deltaY > 0) zooms out by 0.88, anything else zooms in by 1.12. */
  function WheelFactor(deltaY: real): (f: real)
    ensures deltaY > 0.0 <==> f < 1.0
    ensures f > 0.0
  {
    if deltaY > 0.0 then 0.88 else 1.12
  }

  class NetworkView {
    const tree: Node
    var expanded: set<string>
    var selected: Option<string>
    var zoom: real
    var panX: real
    var panY: real
    // the drag record
    var dragActive: bool
    var didDrag: bool
    var startX: real
    var startY: real
    var startPanX: real
    var startPanY: real

    /** Ids are unique in the tree and the zoom stays in range. */
    predicate Valid()
      reads this
    {
      UniqueIds(tree) && MinZoom <= zoom <= MaxZoom
    }

    /** Initial state: only the root expanded, nothing selected, zoom 1, no pan, no drag. */
    constructor (t: Node)
      requires UniqueIds(t)
      ensures Valid() && tree == t
      ensures expanded == {"root"} && selected == None
      ensures zoom == 1.0 && panX == 0.0 && panY == 0.0
      ensures !dragActive && !didDrag
    {
      tree := t;
      expanded := {"root"};
      selected := None;
      zoom := 1.0;
      panX, panY := 0.0, 0.0;
      dragActive, didDrag := false, false;
      startX, startY, startPanX, startPanY := 0.0, 0.0, 0.0, 0.0;
    }

    /** `collapse`: removes id, then collapses each child of the node the tree holds under that id. */
    method Collapse(id: string, s: set<string>, ghost n: Node) returns (r: set<string>)
      requires UniqueIds(tree)
      requires FindNode(tree, id).Some? ==> FindNode(tree, id) == Some(n)
      ensures r == s - CascadeIds(tree, id)
      decreases n, 1
    {
      r := s - {id};
      var found := FindNode(tree, id);
      if found.Some? {
        FindNodeIn(tree, id);
        r := CollapseChildren(found.value.children, r, n);
        IdSetSplit(n);
      }
    }

    /** The `forEach` over the children of a collapsed node. */
    method CollapseChildren(cs: seq<Node>, s: set<string>, ghost parent: Node) returns (r: set<string>)
      requires UniqueIds(tree) && parent in Subtrees(tree) && cs == parent.children
      ensures r == s - IdsOf(SubtreesAll(cs))
      decreases parent, 0
    {
      r := s;
      assert cs[..0] == [];
      for i := 0 to |cs|
        invariant r == s - IdsOf(SubtreesAll(cs[..i]))
      {
        ChildIsSubtree(parent, cs[i]);
        SubtreeTransitive(tree, parent, cs[i]);
        FindUnique(tree, cs[i]);
        r := Collapse(cs[i].id, r, cs[i]);
        ChildIdsSnoc(tree, cs, i);
      }
      assert cs[..|cs|] == cs;
    }

    /** `toggleNode`: collapse (with cascade) or expand the id, and select it. */
    method Toggle(id: string)
      requires Valid()
      modifies this
      ensures Valid()
      ensures expanded == Toggled(tree, old(expanded), id)
      ensures selected == Some(id)
      ensures zoom == old(zoom) && panX == old(panX) && panY == old(panY)
      ensures dragActive == old(dragActive) && didDrag == old(didDrag)
      ensures startX == old(startX) && startY == old(startY)
      ensures startPanX == old(startPanX) && startPanY == old(startPanY)
    {
      if id in expanded {
        ghost var n := if FindNode(tree, id).Some? then FindNode(tree, id).value else tree;
        expanded := Collapse(id, expanded, n);
      } else {
        expanded := expanded + {id};
      }
      selected := Some(id);
    }

    /** The wheel handler: multiply by 0.88 or 1.12, then clamp. */
    method WheelZoom(deltaY: real)
      requires Valid()
      modifies this`zoom
      ensures Valid()
      ensures zoom == ClampZoom(old(zoom) * WheelFactor(deltaY))
      ensures deltaY > 0.0 ==> zoom <= old(zoom)
      ensures deltaY <= 0.0 ==> zoom >= old(zoom)
    {
      zoom := ClampZoom(zoom * WheelFactor(deltaY));
    }

    /** The zoom-in button: min(z · 1.3, 6). */
    method ZoomIn()
      requires Valid()
      modifies this`zoom
      ensures Valid()
      ensures zoom == Min(old(zoom) * 1.3, MaxZoom)
      ensures zoom >= old(zoom)
    {
      zoom := Min(zoom * 1.3, MaxZoom);
    }

    /** The zoom-out button: max(z · 0.7, 0.25). */
    method ZoomOut()
      requires Valid()
      modifies this`zoom
      ensures Valid()
      ensures zoom == Max(old(zoom) * 0.7, MinZoom)
      ensures zoom <= old(zoom)
    {
      zoom := Max(zoom * 0.7, MinZoom);
    }

    /** Mouse down: start a gesture at (x, y), remembering the current pan. */
    method MouseDown(x: real, y: real)
      modifies this`dragActive, this`didDrag, this`startX, this`startY, this`startPanX, this`startPanY
      ensures dragActive && !didDrag
      ensures startX == x && startY == y && startPanX == panX && startPanY == panY
    {
      dragActive, didDrag := true, false;
      startX, startY := x, y;
      startPanX, startPanY := panX, panY;
    }

    /**
     * Mouse move to (x, y) over a view of rectW × rectH pixels: once the cursor
     * has moved more than 4 pixels the gesture is a drag, and while dragging the
     * pan follows the cursor, converted from pixels to view-box units.
     */
    method MouseMove(x: real, y: real, base: Box, rectW: real, rectH: real)
      requires Valid() && rectW > 0.0 && rectH > 0.0
      modifies this`didDrag, this`panX, this`panY
      ensures !old(dragActive) ==> didDrag == old(didDrag) && panX == old(panX) && panY == old(panY)
      ensures old(dragActive) ==>
        didDrag == (old(didDrag) || (x - startX) * (x - startX) + (y - startY) * (y - startY) > DragThreshold2)
      ensures old(dragActive) && didDrag ==>
        panX == startPanX + (x - startX) * (base.w / zoom / rectW) &&
        panY == startPanY + (y - startY) * (base.h / zoom / rectH)
      ensures !didDrag ==> panX == old(panX) && panY == old(panY)
    {
      if !dragActive {
        return;
      }
      var dx := x - startX;
      var dy := y - startY;
      if !didDrag && dx * dx + dy * dy > DragThreshold2 {
        didDrag := true;
      }
      if didDrag {
        var zw := base.w / zoom;
        var zh := base.h / zoom;
        panX := startPanX + dx * (zw / rectW);
        panY := startPanY + dy * (zh / rectH);
      }
    }

    /** Mouse up: the gesture ends; `didDrag` is kept so the click that follows can see it. */
    method MouseUp()
      modifies this`dragActive
      ensures !dragActive
    {
      dragActive := false;
    }

    /** A click on a node: ignored after a drag; toggles a node with children, otherwise selects it. */
    method NodeClick(id: string, hasChildren: bool)
      requires Valid()
      modifies this
      ensures Valid()
      ensures old(didDrag) ==> expanded == old(expanded) && selected == old(selected)
      ensures !old(didDrag) && hasChildren ==> expanded == Toggled(tree, old(expanded), id)
      ensures !old(didDrag) && !hasChildren ==> expanded == old(expanded)
      ensures !old(didDrag) ==> selected == Some(id)
      ensures zoom == old(zoom) && panX == old(panX) && panY == old(panY)
      ensures didDrag == old(didDrag) && dragActive == old(dragActive)
      ensures startX == old(startX) && startY == old(startY) && startPanX == old(startPanX) && startPanY == old(startPanY)
    {
      if didDrag {
        return;
      }
      if hasChildren {
        Toggle(id);
      } else {
        selected := Some(id);
      }
    }

    /** `resetView`: only the root expanded, no selection, zoom 1, no pan. */
    method Reset()
      requires Valid()
      modifies this`expanded, this`selected, this`zoom, this`panX, this`panY
      ensures Valid()
      ensures expanded == {"root"} && selected == None
      ensures zoom == 1.0 && panX == 0.0 && panY == 0.0
    {
      expanded := {"root"};
      selected := None;
      zoom := 1.0;
      panX, panY := 0.0, 0.0;
    }

    /** `fitAll`: zoom 1 and no pan; the expanded set and selection are kept. */
    method FitAll()
      requires Valid()
      modifies this`zoom, this`panX, this`panY
      ensures Valid()
      ensures zoom == 1.0 && panX == 0.0 && panY == 0.0
    {
      zoom := 1.0;
      panX, panY := 0.0, 0.0;
    }

    /** The view window of the current state over the base box. */
    function Window(base: Box): (v: Box)
      requires Valid()
      reads this
      ensures v.w * zoom == base.w && v.h * zoom == base.h
    {
      ViewWindow(base, zoom, panX, panY)
    }
  }

  // -----------------------------------------------------------------
  // Properties of the toggle
  // -----------------------------------------------------------------

  /** Collapsing leaves nothing behind: the id and every id below it are gone, all other ids are untouched. */
  lemma CollapseCascade(tree: Node, e: set<string>, id: string)
    requires id in e
    ensures id !in Toggled(tree, e, id)
    ensures FindNode(tree, id).Some? ==> IdSet(FindNode(tree, id).value) !! Toggled(tree, e, id)
    ensures forall x :: x !in CascadeIds(tree, id) ==> (x in Toggled(tree, e, id) <==> x in e)
    ensures Toggled(tree, e, id) <= e
  {
  }

  /** Expanding adds exactly that id. */
  lemma ExpandOnly(tree: Node, e: set<string>, id: string)
    requires id !in e
    ensures Toggled(tree, e, id) == e + {id}
    ensures forall x :: x != id ==> (x in Toggled(tree, e, id) <==> x in e)
  {
  }

  /** Expanding then collapsing an id restores the set when nothing below it was expanded. */
  lemma ToggleRoundTrip(tree: Node, e: set<string>, id: string)
    requires id !in e && CascadeIds(tree, id) !! e
    ensures Toggled(tree, Toggled(tree, e, id), id) == e
  {
    assert id in Toggled(tree, e, id);
  }

  /** Collapsing then expanding an id leaves it expanded with nothing below it expanded. */
  lemma CollapseThenExpand(tree: Node, e: set<string>, id: string)
    requires id in e
    ensures Toggled(tree, Toggled(tree, e, id), id) == (e - CascadeIds(tree, id)) + {id}
  {
    CollapseCascade(tree, e, id);
  }

  /** With the zoom at 1 and no pan (after Reset or FitAll) the window is the base box. */
  lemma HomeWindow(base: Box, zoom: real, panX: real, panY: real)
    requires zoom == 1.0 && panX == 0.0 && panY == 0.0
    ensures ViewWindow(base, zoom, panX, panY) == base
  {
    FittedWindowIsBase(base);
  }

  /** A drag moves the window opposite to the cursor by the cursor's travel in view-box units. */
  lemma DragMovesWindow(base: Box, zoom: real, startPanX: real, dx: real, rectW: real)
    requires zoom > 0.0 && rectW > 0.0
    ensures ViewWindow(base, zoom, startPanX + dx * (base.w / zoom / rectW), 0.0).x
         == ViewWindow(base, zoom, startPanX, 0.0).x - dx * (base.w / zoom / rectW)
  {
  }
}
