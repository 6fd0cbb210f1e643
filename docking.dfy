/**
 * The docking engine: the host scene graph the engine drives (as per-node
 * state keyed by integer handles), DockControl, which resolves one child's
 * DockStyle into a size and a local translation, and DynamicLayout, which
 * registers the children of one container and drives the recompute cascade.
 */
module Docking {
  import opened Wrappers
  import opened Geometry
  import opened Viewport
  import opened Scaling
  import opened Styles

  /** A scene-graph node, by identity. */
  type Node = int

  /** The jME cull hint of a node. */
  datatype CullHint = Inherit | Dynamic | Always | Never

  /** isVisible: a node counts as visible exactly when its hint is Never. */
  predicate Visible(h: CullHint) {
    h == Never
  }

  /**
   * The transition of setVisible: Always becomes Never when showing and
   * Never becomes Always when hiding; every other hint stays as it is.
   */
  function ToggledHint(h: CullHint, visible: bool): (r: CullHint)
    ensures (h == Always || h == Never) ==> (r == Always || r == Never) && (Visible(r) <==> visible)
    ensures (h != Always && h != Never) ==> r == h
  {
    if visible && h == Always then Never
    else if !visible && h == Never then Always
    else h
  }

  /** A non-empty set of nodes has an element to pick. */
  lemma HasElement(s: set<Node>)
    requires s != {}
    ensures exists n :: n in s
  {
    if forall n :: n !in s {
      assert false;
    }
  }

  /** The scene-parent map once every node in `nodes` has been attached under `p`. */
  function Adopted(parentOf: map<Node, Node>, nodes: set<Node>, p: Node): (r: map<Node, Node>)
    ensures r.Keys == parentOf.Keys + nodes
    ensures forall x | x in nodes :: r[x] == p
    ensures forall x | x in parentOf && x !in nodes :: r[x] == parentOf[x]
  {
    map x | x in parentOf.Keys + nodes :: if x in nodes then p else parentOf[x]
  }

  /** Attaching one more node extends the adopted set. */
  lemma AdoptOneMore(parentOf: map<Node, Node>, nodes: set<Node>, n: Node, p: Node)
    ensures Adopted(parentOf, nodes, p)[n := p] == Adopted(parentOf, nodes + {n}, p)
  {
  }

  /**
   * After setVisible(visible) a node is visible exactly when `visible` holds
   * and its hint was Always or Never; on Dynamic, the effective hint of a
   * node that has never been shown or hidden, showing it leaves it invisible.
   */
  lemma VisibleAfterToggle(h: CullHint, visible: bool)
    ensures Visible(ToggledHint(h, visible)) <==> visible && (h == Always || h == Never)
    ensures h == Dynamic ==> !Visible(ToggledHint(h, true))
  {
  }

  /** The state of a node's GuiControl: its current size and the preferred size the framework computes. */
  datatype GuiState = GuiState(size: Vec3, preferred: Vec3)

  /** The error addChild and attach throw for a node without a GuiControl. */
  datatype LayoutError = NotGuiElement

  /**
   * The host scene graph, reduced to the per-node state the engine reads and
   * writes. The nodes that have a GuiControl are fixed: the engine never
   * adds or removes one.
   */
  class Scene {
    /** The nodes that have a GuiControl. */
    const guiNodes: set<Node>
    /** The scene-graph parent of each attached node. */
    var parentOf: map<Node, Node>
    var gui: map<Node, GuiState>
    var translation: map<Node, Vec3>
    /** The effective cull hint of each node, as getCullHint reports it. */
    var cull: map<Node, CullHint>
    /** The DockControl attached to a node, if any. */
    var docks: map<Node, DockControl>
    /** The nodes that are Containers whose layout is a DynamicLayout, with that layout. */
    var layouts: map<Node, DynamicLayout>

    constructor (gui: map<Node, GuiState>, translation: map<Node, Vec3>, cull: map<Node, CullHint>)
      ensures this.gui == gui && this.translation == translation && this.cull == cull
      ensures guiNodes == gui.Keys && parentOf == map[] && docks == map[] && layouts == map[]
    {
      guiNodes := gui.Keys;
      this.gui := gui;
      this.translation := translation;
      this.cull := cull;
      parentOf := map[];
      docks := map[];
      layouts := map[];
    }

    /** Exactly the nodes that have a GuiControl have a GuiControl state. */
    predicate Sound()
      reads this`gui
    {
      gui.Keys == guiNodes
    }

    /**
     * What the host guarantees about docked nodes: a DockControl sits on a
     * node with a GuiControl and knows that node, and every registered layout
     * agrees with the controls attached to its children.
     */
    ghost predicate Valid()
      reads this`docks, this`layouts, layouts.Values`children
    {
      && docks.Keys <= guiNodes
      && (forall n | n in docks :: docks[n].spatial == n && docks[n].scene == this)
      && (forall k | k in layouts :: layouts[k].scene == this && layouts[k].RegisteredIn(docks))
    }

    /** `setups` holds what updateGui reads of each docked control, by node. */
    ghost predicate Describes(setups: map<Node, Setup>)
      reads this`docks, docks.Values`style, docks.Values`parent,
            (set d | d in docks.Values :: d.style)`lockscaling, (set d | d in docks.Values :: d.style)`dock,
            (set d | d in docks.Values :: d.style)`pos, (set d | d in docks.Values :: d.style)`size,
            (set d | d in docks.Values && d.root != null :: d.root),
            (set d | d in docks.Values && d.root != null :: d.root.appSize),
            (set d | d in docks.Values && d.parent != null :: d.parent)`style,
            (set d | d in docks.Values && d.parent != null :: d.parent.style)`lockscaling
    {
      && setups.Keys == docks.Keys
      && forall n | n in docks :: setups[n] == docks[n].Snapshot()
    }

    /** Containers nest without cycles: a layout's child layouts have a smaller level. */
    ghost predicate Nested()
      reads this`layouts, layouts.Values`children
    {
      forall k, x | k in layouts && x in layouts[k].children && x in layouts :: layouts[x].level < layouts[k].level
    }

    /**
     * What restart needs besides a sound scene: `setups` and `nests` describe
     * the scene, every control is ready and layouts nest without cycles.
     */
    ghost predicate Restartable(setups: map<Node, Setup>, nests: map<Node, Nesting>)
      reads this`docks, this`layouts, layouts.Values`children,
            docks.Values`style, docks.Values`parent,
            (set d | d in docks.Values :: d.style)`lockscaling, (set d | d in docks.Values :: d.style)`dock,
            (set d | d in docks.Values :: d.style)`pos, (set d | d in docks.Values :: d.style)`size,
            (set d | d in docks.Values && d.root != null :: d.root),
            (set d | d in docks.Values && d.root != null :: d.root.appSize),
            (set d | d in docks.Values && d.parent != null :: d.parent)`style,
            (set d | d in docks.Values && d.parent != null :: d.parent.style)`lockscaling
    {
      && Describes(setups) && nests == Nests() && Valid() && Nested()
      && AllReadyAt(setups, guiNodes)
    }

    /** The level and the children of each layout in the scene. */
    ghost function Nests(): map<Node, Nesting>
      reads this`layouts, layouts.Values`children
    {
      map k | k in layouts :: Nesting(layouts[k].level, layouts[k].children.Keys)
    }
  }

  /** What restart reads of a DynamicLayout: its level and its children. */
  datatype Nesting = Nesting(level: nat, kids: set<Node>)

  /**
   * The nodes restart reaches from the nodes in `xs` when it runs on a
   * layout of level `bound`: the nodes themselves and, for each that holds
   * a layout of smaller level, what that layout's restart reaches.
   */
  ghost function Reach(nests: map<Node, Nesting>, xs: set<Node>, bound: nat): set<Node>
    decreases bound
  {
    xs + (set x, y | x in xs && x in nests && nests[x].level < bound
                     && y in Reach(nests, nests[x].kids, nests[x].level) :: y)
  }

  /** Reaching from one more node adds that node and what its own layout reaches. */
  lemma ReachStep(nests: map<Node, Nesting>, xs: set<Node>, n: Node, bound: nat)
    requires n in nests ==> nests[n].level < bound
    ensures Reach(nests, xs + {n}, bound) <= Reach(nests, xs, bound) + {n} +
      (if n in nests then Reach(nests, nests[n].kids, nests[n].level) else {})
  {
  }

  /** Setting a key after removing it is setting it. */
  lemma RemoveThenAdd(m: map<Node, Node>, k: Node, v: Node)
    ensures (m - {k})[k := v] == m[k := v]
  {
  }

  /** Moving one node from the to-do set to the done set. */
  lemma TakeOne(all: set<Node>, todo: set<Node>, n: Node)
    requires n in todo && todo <= all
    ensures all - (todo - {n}) == (all - todo) + {n}
  {
  }

  /**
   * `target` holds the setups as reshape leaves them: each docked node's
   * preferred size is the one its GuiControl reports in `gui`.
   */
  ghost predicate WithPreferred(target: map<Node, Setup>, setups: map<Node, Setup>, gui: map<Node, GuiState>) {
    && target.Keys == setups.Keys && setups.Keys <= gui.Keys
    && forall n | n in setups :: target[n] == setups[n].(pref := gui[n].preferred)
  }

  /** Every control described by `setups` can run updateGui on its node. */
  ghost predicate AllReadyAt(setups: map<Node, Setup>, nodes: set<Node>) {
    forall n | n in setups :: setups[n].ReadyAt(n, nodes)
  }

  /** The size of the parent's GuiControl in `gui`, as updateGui reads it (zero without a parent). */
  function ParentSizeIn(s: Setup, gui: map<Node, GuiState>): Vec3 {
    if s.parentNode.Some? && s.parentNode.value in gui then gui[s.parentNode.value].size else Zero
  }

  /**
   * `t` is where updateGui puts a node with setup `s` while its parent has
   * the size it had in `gui0` or, when the parent is docked, the size MySize
   * gives the parent: a node placed before its parent is resized keeps the
   * position computed from the parent's earlier size.
   */
  ghost predicate Placed(setups: map<Node, Setup>, s: Setup, gui0: map<Node, GuiState>, t: Vec3) {
    && s.Resolvable()
    && (|| t == Translation(s, ParentSizeIn(s, gui0))
        || (&& s.parentNode.Some? && s.parentNode.value in setups && setups[s.parentNode.value].RootSized()
            && t == Translation(s, MySize(setups[s.parentNode.value]))))
  }

  /**
   * From (gui0, translation0) to (gui1, translation1) only docked nodes (the
   * keys of `setups`) have changed, and only towards what updateGui gives
   * them: every GuiControl keeps its preferred size, every other node keeps
   * its state, every docked node has either its old size or the size MySize
   * computes from its setup, and either its old translation or one updateGui
   * gives it.
   */
  ghost predicate Settled(setups: map<Node, Setup>,
                          gui0: map<Node, GuiState>, translation0: map<Node, Vec3>,
                          gui1: map<Node, GuiState>, translation1: map<Node, Vec3>)
  {
    && gui1.Keys == gui0.Keys
    && translation0.Keys <= translation1.Keys <= translation0.Keys + setups.Keys
    && (forall n | n in gui0 :: gui1[n].preferred == gui0[n].preferred)
    && (forall n | n in gui0 && n !in setups :: gui1[n] == gui0[n])
    && (forall n | n in translation0 && n !in setups :: translation1[n] == translation0[n])
    && (forall n | n in gui0 && n in setups ::
          gui1[n].size == gui0[n].size || (setups[n].RootSized() && gui1[n].size == MySize(setups[n])))
    && (forall n | n in translation1 && n in setups ::
          (n in translation0 && translation1[n] == translation0[n]) || Placed(setups, setups[n], gui0, translation1[n]))
  }

  /**
   * Every node in `done` is docked, has the size MySize computes from its
   * setup and a translation updateGui gives it, counting from `gui0`.
   */
  ghost predicate Done(setups: map<Node, Setup>, done: set<Node>, gui0: map<Node, GuiState>,
                       gui: map<Node, GuiState>, translation: map<Node, Vec3>) {
    forall x | x in done ::
      && x in setups && setups[x].RootSized() && x in gui && gui[x].size == MySize(setups[x])
      && x in translation && Placed(setups, setups[x], gui0, translation[x])
  }

  /** From (gui0, translation0) the state has settled, with the nodes in `done` done. */
  ghost predicate Progress(setups: map<Node, Setup>, done: set<Node>, gui0: map<Node, GuiState>, translation0: map<Node, Vec3>,
                           gui: map<Node, GuiState>, translation: map<Node, Vec3>) {
    Settled(setups, gui0, translation0, gui, translation) && Done(setups, done, gui0, gui, translation)
  }

  /** Nothing is done in a state that has not moved. */
  lemma Unmoved(setups: map<Node, Setup>, gui: map<Node, GuiState>, translation: map<Node, Vec3>)
    ensures Progress(setups, {}, gui, translation, gui, translation)
  {
  }

  /** A placement counted from a settled later state is one counted from the earlier state. */
  lemma PlacedLift(setups: map<Node, Setup>, s: Setup,
                   gui0: map<Node, GuiState>, translation0: map<Node, Vec3>,
                   gui1: map<Node, GuiState>, translation1: map<Node, Vec3>, t: Vec3)
    requires Settled(setups, gui0, translation0, gui1, translation1)
    requires Placed(setups, s, gui1, t)
    ensures Placed(setups, s, gui0, t)
  {
    if s.parentNode.Some? && s.parentNode.value in gui0 {
      var p := s.parentNode.value;
      if p !in setups {
        assert gui1[p] == gui0[p];
      }
    }
  }

  /**
   * Without a parent, or with a parent that is not docked, a node's placement
   * is exactly where updateGui puts it given the parent's current size.
   */
  lemma PlacedExact(setups: map<Node, Setup>, s: Setup,
                    gui0: map<Node, GuiState>, translation0: map<Node, Vec3>,
                    gui1: map<Node, GuiState>, translation1: map<Node, Vec3>, t: Vec3)
    requires Settled(setups, gui0, translation0, gui1, translation1)
    requires Placed(setups, s, gui0, t)
    requires s.parentNode.None? || s.parentNode.value !in setups
    ensures t == Translation(s, ParentSizeIn(s, gui1))
  {
    if s.parentNode.Some? && s.parentNode.value in gui0 {
      var p := s.parentNode.value;
      assert p in gui0 && p !in setups;
      assert gui1[p] == gui0[p];
    }
  }

  /** Settling is transitive. */
  lemma SettledTrans(setups: map<Node, Setup>,
                     gui0: map<Node, GuiState>, translation0: map<Node, Vec3>,
                     gui1: map<Node, GuiState>, translation1: map<Node, Vec3>,
                     gui2: map<Node, GuiState>, translation2: map<Node, Vec3>)
    requires Settled(setups, gui0, translation0, gui1, translation1)
    requires Settled(setups, gui1, translation1, gui2, translation2)
    ensures Settled(setups, gui0, translation0, gui2, translation2)
  {
    forall n | n in translation2 && n in setups && !(n in translation1 && translation2[n] == translation1[n])
      ensures Placed(setups, setups[n], gui0, translation2[n])
    {
      PlacedLift(setups, setups[n], gui0, translation0, gui1, translation1, translation2[n]);
    }
  }

  /** Done nodes, counted from a settled later state, are done counted from the earlier one. */
  lemma DoneLift(setups: map<Node, Setup>, done: set<Node>,
                 gui0: map<Node, GuiState>, translation0: map<Node, Vec3>,
                 gui1: map<Node, GuiState>, translation1: map<Node, Vec3>,
                 gui: map<Node, GuiState>, translation: map<Node, Vec3>)
    requires Settled(setups, gui0, translation0, gui1, translation1)
    requires Done(setups, done, gui1, gui, translation)
    ensures Done(setups, done, gui0, gui, translation)
  {
    forall x | x in done ensures Placed(setups, setups[x], gui0, translation[x]) {
      PlacedLift(setups, setups[x], gui0, translation0, gui1, translation1, translation[x]);
    }
  }

  /** Progress survives a further settling step. */
  lemma ProgressKept(setups: map<Node, Setup>, done: set<Node>,
                     gui0: map<Node, GuiState>, translation0: map<Node, Vec3>,
                     gui1: map<Node, GuiState>, translation1: map<Node, Vec3>,
                     gui2: map<Node, GuiState>, translation2: map<Node, Vec3>)
    requires Progress(setups, done, gui0, translation0, gui1, translation1)
    requires Settled(setups, gui1, translation1, gui2, translation2)
    ensures Progress(setups, done, gui0, translation0, gui2, translation2)
  {
    SettledTrans(setups, gui0, translation0, gui1, translation1, gui2, translation2);
    forall x | x in done && !(translation2[x] == translation1[x])
      ensures Placed(setups, setups[x], gui0, translation2[x])
    {
      PlacedLift(setups, setups[x], gui0, translation0, gui1, translation1, translation2[x]);
    }
  }

  /**
   * One updateGui on docked node n, from a state that has settled since
   * (gui0, translation0), keeps it settled and adds n to the done nodes.
   */
  lemma UpdateProgress(setups: map<Node, Setup>, done: set<Node>, n: Node,
                       gui0: map<Node, GuiState>, translation0: map<Node, Vec3>,
                       gui1: map<Node, GuiState>, translation1: map<Node, Vec3>,
                       gui2: map<Node, GuiState>, translation2: map<Node, Vec3>)
    requires Progress(setups, done, gui0, translation0, gui1, translation1)
    requires n in setups && setups[n].Resolvable() && n in gui1
    requires gui2 == gui1[n := gui1[n].(size := MySize(setups[n]))]
    requires translation2.Keys == translation1.Keys + {n}
    requires forall k | k in translation1 && k != n :: translation2[k] == translation1[k]
    requires translation2[n] == Translation(setups[n], ParentSizeIn(setups[n], gui1))
    ensures Progress(setups, done + {n}, gui0, translation0, gui2, translation2)
  {
    assert Settled(setups, gui1, translation1, gui2, translation2);
    ProgressKept(setups, done, gui0, translation0, gui1, translation1, gui2, translation2);
    PlacedLift(setups, setups[n], gui0, translation0, gui1, translation1, translation2[n]);
  }

  /** The root pane as a docked node sees it: its own extent and the current viewport size. */
  datatype RootView = RootView(width: real, height: real, viewWidth: real, viewHeight: real) {
    /** Both scale factors are defined. */
    predicate Sized() {
      width != 0.0 && height != 0.0
    }

    function SfW(): real
      requires Sized()
    {
      ScaleFactor(viewWidth, width)
    }

    function SfH(): real
      requires Sized()
    {
      ScaleFactor(viewHeight, height)
    }
  }

  /**
   * The view a control takes of its root pane has the pane's extents and
   * scale factors: it is sized exactly when the pane is, and then its
   * factors are getScaleFactorWidth and getScaleFactorHeight.
   */
  lemma RootViewAgrees(p: Scalable)
    ensures var v := RootView(p.width, p.height, p.appSize.width, p.appSize.height);
      && (v.Sized() <==> p.Sized())
      && (v.Sized() ==> v.SfW() == p.ScaleFactorWidth() && v.SfH() == p.ScaleFactorHeight())
  {
  }

  /**
   * Everything updateGui reads apart from the GuiControl sizes: the root pane
   * (None for a null root), the control's style, the node of the control's
   * parent (None without one) and whether that parent locks scaling.
   */
  datatype Setup = Setup(root: Option<RootView>, dock: Dock, pos: Vec3, pref: Vec3, lockscaling: bool,
                         parentNode: Option<Node>, parentLocked: bool)
  {
    predicate HasParent() {
      parentNode.Some?
    }

    predicate RootSized() {
      root.Some? ==> root.value.Sized()
    }

    /** updateGui can run: without a parent it dereferences the root. */
    predicate Resolvable() {
      RootSized() && (root.None? ==> HasParent())
    }

    /**
     * The control on node `n` can run updateGui in a scene whose GuiControls
     * sit on `nodes`: its node and its parent's node have one, and a control
     * is not its own parent.
     */
    predicate ReadyAt(n: Node, nodes: set<Node>) {
      && Resolvable()
      && n in nodes
      && (parentNode.Some? ==> parentNode.value in nodes && parentNode.value != n)
    }
  }

  /**
   * The size updateGui gives the node's GuiControl. Without lock scaling the
   * width scales like the root's width scales to the viewport; with it, like
   * the height; the height always scales like the root's height; the depth is
   * never scaled; lock scaling keeps the preferred aspect ratio. Without a
   * root the size is zero.
   */
  function MySize(s: Setup): (r: Vec3)
    requires s.RootSized()
    ensures s.root.None? ==> r == Zero
    ensures s.root.Some? ==> r.z == s.pref.z
    ensures s.root.Some? ==> r.y * s.root.value.height == s.pref.y * s.root.value.viewHeight
    ensures s.root.Some? && !s.lockscaling ==> r.x * s.root.value.width == s.pref.x * s.root.value.viewWidth
    ensures s.root.Some? && s.lockscaling ==> r.x * s.root.value.height == s.pref.x * s.root.value.viewHeight
    ensures s.root.Some? && s.lockscaling ==> r.x * s.pref.y == r.y * s.pref.x
  {
    if s.root.None? then Zero
    else
      var root := s.root.value;
      var sfW, sfH := root.SfW(), root.SfH();
      assert (s.pref.x * sfW) * root.width == s.pref.x * (sfW * root.width);
      assert (s.pref.x * sfH) * root.height == s.pref.x * (sfH * root.height);
      assert (s.pref.y * sfH) * root.height == s.pref.y * (sfH * root.height);
      Vec3(if s.lockscaling then s.pref.x * sfH else s.pref.x * sfW, s.pref.y * sfH, s.pref.z)
  }

  /**
   * getParentWidth, given the size of the parent's GuiControl: the parent's
   * width, or without a parent the root's width scaled, which is the viewport width.
   */
  function ParentWidth(s: Setup, parentSize: Vec3): (r: real)
    requires s.Resolvable()
    ensures s.HasParent() ==> r == parentSize.x
    ensures !s.HasParent() ==> r == s.root.value.viewWidth
  {
    if s.HasParent() then parentSize.x else s.root.value.width * s.root.value.SfW()
  }

  /** getParentHeight: the parent's height, or without a parent the viewport height. */
  function ParentHeight(s: Setup, parentSize: Vec3): (r: real)
    requires s.Resolvable()
    ensures s.HasParent() ==> r == parentSize.y
    ensures !s.HasParent() ==> r == s.root.value.viewHeight
  {
    if s.HasParent() then parentSize.y else s.root.value.height * s.root.value.SfH()
  }

  /**
   * calculatePosition, for a node whose GuiControl has size `own`: zero
   * without a root, otherwise the anchor position of the style's dock in the
   * parent's extent, with the depth offset passed through.
   */
  function CalculatePosition(s: Setup, own: Vec3, parentSize: Vec3): (r: Vec3)
    requires s.RootSized()
    ensures s.root.None? ==> r == Zero
    ensures s.root.Some? ==> r.z == s.pos.z
  {
    if s.root.None? then Zero
    else
      Position(s.dock, s.pos, s.parentLocked, s.root.value.SfW(), s.root.value.SfH(),
               ParentWidth(s, parentSize), ParentHeight(s, parentSize), own.x, own.y)
  }

  /** The translation updateGui sets before its two moves. */
  function Base(s: Setup, parentSize: Vec3): Vec3
    requires s.Resolvable()
  {
    if s.HasParent() then Vec3(ParentWidth(s, parentSize) / 2.0, -(ParentHeight(s, parentSize) / 2.0), s.pos.z)
    else
      var root := s.root.value;
      Vec3((root.width / 2.0) * root.SfW(), (root.height / 2.0) * root.SfH(), s.pos.z)
  }

  /**
   * The frame a node is docked in: the parent's rectangle in the parent's
   * local coordinates (top-left corner at the origin), or without a parent
   * the viewport with its bottom-left corner at the origin.
   */
  function ReferenceBox(s: Setup, parentSize: Vec3): (b: Box)
    requires s.Resolvable()
    ensures s.HasParent() ==> b == Box(0.0, 0.0, parentSize.x, parentSize.y)
    ensures !s.HasParent() ==> b == Box(0.0, s.root.value.viewHeight, s.root.value.viewWidth, s.root.value.viewHeight)
  {
    Box(0.0, if s.HasParent() then 0.0 else ParentHeight(s, parentSize), ParentWidth(s, parentSize), ParentHeight(s, parentSize))
  }

  /**
   * The local translation updateGui leaves, given the parent's size. With a
   * root it is the placement of the node in its reference frame; without one
   * (then there is a parent) the node sits at the centre of the parent with
   * the depth offset.
   */
  function Translation(s: Setup, parentSize: Vec3): (r: Vec3)
    requires s.Resolvable()
    ensures s.root.Some? ==> r.z == 2.0 * s.pos.z
  {
    if s.root.None? then Vec3(parentSize.x / 2.0, -(parentSize.y / 2.0), s.pos.z)
    else
      var own := MySize(s);
      Placement(s.dock, s.pos, s.parentLocked, s.root.value.SfW(), s.root.value.SfH(),
                ReferenceBox(s, parentSize), s.pos.z, own.x, own.y)
  }

  /**
   * The steps of updateGui reach that translation: the translation it sets
   * first, moved by calculatePosition and then by the recentring offset.
   */
  lemma StepsReachTranslation(s: Setup, parentSize: Vec3)
    requires s.Resolvable()
    ensures var own := MySize(s);
            Settle(Base(s, parentSize), CalculatePosition(s, own, parentSize), own.x, own.y) == Translation(s, parentSize)
  {
    if s.root.Some? {
      var root := s.root.value;
      if !s.HasParent() {
        assert (root.width / 2.0) * root.SfW() == (root.SfW() * root.width) / 2.0;
        assert (root.height / 2.0) * root.SfH() == (root.SfH() * root.height) / 2.0;
      }
      assert Base(s, parentSize) == Centre(ReferenceBox(s, parentSize), s.pos.z);
    }
  }

  /**
   * The docking promise, horizontally: with a root, the node's left edge sits
   * at the anchor of the reference frame its dock names, moved inwards by the
   * horizontal offset scaled as calculatePosition scales it.
   */
  lemma TranslationAnchoredColumn(s: Setup, parentSize: Vec3)
    requires s.Resolvable() && s.root.Some?
    ensures AnchoredColumn(Translation(s, parentSize).x, MySize(s).x, s.dock, ReferenceBox(s, parentSize),
                           s.pos.x * OffsetFactorX(s.parentLocked, s.root.value.SfW(), s.root.value.SfH()))
  {
    var own := MySize(s);
    var frame := ReferenceBox(s, parentSize);
    assert Translation(s, parentSize)
        == Placement(s.dock, s.pos, s.parentLocked, s.root.value.SfW(), s.root.value.SfH(), frame, s.pos.z, own.x, own.y);
    PlacementAnchorsColumn(s.dock, s.pos, s.parentLocked, s.root.value.SfW(), s.root.value.SfH(),
                           ReferenceBox(s, parentSize), s.pos.z, own.x, own.y);
  }

  /**
   * The docking promise, vertically: with a root, the node's top edge sits at
   * the anchor of the reference frame its dock names, moved inwards by the
   * vertical offset scaled by the vertical factor.
   */
  lemma TranslationAnchoredRow(s: Setup, parentSize: Vec3)
    requires s.Resolvable() && s.root.Some?
    ensures AnchoredRow(Translation(s, parentSize).y, MySize(s).y, s.dock, ReferenceBox(s, parentSize),
                        s.pos.y * s.root.value.SfH())
  {
    var own := MySize(s);
    var frame := ReferenceBox(s, parentSize);
    assert Translation(s, parentSize)
        == Placement(s.dock, s.pos, s.parentLocked, s.root.value.SfW(), s.root.value.SfH(), frame, s.pos.z, own.x, own.y);
    PlacementAnchorsRow(s.dock, s.pos, s.parentLocked, s.root.value.SfW(), s.root.value.SfH(),
                        ReferenceBox(s, parentSize), s.pos.z, own.x, own.y);
  }

  /**
   * getScreenPosition: a local translation measured from the viewport's
   * bottom-left corner instead of its centre.
   */
  function ScreenPosition(root: RootView, local: Vec3): (r: Vec3)
    requires root.Sized()
    ensures r == Vec3(local.x + root.viewWidth / 2.0, local.y + root.viewHeight / 2.0, local.z)
  {
    assert root.width * 0.5 * root.SfW() == (root.SfW() * root.width) / 2.0;
    assert root.height * 0.5 * root.SfH() == (root.SfH() * root.height) / 2.0;
    Vec3(local.x + root.width * 0.5 * root.SfW(), local.y + root.height * 0.5 * root.SfH(), local.z)
  }

  class DockControl {
    /** The root pane (scalableGui); null is allowed by the constructor. */
    const root: Scalable?
    /** The host scene and the node this control is attached to. */
    const scene: Scene
    const spatial: Node
    var style: DockStyle
    var parent: DockControl?

    /** new DockControl(root, style), attached to `spatial`. */
    constructor (root: Scalable?, style: DockStyle, scene: Scene, spatial: Node)
      ensures this.root == root && this.style == style && this.scene == scene && this.spatial == spatial
      ensures parent == null
    {
      this.root := root;
      this.style := style;
      this.scene := scene;
      this.spatial := spatial;
      parent := null;
    }

    /** The values updateGui reads from this control, its style, its parent and the root pane. */
    function Snapshot(): Setup
      reads this`style, this`parent, style`lockscaling, style`dock, style`pos, style`size,
            (if root == null then {} else {root, root.appSize}),
            (if parent == null then {} else {parent})`style, (if parent == null then {} else {parent.style})`lockscaling
    {
      Shape().(pref := style.size)
    }

    /** The same values with the style's preferred size left out (as Zero). */
    function Shape(): Setup
      reads this`style, this`parent, style`lockscaling, style`dock, style`pos,
            (if root == null then {} else {root, root.appSize}),
            (if parent == null then {} else {parent})`style, (if parent == null then {} else {parent.style})`lockscaling
    {
      Setup(if root == null then None else Some(RootView(root.width, root.height, root.appSize.width, root.appSize.height)),
            style.dock, style.pos, Zero, style.lockscaling,
            if parent == null then None else Some(parent.spatial), parent != null && parent.IsLockScaling())
    }

    predicate HasParent()
      reads this`parent
    {
      parent != null
    }

    predicate IsLockScaling()
      reads this`style, style`lockscaling
    {
      style.lockscaling
    }

    /**
     * hasParent is what updateGui reads of the parent link: the snapshot has
     * a parent exactly when the control has one, and then it carries that
     * parent's node and the parent style's lock-scaling flag.
     */
    lemma ParentSeen()
      ensures HasParent() <==> Snapshot().HasParent()
      ensures HasParent() ==> Snapshot().parentNode == Some(parent.spatial) && Snapshot().parentLocked == parent.IsLockScaling()
      ensures !HasParent() ==> Snapshot().parentNode == None && !Snapshot().parentLocked
    {
    }

    /** isLockScaling is the flag updateGui reads from the style. */
    lemma LockSeen()
      ensures Snapshot().lockscaling == IsLockScaling()
    {
    }

    /**
     * updateGui can run: the root's scale factors are defined, without a
     * root there is a parent, the node and its parent's node both have a
     * GuiControl, and the parent sits on another node (the scene graph is a tree).
     */
    predicate Ready()
      reads this`style, this`parent, style`lockscaling, style`dock, style`pos,
            (if root == null then {} else {root, root.appSize}),
            (if parent == null then {} else {parent})`style, (if parent == null then {} else {parent.style})`lockscaling
    {
      Shape().ReadyAt(spatial, scene.guiNodes)
    }

    /** The current size of the parent's GuiControl (unused without a parent). */
    function ParentSize(): Vec3
      reads this`parent, scene`gui
      requires parent != null ==> parent.spatial in scene.gui
    {
      if parent != null then scene.gui[parent.spatial].size else Zero
    }

    /** The node's size and translation are the ones updateGui computes from the current state. */
    ghost predicate AtRest()
      reads this`style, this`parent, style`lockscaling, style`dock, style`pos, style`size,
            (if root == null then {} else {root, root.appSize}),
            (if parent == null then {} else {parent})`style, (if parent == null then {} else {parent.style})`lockscaling, scene`gui, scene`translation
      requires Ready() && scene.Sound()
    {
      && scene.gui[spatial].size == MySize(Snapshot())
      && spatial in scene.translation
      && scene.translation[spatial] == Translation(Snapshot(), ParentSize())
    }

    /**
     * updateGui: sets the node's size, then its translation, then moves it
     * by calculatePosition and by the recentring offset. Only this node's size
     * and translation change, the node ends at rest, and a node already at
     * rest is left exactly as it was, so repeating the call changes nothing.
     */
    method UpdateGui()
      requires Ready() && scene.Sound()
      modifies scene`gui, scene`translation
      ensures scene.gui == old(scene.gui[spatial := scene.gui[spatial].(size := MySize(Snapshot()))])
      ensures scene.translation == old(scene.translation[spatial := Translation(Snapshot(), ParentSize())])
      ensures Ready() && scene.Sound() && AtRest()
      ensures old(AtRest()) ==> scene.gui == old(scene.gui) && scene.translation == old(scene.translation)
    {
      var s := Snapshot();
      var mySize := MySize(s);
      scene.gui := scene.gui[spatial := scene.gui[spatial].(size := mySize)];
      var parentSize := ParentSize();
      Place(s, mySize, parentSize);
    }

    /**
     * The second half of updateGui: the translation is set to the base point,
     * moved by calculatePosition and then by the recentring offset, which
     * together give Translation.
     */
    method Place(s: Setup, mySize: Vec3, parentSize: Vec3)
      requires s.Resolvable() && mySize == MySize(s)
      requires spatial in scene.gui && scene.gui[spatial].size == mySize
      modifies scene`translation
      ensures scene.translation == old(scene.translation)[spatial := Translation(s, parentSize)]
    {
      var t := Base(s, parentSize);
      scene.translation := scene.translation[spatial := t];
      t := t.Plus(CalculatePosition(s, scene.gui[spatial].size, parentSize));
      scene.translation := scene.translation[spatial := t];
      t := t.Plus(Vec3(-(mySize.x * 0.5), mySize.y * 0.5, 0.0));
      scene.translation := scene.translation[spatial := t];
      StepsReachTranslation(s, parentSize);
    }

    /**
     * updateGui as the loops of the layout see it: the node gets the size
     * updateGui computes and a translation, and no other node changes.
     */
    method Refresh(ghost s: Setup)
      requires Ready() && scene.Sound() && Snapshot() == s
      modifies scene`gui, scene`translation
      ensures scene.Sound() && scene.gui == old(scene.gui)[spatial := old(scene.gui)[spatial].(size := MySize(s))]
      ensures scene.translation.Keys == old(scene.translation).Keys + {spatial}
      ensures forall k | k in old(scene.translation) && k != spatial :: scene.translation[k] == old(scene.translation)[k]
      ensures scene.translation[spatial] == Translation(s, ParentSizeIn(s, old(scene.gui)))
    {
      UpdateGui();
    }

    /** updateGui has run on the current state: the node's entries are recomputed and nothing else changed. */
    ghost predicate Recomputed(gui0: map<Node, GuiState>, translation0: map<Node, Vec3>)
      reads this`style, this`parent, style`lockscaling, style`dock, style`pos, style`size,
            (if root == null then {} else {root, root.appSize}),
            (if parent == null then {} else {parent})`style, (if parent == null then {} else {parent.style})`lockscaling, scene`gui, scene`translation
      requires Ready() && scene.Sound()
    {
      && spatial in gui0
      && scene.gui == gui0[spatial := gui0[spatial].(size := MySize(Snapshot()))]
      && scene.translation == translation0[spatial := Translation(Snapshot(), ParentSize())]
      && AtRest()
    }

    /** setPosition: new x and y offset with the depth kept, then updateGui. */
    method SetPosition(x: real, y: real)
      requires Ready() && scene.Sound()
      modifies style`pos, scene`gui, scene`translation
      ensures style.pos == Vec3(x, y, old(style.pos).z)
      ensures Ready() && scene.Sound() && Recomputed(old(scene.gui), old(scene.translation))
    {
      style.SetLocation(x, y);
      UpdateGui();
    }

    /** setDepthPosition: new depth offset with x and y kept, then updateGui. */
    method SetDepthPosition(z: real)
      requires Ready() && scene.Sound()
      modifies style`pos, scene`gui, scene`translation
      ensures style.pos == Vec3(old(style.pos).x, old(style.pos).y, z)
      ensures Ready() && scene.Sound() && Recomputed(old(scene.gui), old(scene.translation))
    {
      var before := style.pos;
      style.SetLocationVector(Some(Vec3(before.x, before.y, z)));
      UpdateGui();
    }

    /** setDock: the given anchor, or Center for null, then updateGui. */
    method SetDock(dock: Option<Dock>)
      requires Ready() && scene.Sound()
      modifies style`dock, scene`gui, scene`translation
      ensures style.dock == dock.GetOr(Center)
      ensures Ready() && scene.Sound() && Recomputed(old(scene.gui), old(scene.translation))
    {
      style.SetDock(if dock.None? then Center else dock.value);
      UpdateGui();
    }

    /** setDockStyle: replaces the style object, then updateGui. */
    method SetDockStyle(s: DockStyle)
      requires Ready() && scene.Sound()
      modifies this`style, scene`gui, scene`translation
      ensures style == s
      ensures Ready() && scene.Sound() && Recomputed(old(scene.gui), old(scene.translation))
    {
      style := s;
      UpdateGui();
    }

    /** setVisible: the cull-hint transition of ToggledHint on this node. */
    method SetVisible(visible: bool)
      requires spatial in scene.cull
      modifies scene`cull
      ensures scene.cull == old(scene.cull)[spatial := ToggledHint(old(scene.cull[spatial]), visible)]
      ensures IsVisible() <==> visible && (old(scene.cull[spatial]) == Always || old(scene.cull[spatial]) == Never)
    {
      var hint := scene.cull[spatial];
      if visible && hint == Always {
        scene.cull := scene.cull[spatial := Never];
      } else if !visible && hint == Never {
        scene.cull := scene.cull[spatial := Always];
      }
    }

    predicate IsVisible()
      reads scene`cull
      requires spatial in scene.cull
    {
      Visible(scene.cull[spatial])
    }

    /**
     * attach: fails on a node without a GuiControl; otherwise the parent
     * becomes the DockControl of the node's scene parent when that node has
     * one, and stays as it was when it has none.
     */
    method Attach() returns (r: Result<(), LayoutError>)
      modifies this`parent
      ensures spatial !in scene.guiNodes ==> r == Err(NotGuiElement) && parent == old(parent)
      ensures spatial in scene.guiNodes ==> r.Ok? && parent == AttachedParent(old(parent))
    {
      if spatial !in scene.guiNodes {
        return Err(NotGuiElement);
      }
      if spatial in scene.parentOf && scene.parentOf[spatial] in scene.docks {
        parent := scene.docks[scene.parentOf[spatial]];
      }
      r := Ok(());
    }

    /** The parent attach settles on, given the parent before it. */
    function AttachedParent(before: DockControl?): DockControl?
      reads scene`parentOf, scene`docks
    {
      if spatial in scene.parentOf && scene.parentOf[spatial] in scene.docks
      then scene.docks[scene.parentOf[spatial]] else before
    }

    /** detach: forgets the parent. */
    method Detach()
      modifies this`parent
      ensures !HasParent()
    {
      parent := null;
    }
  }

  /** A control whose style, parent and root pane keep what it reads keeps its shape. */
  twostate lemma ShapeKept(c: DockControl)
    requires unchanged(c, old(c.style)`lockscaling, old(c.style)`dock, old(c.style)`pos)
    requires c.root != null ==> unchanged(c.root, old(c.root.appSize))
    requires old(c.parent) != null ==> unchanged(old(c.parent), old(c.parent.style)`lockscaling)
    ensures c.Shape() == old(c.Shape())
  {
  }

  class DynamicLayout {
    const rootPane: Scalable
    const scene: Scene
    /** The nesting depth bound of this layout, witnessing that containers do not nest cyclically. */
    ghost const level: nat
    /** The children, keyed by node identity, each with its DockControl. */
    var children: map<Node, DockControl>
    /** The node of the GuiControl this layout is attached to, if attached. */
    var owner: Option<Node>

    constructor (rootPane: Scalable, scene: Scene, ghost level: nat)
      ensures this.rootPane == rootPane && this.scene == scene && this.level == level
      ensures children == map[] && owner == None
    {
      this.rootPane := rootPane;
      this.scene := scene;
      this.level := level;
      children := map[];
      owner := None;
    }

    /** Every child is mapped to the DockControl attached to it. */
    ghost predicate RegisteredIn(docks: map<Node, DockControl>)
      reads this`children
    {
      forall x | x in children :: x in docks && children[x] == docks[x]
    }

    ghost predicate Valid()
      reads this`children, this`owner, scene`docks, scene`layouts, scene.layouts.Values`children
    {
      && scene.Valid()
      && RegisteredIn(scene.docks)
      && (owner.Some? ==> owner.value in scene.guiNodes)
    }

    /** getChildren: the registered nodes. */
    function GetChildren(): (r: set<Node>)
      reads this`children
      ensures forall n :: n in r <==> n in children
    {
      children.Keys
    }

    /** clone: a layout on the same root pane with no children, not attached. */
    method Clone() returns (c: DynamicLayout)
      ensures fresh(c) && c.rootPane == rootPane && c.scene == scene && c.level == level
      ensures c.children == map[] && c.owner == None
    {
      c := new DynamicLayout(rootPane, scene, level);
    }

    /**
     * calculatePreferredSize: (1, 1, 0) when the layout's own node has no
     * DockControl, otherwise the size in that control's style.
     */
    method CalculatePreferredSize() returns (size: Vec3)
      requires owner.Some?
      ensures owner.value !in scene.docks ==> size == Vec3(1.0, 1.0, 0.0)
      ensures owner.value in scene.docks ==> size == scene.docks[owner.value].style.size
    {
      var node := owner.value;
      if node !in scene.docks {
        size := Vec3(1.0, 1.0, 0.0);
      } else {
        var control := scene.docks[node];
        size := control.style.size;
      }
    }

    /** This layout's children are registered in the scene and their own layouts have smaller levels. */
    ghost predicate Fitted()
      reads this`children, scene`docks, scene`layouts
    {
      && RegisteredIn(scene.docks)
      && (forall x | x in children && x in scene.layouts :: scene.layouts[x].level < level)
    }

    /** A child's control is ready for updateGui, and reads what `setups` holds for the child. */
    lemma ChildReady(n: Node, setups: map<Node, Setup>, nests: map<Node, Nesting>)
      requires scene.Restartable(setups, nests) && Fitted() && n in children && scene.Sound()
      ensures children[n].Ready() && children[n].scene == scene && children[n].spatial == n
      ensures n in setups && children[n].Snapshot() == setups[n] && setups[n].Resolvable() && n in scene.gui
    {
    }

    /** The layout of a child that is a container can be restarted whenever this one can. */
    lemma SubFitted(n: Node, setups: map<Node, Setup>, nests: map<Node, Nesting>)
      requires scene.Restartable(setups, nests) && Fitted() && n in children && n in scene.layouts
      ensures scene.layouts[n].scene == scene && scene.layouts[n].level < level && scene.layouts[n].Fitted()
      ensures nests[n] == Nesting(scene.layouts[n].level, scene.layouts[n].children.Keys)
    {
    }

    /**
     * restart: updateGui on every child, and restart on the layout of every
     * child that is a container with a DynamicLayout. Only docked nodes
     * change, each only towards what updateGui gives it, and every node the
     * cascade reaches (the children and, through the nested layouts, their
     * descendants) ends with its updateGui size and a translation updateGui
     * gives it, whatever the visiting order.
     */
    method Restart(ghost setups: map<Node, Setup>, ghost nests: map<Node, Nesting>)
      requires scene.Restartable(setups, nests) && Fitted() && scene.Sound()
      modifies scene`gui, scene`translation
      decreases level, 1
      ensures scene.Sound() && scene.Restartable(setups, nests)
      ensures Progress(setups, Reach(nests, children.Keys, level), old(scene.gui), old(scene.translation), scene.gui, scene.translation)
    {
      var todo := children.Keys;
      while todo != {}
        invariant todo <= children.Keys && scene.Sound() && scene.Restartable(setups, nests) && Fitted()
        invariant Progress(setups, Reach(nests, children.Keys - todo, level), old(scene.gui), old(scene.translation), scene.gui, scene.translation)
        decreases todo
      {
        HasElement(todo);
        var n :| n in todo;
        RestartChild(n, todo, setups, nests, old(scene.gui), old(scene.translation));
        TakeOne(children.Keys, todo, n);
        todo := todo - {n};
      }
      assert children.Keys - todo == children.Keys;
    }

    /** Every child restart has reached has the size MySize computes from what its control reads, and a translation. */
    lemma ChildrenDone(setups: map<Node, Setup>, nests: map<Node, Nesting>,
                       gui0: map<Node, GuiState>, translation0: map<Node, Vec3>)
      requires scene.Restartable(setups, nests) && Fitted() && scene.Sound()
      requires Progress(setups, Reach(nests, children.Keys, level), gui0, translation0, scene.gui, scene.translation)
      ensures forall x | x in children :: x in scene.translation && scene.gui[x].size == MySize(children[x].Snapshot())
    {
      forall x | x in children ensures x in scene.translation && scene.gui[x].size == MySize(children[x].Snapshot()) {
        assert x in Reach(nests, children.Keys, level);
      }
    }

    /** One step of restart: child `n` is updated and its own layout, if any, restarted. */
    method RestartChild(n: Node, ghost todo: set<Node>, ghost setups: map<Node, Setup>, ghost nests: map<Node, Nesting>,
                        ghost gui0: map<Node, GuiState>, ghost translation0: map<Node, Vec3>)
      requires n in todo && todo <= children.Keys
      requires scene.Restartable(setups, nests) && Fitted() && scene.Sound()
      requires Progress(setups, Reach(nests, children.Keys - todo, level), gui0, translation0, scene.gui, scene.translation)
      modifies scene`gui, scene`translation
      decreases level, 0
      ensures scene.Sound() && scene.Restartable(setups, nests) && Fitted()
      ensures Progress(setups, Reach(nests, (children.Keys - todo) + {n}, level), gui0, translation0, scene.gui, scene.translation)
    {
      ghost var done := Reach(nests, children.Keys - todo, level);
      var sub: DynamicLayout? := if n in scene.layouts then scene.layouts[n] else null;
      ReachStep(nests, children.Keys - todo, n, level);
      RefreshChild(n, sub, setups, nests, done, gui0, translation0);
      if sub != null {
        RestartNested(sub, setups, nests, done + {n}, gui0, translation0);
      }
    }

    /**
     * updateGui on child `n`, counted into the progress of restart; the
     * layout of that child, if any, is left ready to restart.
     */
    method RefreshChild(n: Node, ghost sub: DynamicLayout?, ghost setups: map<Node, Setup>, ghost nests: map<Node, Nesting>,
                        ghost done: set<Node>, ghost gui0: map<Node, GuiState>, ghost translation0: map<Node, Vec3>)
      requires n in children && sub == (if n in scene.layouts then scene.layouts[n] else null)
      requires scene.Restartable(setups, nests) && Fitted() && scene.Sound()
      requires Progress(setups, done, gui0, translation0, scene.gui, scene.translation)
      modifies scene`gui, scene`translation
      ensures scene.Sound() && scene.Restartable(setups, nests) && Fitted()
      ensures sub != null ==> sub.scene == scene && sub.level < level && sub.Fitted()
      ensures n in nests ==> sub != null && nests[n] == Nesting(sub.level, sub.children.Keys)
      ensures Progress(setups, done + {n}, gui0, translation0, scene.gui, scene.translation)
    {
      if sub != null {
        SubFitted(n, setups, nests);
      }
      ChildReady(n, setups, nests);
      ghost var gui1, translation1 := scene.gui, scene.translation;
      RefreshControl(children[n], setups[n], sub, setups, nests);
      UpdateProgress(setups, done, n, gui0, translation0, gui1, translation1, scene.gui, scene.translation);
    }

    /** updateGui on a child's control, which keeps what restart needs of the scene and the layouts. */
    method RefreshControl(control: DockControl, ghost s: Setup, ghost sub: DynamicLayout?,
                          ghost setups: map<Node, Setup>, ghost nests: map<Node, Nesting>)
      requires control.Ready() && control.scene == scene && scene.Sound() && control.Snapshot() == s
      requires sub != null ==> sub.scene == scene && sub.Fitted()
      requires scene.Restartable(setups, nests) && Fitted()
      modifies scene`gui, scene`translation
      ensures scene.Sound() && scene.gui == old(scene.gui)[control.spatial := old(scene.gui)[control.spatial].(size := MySize(s))]
      ensures scene.translation.Keys == old(scene.translation).Keys + {control.spatial}
      ensures forall k | k in old(scene.translation) && k != control.spatial :: scene.translation[k] == old(scene.translation)[k]
      ensures scene.translation[control.spatial] == Translation(s, ParentSizeIn(s, old(scene.gui)))
      ensures sub != null ==> sub.Fitted()
      ensures scene.Restartable(setups, nests) && Fitted()
    {
      control.Refresh(s);
    }

    /** The restart of a child's own layout, counted into the progress of this one. */
    method RestartNested(sub: DynamicLayout, ghost setups: map<Node, Setup>, ghost nests: map<Node, Nesting>,
                         ghost done: set<Node>, ghost gui0: map<Node, GuiState>, ghost translation0: map<Node, Vec3>)
      requires sub.scene == scene && sub.level < level
      requires sub.Fitted() && scene.Sound() && scene.Restartable(setups, nests) && Fitted()
      requires Progress(setups, done, gui0, translation0, scene.gui, scene.translation)
      modifies scene`gui, scene`translation
      decreases sub.level, 2
      ensures scene.Sound() && scene.Restartable(setups, nests) && Fitted()
      ensures Progress(setups, done + Reach(nests, sub.children.Keys, sub.level), gui0, translation0, scene.gui, scene.translation)
    {
      ghost var gui1, translation1 := scene.gui, scene.translation;
      sub.Restart(setups, nests);
      ProgressKept(setups, done, gui0, translation0, gui1, translation1, scene.gui, scene.translation);
      DoneLift(setups, Reach(nests, sub.children.Keys, sub.level), gui0, translation0, gui1, translation1, scene.gui, scene.translation);
    }

    /**
     * reshape: every child's style takes the preferred size of the child's
     * GuiControl, then updateGui runs on the child. Only docked nodes change,
     * each only towards what updateGui gives it with that preferred size, and
     * every child ends with that size and a translation updateGui gives it,
     * in any visiting order; every child's style holds the preferred size of a child sharing
     * that style, its own when no two children share a style.
     */
    method Reshape(ghost shapes: map<Node, Setup>, ghost target: map<Node, Setup>)
      requires ChildrenShaped(shapes) && AllReadyAt(shapes, scene.guiNodes) && WithPreferred(target, shapes, scene.gui)
      requires scene.Sound()
      modifies (set x | x in children :: children[x].style)`size, scene`gui, scene`translation
      ensures scene.Sound()
      ensures Progress(target, children.Keys, old(scene.gui), old(scene.translation), scene.gui, scene.translation)
      ensures StylesSized(children.Keys, old(scene.gui))
    {
      Unmoved(target, scene.gui, scene.translation);
      var todo := children.Keys;
      while todo != {}
        invariant todo <= children.Keys && scene.Sound()
        invariant Progress(target, children.Keys - todo, old(scene.gui), old(scene.translation), scene.gui, scene.translation)
        invariant StylesSized(children.Keys - todo, old(scene.gui))
        decreases todo
      {
        HasElement(todo);
        var n :| n in todo;
        assert old(children[n].Shape()) == shapes[n];
        ShapeKept(children[n]);
        ReshapeStep(n, todo, shapes, target, old(scene.gui), old(scene.translation));
        todo := todo - {n};
      }
      assert children.Keys - todo == children.Keys;
    }

    /** The body of the reshape loop, with its invariant before and after. */
    method ReshapeStep(n: Node, ghost todo: set<Node>, ghost shapes: map<Node, Setup>, ghost target: map<Node, Setup>,
                       ghost gui0: map<Node, GuiState>, ghost translation0: map<Node, Vec3>)
      requires n in todo && todo <= children.Keys && scene.Sound()
      requires AllReadyAt(shapes, scene.guiNodes) && WithPreferred(target, shapes, gui0)
      requires n in shapes && children[n].spatial == n && children[n].scene == scene && children[n].Shape() == shapes[n]
      requires Progress(target, children.Keys - todo, gui0, translation0, scene.gui, scene.translation)
      requires StylesSized(children.Keys - todo, gui0)
      modifies children[n].style`size, scene`gui, scene`translation
      ensures scene.Sound()
      ensures Progress(target, children.Keys - (todo - {n}), gui0, translation0, scene.gui, scene.translation)
      ensures StylesSized(children.Keys - (todo - {n}), gui0)
    {
      ghost var gui1, translation1 := scene.gui, scene.translation;
      ReshapeChild(n, target[n], children.Keys - todo, gui0);
      UpdateProgress(target, children.Keys - todo, n, gui0, translation0, gui1, translation1, scene.gui, scene.translation);
      TakeOne(children.Keys, todo, n);
    }

    /**
     * The control of every child sits on that child, belongs to this scene
     * and reads what `shapes` holds, apart from the preferred size.
     */
    ghost predicate ChildrenShaped(shapes: map<Node, Setup>)
      reads this`children, children.Values`style, children.Values`parent,
            (set d | d in children.Values :: d.style)`lockscaling, (set d | d in children.Values :: d.style)`dock,
            (set d | d in children.Values :: d.style)`pos,
            (set d | d in children.Values && d.root != null :: d.root),
            (set d | d in children.Values && d.root != null :: d.root.appSize),
            (set d | d in children.Values && d.parent != null :: d.parent)`style,
            (set d | d in children.Values && d.parent != null :: d.parent.style)`lockscaling
    {
      forall x | x in children ::
        children[x].spatial == x && children[x].scene == scene && x in shapes && children[x].Shape() == shapes[x]
    }

    /** No two children share a style object. */
    ghost predicate OwnStyles()
      reads this`children, children.Values`style
    {
      forall x, y | x in children && y in children && x != y :: children[x].style != children[y].style
    }

    /**
     * When no two children share a style, each child in `done` has in its
     * style the preferred size its GuiControl reports in `gui0`.
     */
    ghost predicate StylesSized(done: set<Node>, gui0: map<Node, GuiState>)
      reads this`children, children.Values`style, (set x | x in children :: children[x].style)`size
    {
      OwnStyles() ==> forall x | x in done && x in children :: x in gui0 && children[x].style.size == gui0[x].preferred
    }

    /**
     * One step of reshape: child `n` takes its preferred size and runs
     * updateGui, which gives it the size MySize computes from `s`.
     */
    method ReshapeChild(n: Node, ghost s: Setup, ghost done: set<Node>, ghost gui0: map<Node, GuiState>)
      requires n in children && children[n].spatial == n && children[n].scene == scene && scene.Sound()
      requires n in scene.gui && n in gui0 && s.pref == scene.gui[n].preferred && s.pref == gui0[n].preferred
      requires children[n].Shape() == s.(pref := Zero) && s.ReadyAt(n, scene.guiNodes)
      requires StylesSized(done, gui0)
      modifies children[n].style`size, scene`gui, scene`translation
      ensures scene.Sound() && scene.gui == old(scene.gui)[n := old(scene.gui)[n].(size := MySize(s))]
      ensures scene.translation.Keys == old(scene.translation).Keys + {n}
      ensures forall k | k in old(scene.translation) && k != n :: scene.translation[k] == old(scene.translation)[k]
      ensures scene.translation[n] == Translation(s, ParentSizeIn(s, old(scene.gui)))
      ensures StylesSized(done + {n}, gui0)
    {
      ResizeStyle(n, done, gui0);
      children[n].Refresh(s);
    }

    /** The first half of a reshape step: child `n`'s style takes the preferred size of n's GuiControl. */
    method ResizeStyle(n: Node, ghost done: set<Node>, ghost gui0: map<Node, GuiState>)
      requires n in children && n in scene.gui && n in gui0 && scene.gui[n].preferred == gui0[n].preferred
      requires StylesSized(done, gui0)
      modifies children[n].style`size
      ensures children[n].Shape() == old(children[n].Shape()) && children[n].style.size == gui0[n].preferred
      ensures StylesSized(done + {n}, gui0)
    {
      children[n].style.SetSizeVector(Some(scene.gui[n].preferred));
      ShapeKept(children[n]);
    }

    /**
     * addChild: a node without a GuiControl is refused and null is passed
     * back unchanged. Otherwise an existing entry for the node is removed
     * first, the node keeps the DockControl it already has or gets a new one
     * on the root pane with a style built from `constraints`, and becomes a
     * child with that control. When the layout is attached, the node goes
     * under the layout's node, the control's attach runs and a reused control
     * gets a new style built from `constraints` (styles have identity
     * equality, so the new one never equals the old) and runs updateGui.
     */
    method AddChild(t: Option<Node>, constraints: seq<Constraint>) returns (r: Result<Option<Node>, LayoutError>)
      requires Valid() && scene.Sound()
      requires t.Some? && owner.Some? ==> t.value != owner.value
      requires t.Some? && owner.Some? && t.value in scene.docks ==> scene.docks[t.value].Ready()
      modifies this`children, scene`parentOf, scene`docks, scene`gui, scene`translation
      modifies (if t.Some? && t.value in scene.docks then {scene.docks[t.value]} else {})`parent
      modifies (if t.Some? && t.value in scene.docks then {scene.docks[t.value]} else {})`style
      ensures Valid() && scene.Sound()
      ensures t.None? ==> r == Ok(None)
      ensures t.Some? && t.value !in scene.guiNodes ==> r == Err(NotGuiElement)
      ensures (t.None? || t.value !in scene.guiNodes) ==>
        && children == old(children) && scene.parentOf == old(scene.parentOf) && scene.docks == old(scene.docks)
        && scene.gui == old(scene.gui) && scene.translation == old(scene.translation)
      ensures t.Some? && t.value in scene.guiNodes ==>
        && r == Ok(t) && t.value in scene.docks
        && children == old(children)[t.value := scene.docks[t.value]]
      ensures t.Some? && t.value in scene.guiNodes && old(t.value in scene.docks) ==>
        scene.docks == old(scene.docks)
      ensures t.Some? && t.value in scene.guiNodes && old(t.value !in scene.docks) ==>
        && fresh(scene.docks[t.value]) && scene.docks == old(scene.docks)[t.value := scene.docks[t.value]]
        && scene.docks[t.value].root == rootPane
      ensures t.Some? && t.value in scene.guiNodes && (old(t.value !in scene.docks) || owner.Some?) ==>
        fresh(scene.docks[t.value].style) && scene.docks[t.value].style.Built(constraints)
      ensures t.Some? && t.value in scene.guiNodes && old(t.value in scene.docks) && owner.None? ==>
        scene.docks[t.value].style == old(scene.docks[t.value].style)
      ensures t.Some? && t.value in scene.guiNodes && owner.Some? ==>
        && scene.parentOf == old(scene.parentOf)[t.value := owner.value]
        && scene.docks[t.value].parent == (if owner.value in scene.docks then scene.docks[owner.value]
                                           else if old(t.value in scene.docks) then old(scene.docks[t.value].parent) else null)
      ensures t.Some? && t.value in scene.guiNodes && owner.None? ==>
        && scene.parentOf == (if t.value in old(children) then old(scene.parentOf) - {t.value} else old(scene.parentOf))
        && scene.docks[t.value].parent == (if old(t.value in scene.docks) then old(scene.docks[t.value].parent) else null)
      ensures t.Some? && t.value in scene.guiNodes && old(t.value in scene.docks) && owner.Some? ==>
        scene.docks[t.value].Ready() && scene.docks[t.value].Recomputed(old(scene.gui), old(scene.translation))
      ensures t.Some? && t.value in scene.guiNodes && !(old(t.value in scene.docks) && owner.Some?) ==>
        scene.gui == old(scene.gui) && scene.translation == old(scene.translation)
    {
      if t.None? || t.value !in scene.guiNodes {
        return if t.None? then Ok(None) else Err(NotGuiElement);
      }
      var node := t.value;
      var control, reused := Enrol(node, constraints);
      if owner.Some? {
        if reused {
          ShapeKept(control);
        }
        Hook(node, control, reused, constraints);
        RemoveThenAdd(old(scene.parentOf), node, owner.value);
      }
      r := Ok(t);
    }

    /**
     * The first half of addChild for a node with a GuiControl: its old entry
     * goes, and it becomes a child with the control it has or a new one.
     */
    method Enrol(node: Node, constraints: seq<Constraint>) returns (control: DockControl, reused: bool)
      requires Valid() && node in scene.guiNodes
      modifies this`children, scene`parentOf, scene`docks
      ensures Valid()
      ensures reused == old(node in scene.docks) && node in scene.docks && scene.docks[node] == control
      ensures children == old(children)[node := control]
      ensures reused ==> scene.docks == old(scene.docks)
      ensures !reused ==> && fresh(control) && fresh(control.style) && control.style.Built(constraints)
                          && control.root == rootPane && control.scene == scene && control.spatial == node
                          && control.parent == null && scene.docks == old(scene.docks)[node := control]
      ensures scene.parentOf == (if node in old(children) then old(scene.parentOf) - {node} else old(scene.parentOf))
    {
      RemoveChild(node);
      reused := node in scene.docks;
      if reused {
        control := scene.docks[node];
      } else {
        var style := new DockStyle(constraints);
        control := new DockControl(rootPane, style, scene, node);
        scene.docks := scene.docks[node := control];
      }
      children := children[node := control];
    }

    /**
     * The second half of addChild, for an attached layout: the child goes
     * under the layout's node, its control's attach runs and a reused
     * control gets a new style and runs updateGui.
     */
    method Hook(node: Node, control: DockControl, reused: bool, constraints: seq<Constraint>)
      requires Valid() && scene.Sound() && owner.Some? && node != owner.value
      requires node in children && children[node] == control && control.spatial == node && control.scene == scene
      requires reused ==> control.Ready()
      modifies scene`parentOf, control`parent, (if reused then {control} else {})`style, scene`gui, scene`translation
      ensures Valid() && scene.Sound()
      ensures scene.parentOf == old(scene.parentOf)[node := owner.value]
      ensures control.parent == (if owner.value in scene.docks then scene.docks[owner.value] else old(control.parent))
      ensures reused ==> && fresh(control.style) && control.style.Built(constraints)
                         && control.Ready() && control.Recomputed(old(scene.gui), old(scene.translation))
      ensures !reused ==> scene.gui == old(scene.gui) && scene.translation == old(scene.translation)
    {
      scene.parentOf := scene.parentOf[node := owner.value];
      var _ := control.Attach();
      if reused {
        var style := new DockStyle(constraints);
        control.SetDockStyle(style);
      }
    }

    /**
     * removeChild: nothing happens for a node that is not a child; otherwise
     * only that entry is removed and the node leaves its scene parent.
     */
    method RemoveChild(n: Node)
      modifies this`children, scene`parentOf
      ensures n !in old(children) ==> children == old(children) && scene.parentOf == old(scene.parentOf)
      ensures n in old(children) ==> children == old(children) - {n} && scene.parentOf == old(scene.parentOf) - {n}
      ensures old(Valid()) ==> Valid()
    {
      if n !in children {
        return;
      }
      children := children - {n};
      scene.parentOf := scene.parentOf - {n};
    }

    /** clearChildren: every child leaves its scene parent and the map becomes empty. */
    method ClearChildren()
      modifies this`children, scene`parentOf
      ensures children == map[]
      ensures scene.parentOf == old(scene.parentOf) - old(children).Keys
      ensures old(Valid()) ==> Valid()
    {
      var todo := children.Keys;
      while todo != {}
        invariant todo <= old(children).Keys && children == old(children)
        invariant scene.parentOf == old(scene.parentOf) - (old(children).Keys - todo)
        decreases todo
      {
        HasElement(todo);
        var n :| n in todo;
        scene.parentOf := scene.parentOf - {n};
        todo := todo - {n};
      }
      children := map[];
    }

    /**
     * detach: the layout leaves its GuiControl and every child leaves the
     * scene, but every map entry and every control's parent link stays.
     */
    method Detach()
      modifies this`owner, scene`parentOf
      ensures owner == None
      ensures scene.parentOf == old(scene.parentOf) - children.Keys
      ensures old(Valid()) ==> Valid()
    {
      owner := None;
      var todo := children.Keys;
      while todo != {}
        invariant todo <= children.Keys && owner == None
        invariant scene.parentOf == old(scene.parentOf) - (children.Keys - todo)
        decreases todo
      {
        HasElement(todo);
        var n :| n in todo;
        scene.parentOf := scene.parentOf - {n};
        todo := todo - {n};
      }
    }

    /**
     * attach: the layout is attached to node `p`, every child is put under
     * `p` in the scene and its control's attach runs, so each control's
     * parent becomes p's DockControl when p has one and stays otherwise.
     */
    method Attach(p: Node)
      requires Valid()
      requires p in scene.guiNodes
      modifies this`owner, scene`parentOf, children.Values`parent
      ensures owner == Some(p)
      ensures scene.parentOf == Adopted(old(scene.parentOf), children.Keys, p)
      ensures forall x | x in children ::
        children[x].parent == (if p in scene.docks then scene.docks[p] else old(children[x].parent))
      ensures Valid()
    {
      ghost var before := map x | x in children :: children[x].parent;
      owner := Some(p);
      var todo := children.Keys;
      while todo != {}
        invariant todo <= children.Keys
        invariant Attaching(p, old(scene.parentOf), before, todo)
        modifies scene`parentOf, children.Values`parent
        decreases todo
      {
        HasElement(todo);
        var n :| n in todo;
        AttachChild(n, p, old(scene.parentOf), before, todo);
        todo := todo - {n};
      }
      assert children.Keys - todo == children.Keys;
    }

    /**
     * The state of attach with the nodes in `todo` still to do: the others
     * are under `p` in the scene and the control of each child already done
     * has the parent its attach gives it.
     */
    ghost predicate Attaching(p: Node, parentOf0: map<Node, Node>, before: map<Node, DockControl?>, todo: set<Node>)
      reads this`children, scene`parentOf, scene`docks, children.Values
    {
      && p in scene.guiNodes && scene.docks.Keys <= scene.guiNodes
      && before.Keys == children.Keys
      && (forall x | x in children ::
            x in scene.docks && scene.docks[x] == children[x] && children[x].spatial == x && children[x].scene == scene)
      && scene.parentOf == Adopted(parentOf0, children.Keys - todo, p)
      && (forall x | x in children ::
            children[x].parent == (if x in todo then before[x] else if p in scene.docks then scene.docks[p] else before[x]))
    }

    /**
     * One step of attach: child `n` goes under `p` in the scene and its
     * control's attach runs; no other child's control changes.
     */
    method AttachChild(n: Node, p: Node, ghost parentOf0: map<Node, Node>, ghost before: map<Node, DockControl?>,
                       ghost todo: set<Node>)
      requires n in todo && todo <= children.Keys
      requires Attaching(p, parentOf0, before, todo)
      modifies scene`parentOf, {children[n]}`parent
      ensures Attaching(p, parentOf0, before, todo - {n})
    {
      AdoptOneMore(parentOf0, children.Keys - todo, n, p);
      assert children.Keys - (todo - {n}) == (children.Keys - todo) + {n};
      scene.parentOf := scene.parentOf[n := p];
      var control := scene.docks[n];
      var r := control.Attach();
      assert forall x | x in children && x != n :: children[x] != control;
    }
  }
}
