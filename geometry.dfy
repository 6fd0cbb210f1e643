/**
 * The arithmetic of the docking layout: three-component vectors, the nine
 * dock anchors and the anchor resolution performed by
 * DockControl.calculatePosition. Floats are modelled as reals.
 */
module Geometry {

  /** A jME Vector3f, as a value. */
  datatype Vec3 = Vec3(x: real, y: real, z: real) {
    function Plus(other: Vec3): Vec3 {
      Vec3(x + other.x, y + other.y, z + other.z)
    }
  }

  const Zero: Vec3 := Vec3(0.0, 0.0, 0.0)

  /** The nine anchors of the Dock enumeration. */
  datatype Dock =
    | Center | CenterBottom | CenterTop
    | LeftBottom | LeftCenter | LeftTop
    | RightBottom | RightCenter | RightTop

  /** The column and the row of the 3x3 anchor grid a dock names. */
  datatype Column = LeftColumn | MiddleColumn | RightColumn
  datatype Row = TopRow | MiddleRow | BottomRow

  function ColumnOf(d: Dock): Column {
    match d
    case LeftBottom | LeftCenter | LeftTop => LeftColumn
    case RightBottom | RightCenter | RightTop => RightColumn
    case Center | CenterBottom | CenterTop => MiddleColumn
  }

  function RowOf(d: Dock): Row {
    match d
    case CenterTop | LeftTop | RightTop => TopRow
    case CenterBottom | LeftBottom | RightBottom => BottomRow
    case Center | LeftCenter | RightCenter => MiddleRow
  }

  /** The factor that scales the horizontal offset: the vertical one under a lock-scaling parent. */
  function OffsetFactorX(parentLocked: bool, sfW: real, sfH: real): real {
    if parentLocked then sfH else sfW
  }

  /**
   * The nine-way switch of calculatePosition for a root that exists:
   * `pw`/`ph` are the parent's extent, `w`/`h` the node's own resolved size,
   * `parentLocked` whether a parent exists and has lock scaling.
   */
  function Position(dock: Dock, offset: Vec3, parentLocked: bool, sfW: real, sfH: real,
                    pw: real, ph: real, w: real, h: real): (r: Vec3)
    ensures r.z == offset.z
  {
    var kx := OffsetFactorX(parentLocked, sfW, sfH);
    match dock
    case Center =>
      Vec3(offset.x * kx, offset.y * sfH, offset.z)
    case CenterBottom =>
      Vec3(offset.x * kx, -(ph * 0.5) + h * 0.5 + offset.y * sfH, offset.z)
    case CenterTop =>
      Vec3(offset.x * kx, ph * 0.5 - h * 0.5 - offset.y * sfH, offset.z)
    case LeftBottom =>
      Vec3(-(pw * 0.5) + w * 0.5 + offset.x * kx, -(ph * 0.5) + h * 0.5 + offset.y * sfH, offset.z)
    case LeftCenter =>
      Vec3(-(pw * 0.5) + w * 0.5 + offset.x * kx, offset.y * sfH, offset.z)
    case LeftTop =>
      Vec3(-(pw * 0.5) + w * 0.5 + offset.x * kx, ph * 0.5 - h * 0.5 - offset.y * sfH, offset.z)
    case RightBottom =>
      Vec3(pw * 0.5 - w * 0.5 - offset.x * kx, -(ph * 0.5) + h * 0.5 + offset.y * sfH, offset.z)
    case RightCenter =>
      Vec3(pw * 0.5 - w * 0.5 - offset.x * kx, offset.y * sfH, offset.z)
    case RightTop =>
      Vec3(pw * 0.5 - w * 0.5 - offset.x * kx, ph * 0.5 - h * 0.5 - offset.y * sfH, offset.z)
  }

  /** The horizontal result depends on the column only, the vertical one on the row only. */
  lemma ColumnAndRowDecide(d1: Dock, d2: Dock, offset: Vec3, parentLocked: bool, sfW: real, sfH: real,
                           pw: real, ph: real, w: real, h: real)
    ensures ColumnOf(d1) == ColumnOf(d2) ==>
      Position(d1, offset, parentLocked, sfW, sfH, pw, ph, w, h).x
        == Position(d2, offset, parentLocked, sfW, sfH, pw, ph, w, h).x
    ensures RowOf(d1) == RowOf(d2) ==>
      Position(d1, offset, parentLocked, sfW, sfH, pw, ph, w, h).y
        == Position(d2, offset, parentLocked, sfW, sfH, pw, ph, w, h).y
  {
  }

  /** The left column mirrors the right one and the bottom row mirrors the top one. */
  lemma MirrorSymmetry(left: Dock, right: Dock, top: Dock, bottom: Dock, offset: Vec3,
                       parentLocked: bool, sfW: real, sfH: real, pw: real, ph: real, w: real, h: real)
    requires ColumnOf(left) == LeftColumn && ColumnOf(right) == RightColumn
    requires RowOf(top) == TopRow && RowOf(bottom) == BottomRow
    ensures Position(left, offset, parentLocked, sfW, sfH, pw, ph, w, h).x
         == -Position(right, offset, parentLocked, sfW, sfH, pw, ph, w, h).x
    ensures Position(bottom, offset, parentLocked, sfW, sfH, pw, ph, w, h).y
         == -Position(top, offset, parentLocked, sfW, sfH, pw, ph, w, h).y
  {
  }

  /**
   * On a middle column or row only the scaled offset remains: the result is
   * the same for every parent extent and every own size.
   */
  lemma MiddleIgnoresExtents(d: Dock, offset: Vec3, parentLocked: bool, sfW: real, sfH: real,
                             pw1: real, ph1: real, w1: real, h1: real,
                             pw2: real, ph2: real, w2: real, h2: real)
    ensures ColumnOf(d) == MiddleColumn ==>
      Position(d, offset, parentLocked, sfW, sfH, pw1, ph1, w1, h1).x
        == Position(d, offset, parentLocked, sfW, sfH, pw2, ph2, w2, h2).x
        == offset.x * OffsetFactorX(parentLocked, sfW, sfH)
    ensures RowOf(d) == MiddleRow ==>
      Position(d, offset, parentLocked, sfW, sfH, pw1, ph1, w1, h1).y
        == Position(d, offset, parentLocked, sfW, sfH, pw2, ph2, w2, h2).y
        == offset.y * sfH
  {
  }

  /** +1 where the anchor adds the horizontal offset, -1 where it subtracts it. */
  function SignX(d: Dock): real {
    if ColumnOf(d) == RightColumn then -1.0 else 1.0
  }

  /** +1 where the anchor adds the vertical offset, -1 where it subtracts it. */
  function SignY(d: Dock): real {
    if RowOf(d) == TopRow then -1.0 else 1.0
  }

  /**
   * Which factor scales which offset: the horizontal offset enters with the
   * vertical factor exactly when the parent locks scaling and with the
   * horizontal factor otherwise; the vertical offset always enters with the
   * vertical factor; the depth offset is passed through unscaled.
   */
  lemma OffsetScaling(d: Dock, offset: Vec3, parentLocked: bool, sfW: real, sfH: real,
                      pw: real, ph: real, w: real, h: real)
    ensures Position(d, offset, parentLocked, sfW, sfH, pw, ph, w, h).x
         == Position(d, Zero, parentLocked, sfW, sfH, pw, ph, w, h).x
            + SignX(d) * offset.x * (if parentLocked then sfH else sfW)
    ensures Position(d, offset, parentLocked, sfW, sfH, pw, ph, w, h).y
         == Position(d, Zero, parentLocked, sfW, sfH, pw, ph, w, h).y
            + SignY(d) * offset.y * sfH
    ensures Position(d, offset, parentLocked, sfW, sfH, pw, ph, w, h).z == offset.z
  {
  }

  /** A reference rectangle: its left and top edges and its extent; y grows upwards. */
  datatype Box = Box(left: real, top: real, width: real, height: real)

  /**
   * The two relative moves of updateGui: first by the anchor position, then
   * by (-w/2, +h/2, 0), so that the local origin becomes the top-left corner.
   */
  function Settle(base: Vec3, position: Vec3, w: real, h: real): Vec3 {
    base.Plus(position).Plus(Vec3(-(w * 0.5), h * 0.5, 0.0))
  }

  /**
   * What an anchor means, horizontally: a node of width w whose left edge is
   * at x touches the edge of `frame` its dock's column names, pulled inwards
   * by the scaled offset dx (on the middle column its centre sits on the
   * frame's centre line moved by dx).
   */
  ghost predicate AnchoredColumn(x: real, w: real, dock: Dock, frame: Box, dx: real) {
    match ColumnOf(dock)
    case LeftColumn => x == frame.left + dx
    case MiddleColumn => x + w / 2.0 == frame.left + frame.width / 2.0 + dx
    case RightColumn => x + w == frame.left + frame.width - dx
  }

  /**
   * What an anchor means, vertically (y grows upwards): a node of height h
   * whose top edge is at y touches the edge of `frame` its dock's row names,
   * pulled inwards by the scaled offset dy.
   */
  ghost predicate AnchoredRow(y: real, h: real, dock: Dock, frame: Box, dy: real) {
    match RowOf(dock)
    case TopRow => y == frame.top - dy
    case MiddleRow => y - h / 2.0 == frame.top - frame.height / 2.0 + dy
    case BottomRow => y - h == frame.top - frame.height + dy
  }

  /** The centre of a frame, at depth z. */
  function Centre(frame: Box, z: real): Vec3 {
    Vec3(frame.left + frame.width / 2.0, frame.top - frame.height / 2.0, z)
  }

  /**
   * Where updateGui puts a node of size (w, h) docked in `frame`: it starts
   * from the frame's centre at depth z, moves by the anchor position and then
   * by the recentring offset.
   */
  function Placement(dock: Dock, offset: Vec3, parentLocked: bool, sfW: real, sfH: real,
                     frame: Box, z: real, w: real, h: real): Vec3 {
    Settle(Centre(frame, z), Position(dock, offset, parentLocked, sfW, sfH, frame.width, frame.height, w, h), w, h)
  }

  /**
   * The placement puts the node's left edge at the anchor its dock names,
   * moved inwards by the horizontal offset, scaled by the vertical factor
   * when the parent locks scaling and by the horizontal factor otherwise.
   */
  lemma PlacementAnchorsColumn(dock: Dock, offset: Vec3, parentLocked: bool, sfW: real, sfH: real,
                               frame: Box, z: real, w: real, h: real)
    ensures AnchoredColumn(Placement(dock, offset, parentLocked, sfW, sfH, frame, z, w, h).x, w, dock, frame,
                           offset.x * OffsetFactorX(parentLocked, sfW, sfH))
  {
  }

  /**
   * The placement puts the node's top edge at the anchor its dock names,
   * moved inwards by the vertical offset scaled by the vertical factor, and
   * the depth becomes the starting depth plus the depth offset.
   */
  lemma PlacementAnchorsRow(dock: Dock, offset: Vec3, parentLocked: bool, sfW: real, sfH: real,
                            frame: Box, z: real, w: real, h: real)
    ensures AnchoredRow(Placement(dock, offset, parentLocked, sfW, sfH, frame, z, w, h).y, h, dock, frame, offset.y * sfH)
    ensures Placement(dock, offset, parentLocked, sfW, sfH, frame, z, w, h).z == z + offset.z
  {
  }
}
