/**
 * DockStyle: the constraint record of one docked child, built from an
 * untyped list of constraints and updated in place by its setters.
 */
module Styles {
  import opened Wrappers
  import opened Geometry

  /** One entry of the `Object...` constraint list, by its runtime type. */
  datatype Constraint =
    | NullEntry
    | BooleanEntry(flag: bool)
    | DockEntry(dock: Dock)
    | OtherEntry

  /** The first Boolean of the list, if any. */
  function FirstBoolean(cs: seq<Constraint>): Option<bool> {
    if cs == [] then None
    else if cs[0].BooleanEntry? then Some(cs[0].flag)
    else FirstBoolean(cs[1..])
  }

  /** The first Dock of the list, if any. */
  function FirstDock(cs: seq<Constraint>): Option<Dock> {
    if cs == [] then None
    else if cs[0].DockEntry? then Some(cs[0].dock)
    else FirstDock(cs[1..])
  }

  /** Scanning a concatenation: the first part decides when it holds a Boolean. */
  lemma {:induction false} FirstBooleanAppend(a: seq<Constraint>, b: seq<Constraint>)
    ensures FirstBoolean(a + b) == if FirstBoolean(a).Some? then FirstBoolean(a) else FirstBoolean(b)
  {
    if a != [] {
      assert (a + b)[0] == a[0];
      assert (a + b)[1..] == a[1..] + b;
      FirstBooleanAppend(a[1..], b);
    } else {
      assert a + b == b;
    }
  }

  /** Scanning a concatenation: the first part decides when it holds a Dock. */
  lemma {:induction false} FirstDockAppend(a: seq<Constraint>, b: seq<Constraint>)
    ensures FirstDock(a + b) == if FirstDock(a).Some? then FirstDock(a) else FirstDock(b)
  {
    if a != [] {
      assert (a + b)[0] == a[0];
      assert (a + b)[1..] == a[1..] + b;
      FirstDockAppend(a[1..], b);
    } else {
      assert a + b == b;
    }
  }

  /** Once the first part decided, the rest of the list cannot change the result. */
  lemma RestIsIrrelevant(cs: seq<Constraint>, i: nat)
    requires i <= |cs|
    ensures FirstBoolean(cs[..i]).Some? ==> FirstBoolean(cs) == FirstBoolean(cs[..i])
    ensures FirstDock(cs[..i]).Some? ==> FirstDock(cs) == FirstDock(cs[..i])
  {
    assert cs == cs[..i] + cs[i..];
    FirstBooleanAppend(cs[..i], cs[i..]);
    FirstDockAppend(cs[..i], cs[i..]);
  }

  /**
   * The loop of the DockStyle constructor: null entries are skipped, the
   * first Boolean and the first Dock are kept, and the scan stops as soon as
   * both are known. The early stop gives the same answer as scanning the
   * whole list.
   */
  method ScanConstraints(constraints: seq<Constraint>) returns (lock: Option<bool>, dock: Option<Dock>)
    ensures lock == FirstBoolean(constraints)
    ensures dock == FirstDock(constraints)
  {
    lock, dock := None, None;
    var i := 0;
    while i < |constraints|
      invariant 0 <= i <= |constraints|
      invariant lock == FirstBoolean(constraints[..i])
      invariant dock == FirstDock(constraints[..i])
    {
      var element := constraints[i];
      FirstBooleanAppend(constraints[..i], [element]);
      FirstDockAppend(constraints[..i], [element]);
      assert constraints[..i + 1] == constraints[..i] + [element];
      if element.NullEntry? {
        i := i + 1;
        continue;
      }
      if element.BooleanEntry? && lock.None? {
        lock := Some(element.flag);
      } else if element.DockEntry? && dock.None? {
        dock := Some(element.dock);
      }
      i := i + 1;
      if dock.Some? && lock.Some? {
        RestIsIrrelevant(constraints, i);
        break;
      }
    }
    if i == |constraints| {
      assert constraints[..i] == constraints;
    }
  }

  class DockStyle {
    var lockscaling: bool
    var dock: Dock
    /** The design-time offset: x and y are scaled, z is the depth. */
    var pos: Vec3
    /** The design-time preferred size. */
    var size: Vec3

    /**
     * The fields of a style built from `constraints`: the first Boolean is
     * the lock-scaling flag (false when there is none), the first Dock the
     * anchor (Center when there is none); the offset is (0, 0, 1) and the
     * size zero.
     */
    predicate Built(constraints: seq<Constraint>)
      reads this
    {
      && lockscaling == FirstBoolean(constraints).GetOr(false)
      && dock == FirstDock(constraints).GetOr(Center)
      && pos == Vec3(0.0, 0.0, 1.0) && size == Zero
    }

    /** DockStyle(Object...): the style built from `constraints`. */
    constructor (constraints: seq<Constraint>)
      ensures Built(constraints)
    {
      var l, d := ScanConstraints(constraints);
      lockscaling := l.GetOr(false);
      dock := d.GetOr(Center);
      pos := Vec3(0.0, 0.0, 1.0);
      size := Zero;
    }

    /** The copy made by clone: equal fields (vectors are values, so independent). */
    constructor Copy(source: DockStyle)
      ensures lockscaling == source.lockscaling && dock == source.dock
      ensures pos == source.pos && size == source.size
    {
      lockscaling := source.lockscaling;
      dock := source.dock;
      pos := source.pos;
      size := source.size;
    }

    method Clone() returns (c: DockStyle)
      ensures fresh(c)
      ensures c.lockscaling == lockscaling && c.dock == dock && c.pos == pos && c.size == size
    {
      c := new DockStyle.Copy(this);
    }

    /** setSize(float, float): new width and height, the depth is kept. */
    method SetSize(width: real, height: real)
      modifies this`size
      ensures size == Vec3(width, height, old(size).z)
    {
      SetSizeVector(Some(Vec3(width, height, size.z)));
    }

    /** setSize(Vector3f): null resets all three components to zero. */
    method SetSizeVector(v: Option<Vec3>)
      modifies this`size
      ensures size == v.GetOr(Zero)
    {
      if v.None? {
        size := Zero;
      } else {
        size := v.value;
      }
    }

    /** setLocation(float, float): new x and y offset, the depth is kept. */
    method SetLocation(x: real, y: real)
      modifies this`pos
      ensures pos == Vec3(x, y, old(pos).z)
    {
      SetLocationVector(Some(Vec3(x, y, pos.z)));
    }

    /** setLocation(Vector3f): null resets all three components to zero. */
    method SetLocationVector(p: Option<Vec3>)
      modifies this`pos
      ensures pos == p.GetOr(Zero)
    {
      if p.None? {
        pos := Zero;
      } else {
        pos := p.value;
      }
    }

    method SetLockscaling(lock: bool)
      modifies this`lockscaling
      ensures lockscaling == lock
    {
      lockscaling := lock;
    }

    method SetDock(d: Dock)
      modifies this`dock
      ensures dock == d
    {
      dock := d;
    }
  }
}
