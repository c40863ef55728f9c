/**
 * The point-editing logic of the bend grid canvas: the grid settings and
 * their change-detecting setters, the hit test that picks the point under
 * the mouse, and the drag rule that moves the picked point in time and
 * pitch without letting it pass its neighbours.
 *
 * The conversion between pixels and grid points is left to the caller: the
 * mouse handlers receive the grid point under the mouse. Whether a point
 * may move in a direction, and when two points are equal, are decided
 * outside this model and given to the canvas as functions.
 */
module BendGrid {
  import opened Wrappers

  datatype CurvePoint = CurvePoint(time: int, pitch: int, endDashed: bool, generated: bool)

  datatype MoveDirection = AllDirections | Horizontal | Vertical

  /** `CurvePoint::canMove(direction)`. */
  type MovePredicate = (CurvePoint, MoveDirection) -> bool

  /** `CurvePoint::operator==`. */
  type PointEquality = (CurvePoint, CurvePoint) -> bool

  const GripRadius: int := 6
  const GripCenterRadius: int := GripRadius - 2

  // ---------------------------------------------------------------------------
  // frameCoord

  /** The frame of the grid, in whole pixels. */
  datatype Frame = Frame(left: int, top: int, right: int, bottom: int)

  /** `frameCoord(frame, x, y)`: the position clamped into the frame, relative to its top left corner. */
  function FrameCoord(frame: Frame, x: int, y: int): (r: (int, int))
    ensures frame.left <= frame.right ==> 0 <= r.0 <= frame.right - frame.left
    ensures frame.top <= frame.bottom ==> 0 <= r.1 <= frame.bottom - frame.top
    ensures frame.left <= x <= frame.right ==> r.0 == x - frame.left
    ensures frame.top <= y <= frame.bottom ==> r.1 == y - frame.top
  {
    var cx := if x > frame.right then frame.right else if x < frame.left then frame.left else x;
    var cy := if y > frame.bottom then frame.bottom else if y < frame.top then frame.top else y;
    (cx - frame.left, cy - frame.top)
  }

  /** Outside the frame the coordinate sticks to the nearer edge. */
  lemma FrameCoordEdges(frame: Frame, x: int, y: int)
    requires frame.left <= frame.right && frame.top <= frame.bottom
    ensures x < frame.left ==> FrameCoord(frame, x, y).0 == 0
    ensures x > frame.right ==> FrameCoord(frame, x, y).0 == frame.right - frame.left
    ensures y < frame.top ==> FrameCoord(frame, x, y).1 == 0
    ensures y > frame.bottom ==> FrameCoord(frame, x, y).1 == frame.bottom - frame.top
  {
  }

  // ---------------------------------------------------------------------------
  // pointIndex

  function Square(x: int): int
  {
    x * x
  }

  /**
   * `point` is within the grip of the probe and its movability is
   * `movable`; the distance is compared squared, as `pointIndex` does.
   */
  predicate Hit(canMove: MovePredicate, point: CurvePoint, probe: CurvePoint, movable: bool)
  {
    && canMove(point, AllDirections) == movable
    && Square(probe.time - point.time) + Square(probe.pitch - point.pitch) < Square(GripCenterRadius)
  }

  /** The first point hit by the probe, if any. */
  function FirstHit(canMove: MovePredicate, points: seq<CurvePoint>, probe: CurvePoint, movable: bool)
    : (r: Option<nat>)
    ensures r.Some? ==> r.value < |points| && Hit(canMove, points[r.value], probe, movable)
    ensures r.Some? ==> forall j :: 0 <= j < r.value ==> !Hit(canMove, points[j], probe, movable)
    ensures r.None? ==> forall j :: 0 <= j < |points| ==> !Hit(canMove, points[j], probe, movable)
  {
    if points == [] then None
    else
      var r := FirstHit(canMove, points[..|points| - 1], probe, movable);
      if r.Some? then r
      else if Hit(canMove, points[|points| - 1], probe, movable) then Some(|points| - 1)
      else None
  }

  // ---------------------------------------------------------------------------
  // The drag rule of mouseMoveEvent

  /**
   * `neighbour` lies in the direction of the move (`up` or down) from
   * `current`, is not generated, and the target pitch would reach or cross it.
   */
  predicate BlocksVertical(neighbour: CurvePoint, current: CurvePoint, target: CurvePoint, up: bool)
  {
    && (if up then neighbour.pitch >= current.pitch else neighbour.pitch <= current.pitch)
    && !neighbour.generated
    && (if up then neighbour.pitch <= target.pitch else neighbour.pitch >= target.pitch)
  }

  /**
   * How a vertical move turns out: a blocking left neighbour abandons the
   * whole move, a blocking right neighbour only its vertical part.
   */
  datatype VerticalCheck = Abort | Skip | Apply

  function CheckVertical(points: seq<CurvePoint>, index: nat, target: CurvePoint): VerticalCheck
    requires index < |points|
  {
    var current := points[index];
    var up := current.pitch < target.pitch;
    if index > 0 && BlocksVertical(points[index - 1], current, target, up) then Abort
    else if index + 1 < |points| && BlocksVertical(points[index + 1], current, target, up) then Skip
    else Apply
  }

  function WithPitch(points: seq<CurvePoint>, i: nat, pitch: int): seq<CurvePoint>
    requires i < |points|
  {
    points[i := points[i].(pitch := pitch)]
  }

  /**
   * The vertical part of an accepted move: the point takes the new pitch,
   * and so do its left neighbour when the point's segment is dashed and its
   * right neighbour when that one's is.
   */
  function MoveVertically(points: seq<CurvePoint>, index: nat, pitch: int): seq<CurvePoint>
    requires index < |points| && (points[index].endDashed ==> index > 0)
  {
    var moved := WithPitch(points, index, pitch);
    var withLeft := if points[index].endDashed then WithPitch(moved, index - 1, pitch) else moved;
    if index + 1 < |points| && points[index + 1].endDashed then WithPitch(withLeft, index + 1, pitch) else withLeft
  }

  /** A move left must stay right of a real left neighbour, a move right left of a real right one. */
  predicate MayMoveHorizontally(points: seq<CurvePoint>, index: nat, target: CurvePoint)
    requires index < |points|
  {
    if points[index].time > target.time then
      index == 0 || points[index - 1].generated || points[index - 1].time < target.time
    else
      index + 1 == |points| || points[index + 1].generated || points[index + 1].time > target.time
  }

  /** The vertical part of the move is carried out. */
  predicate VerticalApplies(canMove: MovePredicate, same: PointEquality, points: seq<CurvePoint>, index: nat,
                            target: CurvePoint)
    requires index < |points|
  {
    && !same(points[index], target)
    && canMove(points[index], Vertical)
    && CheckVertical(points, index, target) == Apply
  }

  /**
   * What a move needs of its caller: a current point in the list, and one
   * before it whenever a dashed current point carries its pitch to it.
   */
  predicate MoveDefined(canMove: MovePredicate, same: PointEquality, points: seq<CurvePoint>, index: nat,
                        target: CurvePoint)
  {
    index < |points| && (VerticalApplies(canMove, same, points, index, target) && points[index].endDashed ==> index > 0)
  }

  /** The point list after a move, and whether the canvas has changed since the press. */
  datatype Edit = Edit(points: seq<CurvePoint>, changed: bool)

  /** `mouseMoveEvent` with current point `index` and the grid point `target` under the mouse. */
  function Move(canMove: MovePredicate, same: PointEquality, points: seq<CurvePoint>, index: nat,
                target: CurvePoint, changed: bool): Edit
    requires MoveDefined(canMove, same, points, index, target)
  {
    var current := points[index];
    var h := canMove(current, Horizontal);
    var v := canMove(current, Vertical);
    if same(current, target) || (!h && !v) then Edit(points, changed)
    else
      var check := if v then CheckVertical(points, index, target) else Skip;
      if check == Abort then Edit(points, changed)
      else
        var afterVertical := if check == Apply then MoveVertically(points, index, target.pitch) else points;
        if h && MayMoveHorizontally(afterVertical, index, target) then
          Edit(afterVertical[index := afterVertical[index].(time := target.time)], true)
        else
          Edit(afterVertical, changed || check == Apply)
  }

  /** The vertical part changes pitches only, and only of the point and its two neighbours. */
  lemma MoveVerticallyShape(points: seq<CurvePoint>, index: nat, pitch: int)
    requires index < |points| && (points[index].endDashed ==> index > 0)
    ensures |MoveVertically(points, index, pitch)| == |points|
    ensures forall j :: 0 <= j < |points| ==>
              MoveVertically(points, index, pitch)[j] == points[j].(pitch := MoveVertically(points, index, pitch)[j].pitch)
    ensures forall j :: 0 <= j < |points| && j != index - 1 && j != index && j != index + 1 ==>
              MoveVertically(points, index, pitch)[j] == points[j]
  {
  }

  /**
   * A move keeps the length of the list and changes nothing but the current
   * point and the pitches of its two neighbours.
   */
  lemma MoveShape(canMove: MovePredicate, same: PointEquality, points: seq<CurvePoint>, index: nat,
                  target: CurvePoint, changed: bool)
    requires MoveDefined(canMove, same, points, index, target)
    ensures var r := Move(canMove, same, points, index, target, changed).points;
            && |r| == |points|
            && r[index] == points[index].(time := r[index].time, pitch := r[index].pitch)
            && (forall j :: 0 <= j < |points| && j != index ==> r[j] == points[j].(pitch := r[j].pitch))
            && (forall j :: 0 <= j < |points| && j != index - 1 && j != index && j != index + 1 ==> r[j] == points[j])
  {
    if VerticalApplies(canMove, same, points, index, target) {
      MoveVerticallyShape(points, index, target.pitch);
    }
  }

  /** A target equal to the current point, or a point that cannot move, leaves everything as it is. */
  lemma MoveStill(canMove: MovePredicate, same: PointEquality, points: seq<CurvePoint>, index: nat,
                  target: CurvePoint, changed: bool)
    requires MoveDefined(canMove, same, points, index, target)
    requires same(points[index], target) || (!canMove(points[index], Horizontal) && !canMove(points[index], Vertical))
    ensures Move(canMove, same, points, index, target, changed) == Edit(points, changed)
  {
  }

  /**
   * A new time is only ever the target's, and only within the neighbours: left
   * of the current time the left neighbour must be generated or earlier than
   * the target, right of it the right neighbour generated or later.
   */
  lemma MoveHorizontalOnlyWithin(canMove: MovePredicate, same: PointEquality, points: seq<CurvePoint>, index: nat,
                                 target: CurvePoint, changed: bool)
    requires MoveDefined(canMove, same, points, index, target)
    requires Move(canMove, same, points, index, target, changed).points[index].time != points[index].time
    ensures Move(canMove, same, points, index, target, changed).points[index].time == target.time
    ensures canMove(points[index], Horizontal)
    ensures target.time < points[index].time ==>
              index == 0 || points[index - 1].generated || points[index - 1].time < target.time
    ensures target.time > points[index].time ==>
              index + 1 == |points| || points[index + 1].generated || points[index + 1].time > target.time
  {
    if VerticalApplies(canMove, same, points, index, target) {
      MoveVerticallyShape(points, index, target.pitch);
    }
  }

  /** Conversely a horizontal move the neighbours allow is made, unless a left neighbour aborts it. */
  lemma MoveHorizontalAccepted(canMove: MovePredicate, same: PointEquality, points: seq<CurvePoint>, index: nat,
                               target: CurvePoint, changed: bool)
    requires MoveDefined(canMove, same, points, index, target)
    requires !same(points[index], target) && canMove(points[index], Horizontal)
    requires canMove(points[index], Vertical) ==> CheckVertical(points, index, target) != Abort
    requires MayMoveHorizontally(points, index, target)
    ensures Move(canMove, same, points, index, target, changed).points[index].time == target.time
    ensures Move(canMove, same, points, index, target, changed).changed
  {
    if VerticalApplies(canMove, same, points, index, target) {
      MoveVerticallyShape(points, index, target.pitch);
    }
  }

  /** A real left neighbour reached or crossed by a vertical move abandons the whole move. */
  lemma MoveBlockedOnLeft(canMove: MovePredicate, same: PointEquality, points: seq<CurvePoint>, index: nat,
                          target: CurvePoint, changed: bool)
    requires MoveDefined(canMove, same, points, index, target)
    requires canMove(points[index], Vertical) && index > 0
    requires BlocksVertical(points[index - 1], points[index], target, points[index].pitch < target.pitch)
    ensures Move(canMove, same, points, index, target, changed) == Edit(points, changed)
  {
  }

  /** A real right neighbour reached or crossed by a vertical move keeps every pitch. */
  lemma MoveBlockedOnRight(canMove: MovePredicate, same: PointEquality, points: seq<CurvePoint>, index: nat,
                           target: CurvePoint, changed: bool)
    requires MoveDefined(canMove, same, points, index, target)
    requires index + 1 < |points|
    requires BlocksVertical(points[index + 1], points[index], target, points[index].pitch < target.pitch)
    ensures forall j :: 0 <= j < |points| ==>
              Move(canMove, same, points, index, target, changed).points[j].pitch == points[j].pitch
  {
  }

  /**
   * An accepted vertical move gives the point the target pitch and carries it
   * over the dashed segments next to it; otherwise no pitch changes.
   */
  lemma MoveVerticalPropagation(canMove: MovePredicate, same: PointEquality, points: seq<CurvePoint>, index: nat,
                                target: CurvePoint, changed: bool)
    requires MoveDefined(canMove, same, points, index, target)
    ensures var r := Move(canMove, same, points, index, target, changed);
            VerticalApplies(canMove, same, points, index, target) ==>
              && r.changed
              && r.points[index].pitch == target.pitch
              && (points[index].endDashed ==> r.points[index - 1].pitch == target.pitch)
              && (!points[index].endDashed && index > 0 ==> r.points[index - 1] == points[index - 1])
              && (index + 1 < |points| && points[index + 1].endDashed ==> r.points[index + 1].pitch == target.pitch)
              && (index + 1 < |points| && !points[index + 1].endDashed ==> r.points[index + 1] == points[index + 1])
    ensures var r := Move(canMove, same, points, index, target, changed);
            !VerticalApplies(canMove, same, points, index, target) ==>
              forall j :: 0 <= j < |points| ==> r.points[j].pitch == points[j].pitch
  {
    if VerticalApplies(canMove, same, points, index, target) {
      MoveVerticallyShape(points, index, target.pitch);
    }
  }

  // ---------------------------------------------------------------------------
  // The canvas

  /** The change signals the canvas emits. */
  datatype Signal =
    | RowCountChanged(rows: int)
    | ColumnCountChanged(columns: int)
    | RowSpacingChanged(rowSpacing: int)
    | ColumnSpacingChanged(columnSpacing: int)
    | ShouldShowNegativeRowsChanged(show: bool)
    | PointListChanged(points: seq<CurvePoint>)
    | CanvasChanged

  /** Everything the canvas holds except its signal log. */
  datatype CanvasState = CanvasState(
    rows: int, columns: int, rowSpacing: int, columnSpacing: int, showNegativeRows: bool,
    points: seq<CurvePoint>, currentPointIndex: Option<nat>, canvasWasChanged: bool)

  /** `QList<CurvePoint>::operator==`: same length, and equal point by point. */
  predicate SameList(same: PointEquality, a: seq<CurvePoint>, b: seq<CurvePoint>)
  {
    |a| == |b| && forall i :: 0 <= i < |a| ==> same(a[i], b[i])
  }

  class BendGridCanvas {
    const canMove: MovePredicate
    const same: PointEquality

    var rows: int
    var columns: int
    var rowSpacing: int
    var columnSpacing: int
    var showNegativeRows: bool
    var points: seq<CurvePoint>
    var currentPointIndex: Option<nat>
    var canvasWasChanged: bool
    /** The signals emitted so far, in order. */
    var signals: seq<Signal>

    function State(): CanvasState
      reads this
    {
      CanvasState(rows, columns, rowSpacing, columnSpacing, showNegativeRows, points, currentPointIndex,
                  canvasWasChanged)
    }

    constructor (canMove: MovePredicate, same: PointEquality)
      ensures this.canMove == canMove && this.same == same
      ensures State() == CanvasState(0, 0, 0, 0, false, [], None, false) && signals == []
    {
      this.canMove := canMove;
      this.same := same;
      rows := 0;
      columns := 0;
      rowSpacing := 0;
      columnSpacing := 0;
      showNegativeRows := false;
      points := [];
      currentPointIndex := None;
      canvasWasChanged := false;
      signals := [];
    }

    method SetRowCount(rowCount: int)
      modifies this
      ensures old(rows) == rowCount ==> unchanged(this)
      ensures old(rows) != rowCount ==>
                State() == old(State()).(rows := rowCount) && signals == old(signals) + [RowCountChanged(rowCount)]
    {
      if rows == rowCount {
        return;
      }
      rows := rowCount;
      signals := signals + [RowCountChanged(rows)];
    }

    method SetColumnCount(columnCount: int)
      modifies this
      ensures old(columns) == columnCount ==> unchanged(this)
      ensures old(columns) != columnCount ==>
                && State() == old(State()).(columns := columnCount)
                && signals == old(signals) + [ColumnCountChanged(columnCount)]
    {
      if columns == columnCount {
        return;
      }
      columns := columnCount;
      signals := signals + [ColumnCountChanged(columns)];
    }

    method SetRowSpacing(spacing: int)
      modifies this
      ensures old(rowSpacing) == spacing ==> unchanged(this)
      ensures old(rowSpacing) != spacing ==>
                State() == old(State()).(rowSpacing := spacing) && signals == old(signals) + [RowSpacingChanged(spacing)]
    {
      if rowSpacing == spacing {
        return;
      }
      rowSpacing := spacing;
      signals := signals + [RowSpacingChanged(rowSpacing)];
    }

    method SetColumnSpacing(spacing: int)
      modifies this
      ensures old(columnSpacing) == spacing ==> unchanged(this)
      ensures old(columnSpacing) != spacing ==>
                && State() == old(State()).(columnSpacing := spacing)
                && signals == old(signals) + [ColumnSpacingChanged(spacing)]
    {
      if columnSpacing == spacing {
        return;
      }
      columnSpacing := spacing;
      signals := signals + [ColumnSpacingChanged(columnSpacing)];
    }

    method SetShouldShowNegativeRows(show: bool)
      modifies this
      ensures old(showNegativeRows) == show ==> unchanged(this)
      ensures old(showNegativeRows) != show ==>
                && State() == old(State()).(showNegativeRows := show)
                && signals == old(signals) + [ShouldShowNegativeRowsChanged(show)]
    {
      if showNegativeRows == show {
        return;
      }
      showNegativeRows := show;
      signals := signals + [ShouldShowNegativeRowsChanged(showNegativeRows)];
    }

    /** `setPointList(points)`, with the list already converted from its variant. */
    method SetPointList(newPoints: seq<CurvePoint>)
      modifies this
      ensures SameList(same, old(points), newPoints) ==> unchanged(this)
      ensures !SameList(same, old(points), newPoints) ==>
                && State() == old(State()).(points := newPoints)
                && signals == old(signals) + [PointListChanged(newPoints)]
    {
      if SameList(same, points, newPoints) {
        return;
      }
      points := newPoints;
      signals := signals + [PointListChanged(newPoints)];
    }

    /** `pointIndex(probe, movable)`: the first point within the grip of the probe. */
    method PointIndex(probe: CurvePoint, movable: bool) returns (r: Option<nat>)
      ensures r == FirstHit(canMove, points, probe, movable)
    {
      for i := 0 to |points|
        invariant forall j :: 0 <= j < i ==> !Hit(canMove, points[j], probe, movable)
      {
        var point := points[i];
        if canMove(point, AllDirections) != movable {
          continue;
        }
        if Square(probe.time - point.time) + Square(probe.pitch - point.pitch) < Square(GripCenterRadius) {
          return Some(i);
        }
      }
      return None;
    }

    /** `mousePressEvent`, with the grid point under the mouse as `probe`. */
    method MousePress(probe: CurvePoint)
      modifies this
      ensures old(rows) == 0 || old(columns) == 0 ==> unchanged(this)
      ensures old(rows) != 0 && old(columns) != 0 ==>
                && State() == old(State()).(currentPointIndex := FirstHit(canMove, points, probe, true),
                                            canvasWasChanged := false)
                && signals == old(signals)
    {
      if rows == 0 || columns == 0 {
        return;
      }
      currentPointIndex := PointIndex(probe, true);
      canvasWasChanged := false;
    }

    /** `mouseMoveEvent`, with the grid point under the mouse as `target`. */
    method MouseMove(target: CurvePoint)
      requires currentPointIndex.Some? ==> MoveDefined(canMove, same, points, currentPointIndex.value, target)
      modifies this
      ensures old(currentPointIndex).None? ==> unchanged(this)
      ensures old(currentPointIndex).Some? ==>
                var e := Move(canMove, same, old(points), old(currentPointIndex).value, target, old(canvasWasChanged));
                State() == old(State()).(points := e.points, canvasWasChanged := e.changed)
      ensures signals == old(signals)
    {
      if currentPointIndex.None? {
        return;
      }
      var index := currentPointIndex.value;
      var current := points[index];
      if same(current, target) {
        return;
      }
      var canMoveHorizontally := canMove(current, Horizontal);
      var canMoveVertically := canMove(current, Vertical);
      if !canMoveHorizontally && !canMoveVertically {
        return;
      }
      if canMoveVertically {
        var moved := MoveVerticalPart(index, target);
        if !moved {
          return;
        }
      }
      if canMoveHorizontally {
        MoveHorizontalPart(index, target);
      }
    }

    /**
     * The vertical half of `mouseMoveEvent`; `false` when the left
     * neighbour abandons the move.
     */
    method MoveVerticalPart(index: nat, target: CurvePoint) returns (proceed: bool)
      requires MoveDefined(canMove, same, points, index, target)
      requires !same(points[index], target) && canMove(points[index], Vertical)
      modifies this
      ensures proceed <==> CheckVertical(old(points), index, target) != Abort
      ensures CheckVertical(old(points), index, target) == Apply ==>
                State() == old(State()).(points := MoveVertically(old(points), index, target.pitch),
                                         canvasWasChanged := true)
      ensures CheckVertical(old(points), index, target) != Apply ==> unchanged(this)
      ensures signals == old(signals)
    {
      var current := points[index];
      var canMoveHere := true;
      var moveToTop := current.pitch < target.pitch;
      if index >= 1 {
        var leftPoint := points[index - 1];
        var isLeftValid := if moveToTop then leftPoint.pitch >= current.pitch else leftPoint.pitch <= current.pitch;
        if isLeftValid {
          canMoveHere := leftPoint.generated
                         || (if moveToTop then leftPoint.pitch > target.pitch else leftPoint.pitch < target.pitch);
        }
      }
      assert canMoveHere <==> !(index > 0 && BlocksVertical(points[index - 1], current, target, moveToTop));
      if !canMoveHere {
        return false;
      }
      if index + 1 < |points| {
        var rightPoint := points[index + 1];
        var isRightValid := if moveToTop then rightPoint.pitch >= current.pitch else rightPoint.pitch <= current.pitch;
        if isRightValid {
          canMoveHere := rightPoint.generated
                         || (if moveToTop then rightPoint.pitch > target.pitch else rightPoint.pitch < target.pitch);
        }
      }
      assert canMoveHere <==> CheckVertical(points, index, target) == Apply;
      if canMoveHere {
        SetPitchAt(index, target.pitch);
      }
      return true;
    }

    /** An accepted vertical move: the new pitch, carried over the dashed segments next to the point. */
    method SetPitchAt(index: nat, pitch: int)
      requires index < |points| && (points[index].endDashed ==> index > 0)
      modifies this
      ensures State() == old(State()).(points := MoveVertically(old(points), index, pitch), canvasWasChanged := true)
      ensures signals == old(signals)
    {
      points := points[index := points[index].(pitch := pitch)];
      var isDashed := points[index].endDashed;
      var isNextDashed := index + 1 < |points| && points[index + 1].endDashed;
      if isDashed {
        points := points[index - 1 := points[index - 1].(pitch := pitch)];
      }
      if isNextDashed {
        points := points[index + 1 := points[index + 1].(pitch := pitch)];
      }
      canvasWasChanged := true;
    }

    /** The horizontal half of `mouseMoveEvent`. */
    method MoveHorizontalPart(index: nat, target: CurvePoint)
      requires index < |points|
      modifies this
      ensures MayMoveHorizontally(old(points), index, target) ==>
                State() == old(State()).(points := old(points)[index := old(points)[index].(time := target.time)],
                                         canvasWasChanged := true)
      ensures !MayMoveHorizontally(old(points), index, target) ==> unchanged(this)
      ensures signals == old(signals)
    {
      var canMoveHere := true;
      var moveToLeft := points[index].time > target.time;
      if moveToLeft {
        if index >= 1 {
          var leftPoint := points[index - 1];
          canMoveHere := leftPoint.generated || leftPoint.time < target.time;
        }
      } else {
        if index + 1 < |points| {
          var rightPoint := points[index + 1];
          canMoveHere := rightPoint.generated || rightPoint.time > target.time;
        }
      }
      if canMoveHere {
        points := points[index := points[index].(time := target.time)];
        canvasWasChanged := true;
      }
    }

    /** `mouseReleaseEvent`. */
    method MouseRelease()
      modifies this
      ensures State() == old(State()).(currentPointIndex := None, canvasWasChanged := false)
      ensures signals == old(signals) + (if old(canvasWasChanged) then [CanvasChanged] else [])
    {
      currentPointIndex := None;
      if canvasWasChanged {
        signals := signals + [CanvasChanged];
      }
      canvasWasChanged := false;
    }
  }
}
