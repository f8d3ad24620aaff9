/**
 * The collision payload of an item-execute clip: its shape, its movement type,
 * and the bezier curve a path-flying collider follows. Curve evaluation is not
 * part of this model; a key point is a record of four opaque fields.
 */
module Collision {
  import opened FireTypes

  /** A 3-vector, carried but never computed with. */
  datatype Vector3 = Vector3(x: real, y: real, z: real)

  /** The handle style tag of a key point, opaque here. */
  datatype HandleStyle = HandleStyle(code: int)

  datatype CollisionExecuteType = OutOfHand | InHand

  /** The collider shapes the clip names; any other member is `OtherShape`. */
  datatype CollisionShape = Sphere | Box | OtherShape

  /**
   * The movement types the clip names; `OtherMove` stands for every other
   * member of the enum (such as plain forward movement).
   */
  datatype CollisionMoveType =
    | FixedPosition
    | SelectedPosition
    | SelectedDirection
    | PathFly
    | SelectedDirectionPathFly
    | OtherMove

  /** One key point of a bezier curve: a position, a handle style and two handle offsets. */
  class BezierPoint3D {
    var localPosition: Vector3
    var handleStyle: HandleStyle
    var leftHandleLocalPosition: Vector3
    var rightHandleLocalPosition: Vector3

    /** A point with default fields, as `new BezierPoint3D()` gives. */
    constructor ()
    {
    }

    /** All four fields of this point equal those of `other`. */
    predicate SameFieldsAs(other: BezierPoint3D)
      reads this, other
    {
      && localPosition == other.localPosition
      && handleStyle == other.handleStyle
      && leftHandleLocalPosition == other.leftHandleLocalPosition
      && rightHandleLocalPosition == other.rightHandleLocalPosition
    }
  }

  /** A bezier curve, seen only through its ordered list of key points. */
  class BezierCurve3D {
    var keyPoints: seq<BezierPoint3D>

    constructor (points: seq<BezierPoint3D>)
      ensures keyPoints == points
    {
      keyPoints := points;
    }
  }

  class CollisionExecuteData {
    var executeType: CollisionExecuteType
    var actionData: ActionEventData
    var shape: CollisionShape
    var radius: real
    var center: Vector3
    var size: Vector3
    var moveType: CollisionMoveType
    var fixedPoint: Vector3
    var speed: real
    var bezierCurve: BezierCurve3D?

    /** Authored settings; `speed` starts at its declared default of 1. */
    constructor (executeType: CollisionExecuteType, actionData: ActionEventData, shape: CollisionShape,
                 radius: real, center: Vector3, size: Vector3, moveType: CollisionMoveType,
                 fixedPoint: Vector3, bezierCurve: BezierCurve3D?)
      ensures this.executeType == executeType && this.actionData == actionData
      ensures this.shape == shape && this.radius == radius && this.center == center && this.size == size
      ensures this.moveType == moveType && this.fixedPoint == fixedPoint
      ensures this.speed == 1.0 && this.bezierCurve == bezierCurve
    {
      this.executeType := executeType;
      this.actionData := actionData;
      this.shape := shape;
      this.radius := radius;
      this.center := center;
      this.size := size;
      this.moveType := moveType;
      this.fixedPoint := fixedPoint;
      this.speed := 1.0;
      this.bezierCurve := bezierCurve;
    }

    /** The speed setting applies: every movement type except the three positional ones. */
    predicate ShowSpeed()
      reads this
    {
      moveType != FixedPosition && moveType != SelectedPosition && moveType != SelectedDirection
    }

    /** The curve setting applies: the two path-flying movement types. */
    predicate ShowPoints()
      reads this
    {
      moveType == PathFly || moveType == SelectedDirectionPathFly
    }

    /**
     * A defensive copy of the curve's key points: an empty list without a
     * curve, otherwise one new point per key point, in the same order, with
     * all four fields copied. Nothing that exists beforehand is modified.
     */
    method GetCtrlPoints() returns (list: seq<BezierPoint3D>)
      ensures bezierCurve == null ==> list == []
      ensures bezierCurve != null ==> |list| == |bezierCurve.keyPoints|
      ensures bezierCurve != null ==>
        forall i :: 0 <= i < |list| ==> list[i].SameFieldsAs(bezierCurve.keyPoints[i])
      ensures forall i :: 0 <= i < |list| ==> fresh(list[i])
      ensures forall i, j :: 0 <= i < j < |list| ==> list[i] != list[j]
    {
      list := [];
      if bezierCurve != null {
        var keyPoints := bezierCurve.keyPoints;
        for k := 0 to |keyPoints|
          invariant |list| == k
          invariant forall i :: 0 <= i < k ==> fresh(list[i]) && list[i].SameFieldsAs(keyPoints[i])
          invariant forall i, j :: 0 <= i < j < k ==> list[i] != list[j]
        {
          var item := keyPoints[k];
          var newPoint := new BezierPoint3D();
          newPoint.localPosition := item.localPosition;
          newPoint.handleStyle := item.handleStyle;
          newPoint.leftHandleLocalPosition := item.leftHandleLocalPosition;
          newPoint.rightHandleLocalPosition := item.rightHandleLocalPosition;
          list := list + [newPoint];
        }
      }
    }
  }

  /** Showing the curve implies showing the speed: a path-flying collider has a speed. */
  lemma PointsImplySpeed(c: CollisionExecuteData)
    ensures c.ShowPoints() ==> c.ShowSpeed()
  {
  }
}
