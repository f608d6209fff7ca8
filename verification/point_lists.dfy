/**
  The mutable containers the viewer passes by reference: a growable list of
  points (`std::vector<Vector3d>&`) and a single vector out-parameter
  (`Vector3d&`).
 */
module PointLists {
  import opened Vectors

  /** A `std::vector<Vector3d>`: its contents, in order. */
  class PointList {
    var items: seq<Vector3>

    constructor (init: seq<Vector3>)
      ensures items == init
    {
      items := init;
    }

    /** `clear()` */
    method Clear()
      modifies this
      ensures items == []
    {
      items := [];
    }

    /** `push_back(v)` */
    method PushBack(v: Vector3)
      modifies this
      ensures items == old(items) + [v]
    {
      items := items + [v];
    }

    /** `at(i) = v` */
    method SetAt(i: nat, v: Vector3)
      requires i < |items|
      modifies this
      ensures items == old(items)[i := v]
    {
      items := items[i := v];
    }
  }

  /** A `Vector3d&` out-parameter. */
  class VectorRef {
    var value: Vector3

    constructor (init: Vector3)
      ensures value == init
    {
      value := init;
    }
  }
}
