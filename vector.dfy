/** The game's two-component vector: a mutable pair used for the ball's
    velocity and for the gravity constant. */
module Vectors {

  class Vector {
    var x: real
    var y: real

    constructor (x: real, y: real)
      ensures this.x == x && this.y == y
    {
      this.x := x;
      this.y := y;
    }

    /** `add` changes the receiver, componentwise, by `v` (as `v` was on entry,
        which matters when `v` is the receiver itself). */
    method Add(v: Vector)
      modifies this
      ensures x == old(x) + old(v.x) && y == old(y) + old(v.y)
    {
      x := x + v.x;
      y := y + v.y;
    }

    /** `getMultiplied` returns a new vector, scaled by `n`; the receiver is untouched. */
    method GetMultiplied(n: real) returns (r: Vector)
      ensures fresh(r)
      ensures r.x == x * n && r.y == y * n
    {
      r := new Vector(x * n, y * n);
    }
  }
}
