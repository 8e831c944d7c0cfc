/**
 * The server's airfoil object, reduced to the members the RPC handlers and
 * adapters touch: its name, the four geometry parameters, the point count
 * `m_n`, and the four fixed-capacity coordinate arrays `m_x`, `m_y`
 * (current) and `m_xb`, `m_yb` (base). Every array has the capacity IBX.
 */
module Objects2d {
  class Foil {
    var name: string
    var camber: real
    var xCamber: real
    var thickness: real
    var xThickness: real
    var n: int
    const x: array<real>
    const y: array<real>
    const xb: array<real>
    const yb: array<real>

    /** Four distinct arrays of one common capacity. */
    ghost predicate Valid()
      reads this
    {
      && y.Length == x.Length && xb.Length == x.Length && yb.Length == x.Length
      && x != y && x != xb && x != yb && y != xb && y != yb && xb != yb
    }

    /** The capacity IBX of every coordinate array. */
    function Capacity(): nat
      reads this
    {
      x.Length
    }

    constructor (capacity: nat)
      ensures Valid() && Capacity() == capacity
      ensures fresh(x) && fresh(y) && fresh(xb) && fresh(yb)
      ensures name == "" && n == 0
    {
      name := "";
      camber, xCamber, thickness, xThickness := 0.0, 0.0, 0.0, 0.0;
      n := 0;
      x := new real[capacity];
      y := new real[capacity];
      xb := new real[capacity];
      yb := new real[capacity];
    }
  }
}
