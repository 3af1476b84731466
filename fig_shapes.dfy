/** The shape classes of the class tutorial (figShapes.C): a base shape of
    area 0 and a circle with a centre and a radius. */
module FigShapes {
  import opened FoamConstants

  /** The area of a circle of radius r. */
  function CircleArea(r: real): real
  {
    Pi * r * r
  }

  lemma AreaNonNegative(r: real)
    ensures CircleArea(r) >= 0.0
  {
    assert r * r >= 0.0;
  }

  /** The area depends on the radius only through its magnitude. */
  lemma AreaEven(r: real)
    ensures CircleArea(-r) == CircleArea(r)
  {}

  /** A larger radius gives a larger area. */
  lemma AreaMonotone(r: real, s: real)
    requires 0.0 <= r <= s
    ensures CircleArea(r) <= CircleArea(s)
  {
    assert r * r <= s * s;
  }

  class Shape {
    constructor ()
    {
    }

    /** The area of a shape in general: none. */
    function Area(): (a: real)
      ensures a == 0.0
    {
      0.0
    }
  }

  class Circle {
    var x: real
    var y: real
    var r: real

    /** The default circle: centre at the origin, radius 0. */
    constructor Default()
      ensures x == 0.0 && y == 0.0 && r == 0.0
      ensures Area() == 0.0
    {
      x, y, r := 0.0, 0.0, 0.0;
    }

    constructor (x: real, y: real, r: real)
      ensures this.x == x && this.y == y && this.r == r
    {
      this.x, this.y, this.r := x, y, r;
    }

    /** The copy constructor. */
    constructor Copy(c: Circle)
      ensures x == c.x && y == c.y && r == c.r
    {
      x, y, r := c.x, c.y, c.r;
    }

    function Area(): (a: real)
      reads this
      ensures a == CircleArea(r) && a >= 0.0
    {
      AreaNonNegative(r);
      CircleArea(r)
    }

    /** The x coordinate of the centre. */
    function CenterX(): (c: real)
      reads this
      ensures c == x
    {
      x
    }

    /** The y coordinate of the centre. */
    function CenterY(): (c: real)
      reads this
      ensures c == y
    {
      y
    }

    /** Move the centre in x; the rest of the circle stays as it was. */
    method SetCenterX(x: real)
      modifies this
      ensures this.x == x && y == old(y) && r == old(r)
      ensures CenterX() == x && CenterY() == old(CenterY()) && Area() == old(Area())
    {
      this.x := x;
    }

    method SetCenterY(y: real)
      modifies this
      ensures this.y == y && x == old(x) && r == old(r)
      ensures CenterY() == y && CenterX() == old(CenterX()) && Area() == old(Area())
    {
      this.y := y;
    }
  }
}
