/** Geometry helpers of the constellation effect: the circle overlap test and
    the squared point distance. JavaScript numbers are modelled as reals. */
module ParticleMath {

  /** A point of the drawing plane. */
  datatype Point = Point(x: real, y: real)

  /** A point with a radius: a particle's body or the pointer's influence zone. */
  datatype Circle = Circle(x: real, y: real, radius: real)

  function Center(c: Circle): Point {
    Point(c.x, c.y)
  }

  /** Squared Euclidean distance between two points (no square root is taken). */
  function Distance(p1: Point, p2: Point): (d: real)
    ensures d >= 0.0
    ensures p1 == p2 ==> d == 0.0
  {
    var dx := p1.x - p2.x;
    var dy := p1.y - p2.y;
    SquareNonNegative(dx);
    SquareNonNegative(dy);
    dx * dx + dy * dy
  }

  lemma MulPositive(a: real, b: real)
    requires a > 0.0 && b > 0.0
    ensures a * b > 0.0
  {
  }

  lemma MulNonNegative(a: real, b: real)
    requires a >= 0.0 && b >= 0.0
    ensures a * b >= 0.0
  {
    if a > 0.0 && b > 0.0 {
      MulPositive(a, b);
    }
  }

  lemma SquareNonNegative(a: real)
    ensures a * a >= 0.0
  {
    if a < 0.0 {
      MulPositive(-a, -a);
      assert (-a) * (-a) == a * a;
    } else {
      MulNonNegative(a, a);
    }
  }

  /** Two circles collide when the distance between their centres is strictly
      below the sum of their radii. The square root of the source is avoided:
      a non-negative root is below `s` exactly when `s` is positive and the
      squared distance is below `s * s` (see CollisionBySquareRoot). */
  predicate CircleCollision(c1: Circle, c2: Circle)
    ensures CircleCollision(c1, c2) ==> c1.radius + c2.radius > 0.0
  {
    var s := c1.radius + c2.radius;
    0.0 < s && Distance(Center(c1), Center(c2)) < s * s
  }

  /** The distance is the same in both directions. */
  lemma DistanceSymmetric(p1: Point, p2: Point)
    ensures Distance(p1, p2) == Distance(p2, p1)
  {
    var dx, dy := p1.x - p2.x, p1.y - p2.y;
    assert (p2.x - p1.x) * (p2.x - p1.x) == dx * dx;
    assert (p2.y - p1.y) * (p2.y - p1.y) == dy * dy;
  }

  /** For any square root `root` of the squared centre distance, the circles
      collide exactly when `root < c1.radius + c2.radius`: the squared
      comparison agrees with the source's comparison of true distances. */
  lemma CollisionBySquareRoot(c1: Circle, c2: Circle, root: real)
    requires root >= 0.0 && root * root == Distance(Center(c1), Center(c2))
    ensures root < c1.radius + c2.radius ==> CircleCollision(c1, c2)
    ensures CircleCollision(c1, c2) ==> root < c1.radius + c2.radius
  {
    var s := c1.radius + c2.radius;
    if root < s {
      assert s * s - root * root == (s - root) * (s + root);
      MulPositive(s - root, s + root);
    } else if s > 0.0 {
      assert root * root - s * s == (root - s) * (root + s);
      MulNonNegative(root - s, root + s);
    }
  }

  /** Collision does not depend on the order of the two circles. */
  lemma CollisionSymmetric(c1: Circle, c2: Circle)
    ensures CircleCollision(c1, c2) == CircleCollision(c2, c1)
  {
    DistanceSymmetric(Center(c1), Center(c2));
  }

  /** The comparison is strict: touching circles (centre distance exactly the
      sum of the radii) do not collide. */
  lemma TouchingCirclesDoNotCollide(c1: Circle, c2: Circle)
    requires c1.radius + c2.radius >= 0.0
    requires Distance(Center(c1), Center(c2)) == (c1.radius + c2.radius) * (c1.radius + c2.radius)
    ensures !CircleCollision(c1, c2)
  {
  }

  /** With a non-negative radius sum the test is the squared comparison; with a
      non-positive one nothing collides. */
  lemma CollisionBySquares(c1: Circle, c2: Circle)
    ensures c1.radius + c2.radius >= 0.0 ==>
      (CircleCollision(c1, c2) <==>
       Distance(Center(c1), Center(c2)) < (c1.radius + c2.radius) * (c1.radius + c2.radius))
    ensures c1.radius + c2.radius <= 0.0 ==> !CircleCollision(c1, c2)
  {
    var s := c1.radius + c2.radius;
    if s == 0.0 {
      assert s * s == 0.0;
    }
  }
}
