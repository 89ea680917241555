/** The parts of pygame.Rect and of Python's numeric operators that the
    play state and the speedline particles rely on. */
module Geometry {

  /** A pygame.Rect: integer top-left corner and a non-negative size. */
  datatype Rect = Rect(x: int, y: int, w: nat, h: nat) {

    function Right(): int { x + w }

    function Bottom(): int { y + h }

    /** `rect.centerx`: pygame halves the width with integer division. */
    function CenterX(): int { x + w / 2 }

    function CenterY(): int { y + h / 2 }

    function Center(): (int, int) { (CenterX(), CenterY()) }

    /** Assigning `rect.right = v` moves the rectangle, keeping its size. */
    function WithRight(v: int): (r: Rect)
      ensures r.Right() == v
      ensures r.y == y && r.w == w && r.h == h
    {
      this.(x := v - w)
    }

    /** Assigning `rect.left = v`. */
    function WithLeft(v: int): (r: Rect)
      ensures r.x == v
      ensures r.y == y && r.w == w && r.h == h
    {
      this.(x := v)
    }

    /** Assigning `rect.center = c`: reading the centre back gives `c`. */
    function WithCenter(c: (int, int)): (r: Rect)
      ensures r.Center() == c
      ensures r.w == w && r.h == h
    {
      this.(x := c.0 - w / 2, y := c.1 - h / 2)
    }
  }

  /** `a.colliderect(b)`: an empty rectangle touches nothing; otherwise the
      half-open areas must share a point. */
  predicate Collide(a: Rect, b: Rect) {
    && a.w > 0 && a.h > 0 && b.w > 0 && b.h > 0
    && a.x < b.Right() && b.x < a.Right()
    && a.y < b.Bottom() && b.y < a.Bottom()
  }

  lemma CollideSymmetric(a: Rect, b: Rect)
    ensures Collide(a, b) <==> Collide(b, a)
  {
  }

  /** Python's `int(f)` on a float: truncation toward zero. */
  function Trunc(f: real): (n: int)
    ensures f >= 0.0 ==> 0 <= n && n as real <= f < n as real + 1.0
    ensures f < 0.0 ==> n <= 0 && n as real - 1.0 < f <= n as real
  {
    if f >= 0.0 then f.Floor else -((-f).Floor)
  }

  /** Python's `a // b` on floats. */
  function FloorDiv(a: real, b: real): (q: int)
    requires b > 0.0
    ensures q as real * b <= a < (q as real + 1.0) * b
  {
    var q := (a / b).Floor;
    var v := a / b;
    assert q as real <= v < q as real + 1.0;
    assert v * b == a;
    ScaleBounds(q as real, v, q as real + 1.0, b);
    assert a < (q as real + 1.0) * b;
    q
  }

  /** Multiplying `lo <= v < hi` by a positive factor keeps the order. */
  lemma ScaleBounds(lo: real, v: real, hi: real, k: real)
    requires k > 0.0 && lo <= v < hi
    ensures lo * k <= v * k < hi * k
  {
  }

  /** Python's `a % m` on floats with a positive divisor: the remainder
      lies in [0, m) and differs from `a` by a whole multiple of `m`. */
  function FloorMod(a: real, m: real): (r: real)
    requires m > 0.0
    ensures 0.0 <= r < m
    ensures a - r == FloorDiv(a, m) as real * m
  {
    a - FloorDiv(a, m) as real * m
  }

  function Max(a: real, b: real): (r: real)
    ensures r >= a && r >= b && (r == a || r == b)
  {
    if a >= b then a else b
  }

  function Min(a: real, b: real): (r: real)
    ensures r <= a && r <= b && (r == a || r == b)
  {
    if a <= b then a else b
  }

  function MaxInt(a: int, b: int): (r: int)
    ensures r >= a && r >= b && (r == a || r == b)
  {
    if a >= b then a else b
  }
}
