/** The aspect-ratio rule the renderer applies when its drawing surface
    changes size: which orthographic box the projection matrix is built from.
    Width and height are Java `int`s, so the ratio between them is an integer
    quotient truncated toward zero; the 16 floats of the matrix itself are not
    modelled, only the six extents handed to the projection routine. */
module Projection {
  import opened OrthoBox

  function Abs(x: int): nat
  {
    if x < 0 then -x else x
  }

  function Min(a: int, b: int): int
  {
    if a <= b then a else b
  }

  function Max(a: int, b: int): int
  {
    if a <= b then b else a
  }

  /** Java's `a / b` on `int`: the quotient truncated toward zero (Dafny's own
      `/` is Euclidean and differs on negative operands). */
  function JavaDiv(a: int, b: int): (q: int)
    requires b != 0
    ensures Abs(q) * Abs(b) <= Abs(a) < Abs(q) * Abs(b) + Abs(b)
    ensures q != 0 ==> (q > 0 <==> ((a > 0) == (b > 0)))
  {
    var m := Abs(a) / Abs(b);
    QuotientBounds(Abs(a), Abs(b));
    if (a < 0) == (b < 0) then m
    else
      assert Abs(-m) == m;
      -m
  }

  lemma QuotientBounds(a: nat, b: nat)
    requires b > 0
    ensures (a / b) * b <= a < (a / b) * b + b
    ensures a / b >= 0 && (a == 0 ==> a / b == 0)
  {
    var q, r := a / b, a % b;
    assert a == q * b + r;
  }

  lemma ProductAtLeast(d: int, y: int)
    requires d >= 1 && y > 0
    ensures d * y >= y
  {
    assert d * y == (d - 1) * y + y;
  }

  /** A truncated quotient is 0 exactly when the dividend is smaller in
      magnitude than the divisor. */
  lemma QuotientZeroIff(a: int, b: int)
    requires b != 0
    ensures JavaDiv(a, b) == 0 <==> Abs(a) < Abs(b)
  {
    var q := JavaDiv(a, b);
    if q != 0 {
      ProductAtLeast(Abs(q), Abs(b));
    }
  }

  /** The outcome of one resize: a box; the ArithmeticException Java raises
      when the ratio divides by a zero side; or the IllegalArgumentException
      the projection routine raises when a ratio of 0 makes the box flat. */
  datatype Projected = Projected(box: Box) | DivisionByZero | DegenerateBox

  /** The side the ratio expression divides by: the height when the surface is
      strictly wider than tall, the width otherwise. */
  function Divisor(width: int, height: int): int
  {
    if width > height then height else width
  }

  /** The side the ratio expression divides: the other one. */
  function Dividend(width: int, height: int): int
  {
    if width > height then width else height
  }

  /** `ratio` of the surface-change callback: the longer side divided by the
      shorter one, truncated. */
  function AspectRatio(width: int, height: int): (ratio: int)
    requires Divisor(width, height) != 0
    ensures width > 0 && height > 0 ==>
      && 1 <= ratio
      && ratio * Min(width, height) <= Max(width, height)
      && Max(width, height) < ratio * Min(width, height) + Min(width, height)
  {
    if width > height then JavaDiv(width, height) else JavaDiv(height, width)
  }

  /** Java's `int` range. */
  predicate IsInt32(x: int)
  {
    -0x8000_0000 <= x < 0x8000_0000
  }

  /** For any two Java `int` sides the ratio is itself an `int`: the one
      quotient that wraps, `Integer.MIN_VALUE / -1`, cannot arise, because the
      dividend is never below the divisor. */
  lemma {:induction false} RatioFitsInt(width: int, height: int)
    requires IsInt32(width) && IsInt32(height) && Divisor(width, height) != 0
    ensures Dividend(width, height) >= Divisor(width, height)
    ensures IsInt32(AspectRatio(width, height))
  {
    var a, b := Dividend(width, height), Divisor(width, height);
    QuotientAtMost(a, b);
    if a == -0x8000_0000 {
      assert b == a;
      assert JavaDiv(a, b) == 1 by {
        QuotientZeroIff(a, b);
      }
    }
  }

  /** A truncated quotient is no larger in magnitude than its dividend. */
  lemma QuotientAtMost(a: int, b: int)
    requires b != 0
    ensures Abs(JavaDiv(a, b)) <= Abs(a)
  {
    var q := JavaDiv(a, b);
    if q != 0 {
      ProductAtLeast(Abs(b), Abs(q));
      assert Abs(b) * Abs(q) == Abs(q) * Abs(b);
    }
  }

  /** The box chosen for a surface of `width` by `height` pixels. For a real
      surface the shorter side spans [-1, 1], the longer side spans
      [-ratio, ratio] with the truncated ratio, and depth spans [-1, 1]. The
      projection routine rejects a box with left == right, bottom == top or
      near == far; only a truncated ratio of 0 yields one, which needs a
      negative side. */
  function Resize(width: int, height: int): (p: Projected)
    ensures p.DivisionByZero? <==> Divisor(width, height) == 0
    ensures p.DegenerateBox? <==>
      Divisor(width, height) != 0 && Abs(Dividend(width, height)) < Abs(Divisor(width, height))
    ensures p.Projected? ==> p.box.left != p.box.right && p.box.bottom != p.box.top
    ensures p.Projected? && width > height ==> p.box.top == 1 && p.box.right == JavaDiv(width, height)
    ensures p.Projected? && width <= height ==> p.box.right == 1 && p.box.top == JavaDiv(height, width)
    ensures p.Projected? ==> p.box.near == -1 && p.box.far == 1
    ensures p.Projected? ==> p.box.left == -p.box.right && p.box.bottom == -p.box.top
    ensures width > 0 && height > 0 ==>
      && p.Projected?
      && (width > height ==>
            && p.box.top == 1
            && 1 <= p.box.right
            && p.box.right * height <= width < p.box.right * height + height)
      && (width <= height ==>
            && p.box.right == 1
            && 1 <= p.box.top
            && p.box.top * width <= height < p.box.top * width + width)
  {
    if Divisor(width, height) == 0 then DivisionByZero
    else
      var ratio := AspectRatio(width, height);
      QuotientZeroIff(Dividend(width, height), Divisor(width, height));
      if ratio == 0 then DegenerateBox
      else if width > height then Projected(Box(-ratio, ratio, -1, 1, -1, 1))
      else Projected(Box(-1, 1, -ratio, ratio, -1, 1))
  }

  /** A square surface with a non-zero side, negative or not, gets the unit
      cube. */
  lemma SquareSurfaceIsUnitBox(side: int)
    requires side != 0
    ensures Resize(side, side) == Projected(UnitBox)
  {
  }

  /** The worked sizes: 200x100 and 100x200 give ratio 2 on the longer axis;
      300x200 truncates 1.5 down to 1 and gets the unit cube. */
  lemma WorkedSizes()
    ensures Resize(200, 100) == Projected(Box(-2, 2, -1, 1, -1, 1))
    ensures Resize(100, 200) == Projected(Box(-1, 1, -2, 2, -1, 1))
    ensures Resize(300, 200) == Projected(UnitBox)
  {
  }

  function Transposed(b: Box): Box
  {
    Box(b.bottom, b.top, b.left, b.right, b.near, b.far)
  }

  /** Turning a surface on its side swaps the horizontal and vertical
      extents. */
  lemma RotatedSurfaceTransposesBox(width: int, height: int)
    requires width > 0 && height > 0
    ensures Resize(height, width) == Projected(Transposed(Resize(width, height).box))
  {
  }

  lemma {:induction false} QuotientUnique(x: int, y: int, q: int, r: int)
    requires y > 0 && 0 <= r < y && x == q * y + r
    ensures x / y == q && x % y == r
  {
    var q', r' := x / y, x % y;
    assert x == q' * y + r';
    assert (q' - q) * y == r - r';
    if q' > q {
      ProductAtLeast(q' - q, y);
    } else if q' < q {
      assert (q - q') * y == r' - r;
      ProductAtLeast(q - q', y);
    }
  }

  lemma {:induction false} QuotientCancels(a: nat, b: nat, k: nat)
    requires b > 0 && k > 0
    ensures (k * a) / (k * b) == a / b
  {
    var q, r := a / b, a % b;
    assert k * a == q * (k * b) + k * r;
    assert k * r < k * b;
    QuotientUnique(k * a, k * b, q, k * r);
  }

  /** Scaling both sides by the same factor leaves the box unchanged. */
  lemma {:induction false} ScaledSurfaceSameBox(width: int, height: int, k: int)
    requires width > 0 && height > 0 && k > 0
    ensures Resize(k * width, k * height) == Resize(width, height)
  {
    var w, h := k * width, k * height;
    ProductAtLeast(k, width);
    ProductAtLeast(k, height);
    if width > height {
      assert w - h == k * (width - height);
      ProductAtLeast(k, width - height);
      QuotientCancels(width, height, k);
      assert AspectRatio(w, h) == AspectRatio(width, height);
    } else {
      assert h - w == k * (height - width);
      if width < height {
        ProductAtLeast(k, height - width);
      }
      QuotientCancels(height, width, k);
      assert AspectRatio(w, h) == AspectRatio(width, height);
    }
  }

  /** The box keeps the surface's proportions exactly when the shorter side
      divides the longer one; otherwise truncation distorts the picture. */
  lemma {:induction false} AspectKeptIffDivides(width: int, height: int)
    requires width > 0 && height > 0
    ensures var b := Resize(width, height).box;
      (b.right - b.left) * height == (b.top - b.bottom) * width
      <==> Max(width, height) % Min(width, height) == 0
  {
    var b := Resize(width, height).box;
    if width > height {
      var r := b.right;
      QuotientUnique(width, height, width / height, width % height);
      assert r == width / height;
      assert (b.right - b.left) * height == 2 * (r * height);
    } else {
      var r := b.top;
      QuotientUnique(height, width, height / width, height % width);
      assert r == height / width;
      assert (b.top - b.bottom) * width == 2 * (r * width);
    }
  }
}
