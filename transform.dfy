/**
 * Plane geometry shared by the two crop dialogs: points, the canvas transformation
 * matrix, a 2D drawing context whose translate/rotate/scale calls update that matrix
 * in place, and the centre-anchored render that both dialogs replay on the viewport,
 * the preview and the output canvas.
 *
 * Rotation by an angle is computed by the browser with cos/sin; here it is an abstract
 * linear map `Linear` supplied by the caller, so nothing depends on trigonometry.
 */
module Transform {

  datatype Point = Point(x: real, y: real)

  function Plus(p: Point, q: Point): Point { Point(p.x + q.x, p.y + q.y) }
  function Minus(p: Point, q: Point): Point { Point(p.x - q.x, p.y - q.y) }
  function Times(k: real, p: Point): Point { Point(k * p.x, k * p.y) }
  function SqDist(p: Point, q: Point): real
  {
    (p.x - q.x) * (p.x - q.x) + (p.y - q.y) * (p.y - q.y)
  }

  /** The linear part of a canvas matrix, laid out as the 2D context's (a, b, c, d). */
  datatype Linear = Linear(a: real, b: real, c: real, d: real)

  function ApplyLinear(m: Linear, p: Point): Point
  {
    Point(m.a * p.x + m.c * p.y, m.b * p.x + m.d * p.y)
  }

  const LinearIdentity := Linear(1.0, 0.0, 0.0, 1.0)

  predicate Invertible(m: Linear) { m.a * m.d - m.b * m.c != 0.0 }

  /** A rotation keeps lengths: its columns are orthonormal. */
  predicate Isometry(m: Linear)
  {
    m.a * m.a + m.b * m.b == 1.0 && m.c * m.c + m.d * m.d == 1.0 && m.a * m.c + m.b * m.d == 0.0
  }

  /** The canvas transformation matrix: x' = a x + c y + e, y' = b x + d y + f. */
  datatype Affine = Affine(lin: Linear, e: real, f: real)

  function Apply(m: Affine, p: Point): Point
  {
    Plus(ApplyLinear(m.lin, p), Point(m.e, m.f))
  }

  const Identity := Affine(LinearIdentity, 0.0, 0.0)

  function Translation(t: Point): Affine { Affine(LinearIdentity, t.x, t.y) }
  function Rotation(r: Linear): Affine { Affine(r, 0.0, 0.0) }
  function Scaling(s: real): Affine { Affine(Linear(s, 0.0, 0.0, s), 0.0, 0.0) }

  /** `Then(m, n)` is the matrix the context holds after applying `n` to a context holding `m`:
      points are mapped by `n` first and then by `m`. */
  function Then(m: Affine, n: Affine): Affine
  {
    var l, k := m.lin, n.lin;
    Affine(Linear(l.a * k.a + l.c * k.b, l.b * k.a + l.d * k.b,
                  l.a * k.c + l.c * k.d, l.b * k.c + l.d * k.d),
           l.a * n.e + l.c * n.f + m.e, l.b * n.e + l.d * n.f + m.f)
  }

  /** Applying the composed matrix is applying `n`, then `m`. */
  lemma {:induction false} ThenApply(m: Affine, n: Affine, p: Point)
    ensures Apply(Then(m, n), p) == Apply(m, Apply(n, p))
  {
    var l, k := m.lin, n.lin;
    var q := Apply(n, p);
    assert q.x == k.a * p.x + k.c * p.y + n.e;
    assert q.y == k.b * p.x + k.d * p.y + n.f;
    assert l.a * q.x == l.a * k.a * p.x + l.a * k.c * p.y + l.a * n.e;
    assert l.c * q.y == l.c * k.b * p.x + l.c * k.d * p.y + l.c * n.f;
    assert l.b * q.x == l.b * k.a * p.x + l.b * k.c * p.y + l.b * n.e;
    assert l.d * q.y == l.d * k.b * p.x + l.d * k.d * p.y + l.d * n.f;
    assert Apply(Then(m, n), p).x == l.a * q.x + l.c * q.y + m.e;
    assert Apply(Then(m, n), p).y == l.b * q.x + l.d * q.y + m.f;
  }

  /** A fresh context's identity matrix is a left unit of composition. */
  lemma {:induction false} IdentityThen(n: Affine)
    ensures Then(Identity, n) == n
  {
  }

  /** One `drawImage(img, x, y)` call: the matrix in force, the image size and where its
      top-left corner was placed in user space. */
  datatype Draw = Draw(ctm: Affine, at: Point, width: real, height: real)

  datatype Rect = Rect(x: real, y: real, width: real, height: real)

  /** Overlay marks drawn in canvas coordinates: `strokeRect` and `fillRect`. */
  datatype Mark = Stroke(rect: Rect) | Fill(rect: Rect)

  /** An encoded snapshot of a canvas (`toDataURL`): the pixels are represented by the
      canvas size and the draw calls that produced them. */
  datatype DataUrl = DataUrl(mimeType: string, quality: real, width: int, height: int, draws: seq<Draw>)

  /** A canvas element and its 2D context. Setting the size resets the context state;
      the browser truncates a fractional size. */
  class Canvas {
    var width: int
    var height: int
    var ctm: Affine
    var saved: seq<Affine>
    var draws: seq<Draw>
    var marks: seq<Mark>

    constructor (w: real, h: real)
      ensures width == w.Floor && height == h.Floor
      ensures ctm == Identity && saved == [] && draws == [] && marks == []
    {
      width, height := w.Floor, h.Floor;
      ctm, saved, draws, marks := Identity, [], [], [];
    }

    method Resize(w: real, h: real)
      modifies this
      ensures width == w.Floor && height == h.Floor
      ensures ctm == Identity && saved == [] && draws == [] && marks == []
    {
      width, height := w.Floor, h.Floor;
      ctm, saved, draws, marks := Identity, [], [], [];
    }

    method Save()
      modifies this`saved
      ensures saved == old(saved) + [ctm]
    {
      saved := saved + [ctm];
    }

    method Restore()
      modifies this`saved, this`ctm
      ensures old(saved) == [] ==> saved == [] && ctm == old(ctm)
      ensures old(saved) != [] ==> saved == old(saved)[..|old(saved)| - 1] && ctm == old(saved)[|old(saved)| - 1]
    {
      if saved != [] {
        ctm := saved[|saved| - 1];
        saved := saved[..|saved| - 1];
      }
    }

    method Translate(t: Point)
      modifies this`ctm
      ensures ctm == Then(old(ctm), Translation(t))
    {
      ctm := Then(ctm, Translation(t));
    }

    method Rotate(r: Linear)
      modifies this`ctm
      ensures ctm == Then(old(ctm), Rotation(r))
    {
      ctm := Then(ctm, Rotation(r));
    }

    method Scale(s: real)
      modifies this`ctm
      ensures ctm == Then(old(ctm), Scaling(s))
    {
      ctm := Then(ctm, Scaling(s));
    }

    method DrawImage(w: real, h: real, at: Point)
      modifies this`draws
      ensures draws == old(draws) + [Draw(ctm, at, w, h)]
    {
      draws := draws + [Draw(ctm, at, w, h)];
    }

    method StrokeRect(r: Rect)
      modifies this`marks
      ensures marks == old(marks) + [Stroke(r)]
    {
      marks := marks + [Stroke(r)];
    }

    method FillRect(r: Rect)
      modifies this`marks
      ensures marks == old(marks) + [Fill(r)]
    {
      marks := marks + [Fill(r)];
    }

    /** `toDataURL(mimeType, quality)`: encodes the canvas as it stands. */
    method ToDataUrl(mimeType: string, quality: real) returns (url: DataUrl)
      ensures url.mimeType == mimeType && url.quality == quality
      ensures url.width == width && url.height == height && url.draws == draws
    {
      url := DataUrl(mimeType, quality, width, height, draws);
    }
  }

  /** The view parameters a crop dialog holds. */
  datatype View = View(scale: real, rotation: Linear, position: Point)

  /** The matrix in force when the image is drawn: translate to `centre`, rotate, scale,
      translate by the pan position. */
  function Placement(centre: Point, v: View): Affine
  {
    Then(Then(Then(Translation(centre), Rotation(v.rotation)), Scaling(v.scale)), Translation(v.position))
  }

  /** Where the source pixel `src` of a `size`-sized image lands on a canvas centred at
      `centre`: the image is drawn with its top-left corner at -size/2. */
  function CanvasPointOf(centre: Point, v: View, size: Point, src: Point): Point
  {
    Apply(Placement(centre, v), Minus(src, Times(0.5, size)))
  }

  /** The centre-anchored render shared by drawCanvas, generatePreview and handleCrop:
      save, translate to the canvas centre, rotate, scale, translate by the position,
      draw the image centred on the origin, restore. */
  method RenderCentred(cv: Canvas, centre: Point, v: View, size: Point)
    requires cv.ctm == Identity
    modifies cv
    ensures cv.width == old(cv.width) && cv.height == old(cv.height)
    ensures cv.ctm == Identity && cv.saved == old(cv.saved) && cv.marks == old(cv.marks)
    ensures cv.draws == old(cv.draws) + [Draw(Placement(centre, v), Times(-0.5, size), size.x, size.y)]
  {
    IdentityThen(Translation(centre));
    cv.Save();
    cv.Translate(centre);
    cv.Rotate(v.rotation);
    cv.Scale(v.scale);
    cv.Translate(v.position);
    cv.DrawImage(size.x, size.y, Times(-0.5, size));
    cv.Restore();
  }

  /** Pixels of the source are placed by `CanvasPointOf`: the drawn image's corner at
      user-space point `at` plus the pixel offset. */
  lemma {:induction false} DrawPlacesPixel(centre: Point, v: View, size: Point, src: Point)
    ensures Apply(Placement(centre, v), Plus(Times(-0.5, size), src)) == CanvasPointOf(centre, v, size, src)
  {
    assert Plus(Times(-0.5, size), src) == Minus(src, Times(0.5, size));
  }

  /** Closed form of the placement: centre + R(s * (p + position)). */
  lemma {:induction false} PlacementClosedForm(centre: Point, v: View, p: Point)
    ensures Apply(Placement(centre, v), p)
         == Plus(centre, ApplyLinear(v.rotation, Times(v.scale, Plus(p, v.position))))
  {
    var tr := Then(Translation(centre), Rotation(v.rotation));
    var trs := Then(tr, Scaling(v.scale));
    ThenApply(trs, Translation(v.position), p);
    var q := Plus(p, v.position);
    assert Apply(Translation(v.position), p) == q;
    ThenApply(tr, Scaling(v.scale), q);
    assert Apply(Scaling(v.scale), q) == Times(v.scale, q);
    ThenApply(Translation(centre), Rotation(v.rotation), Times(v.scale, q));
  }

  /** The canvas centre always shows the source point (image centre - position),
      whatever the scale and the rotation. */
  lemma {:induction false} CentreShowsPannedImageCentre(centre: Point, v: View, size: Point)
    ensures CanvasPointOf(centre, v, size, Minus(Times(0.5, size), v.position)) == centre
  {
    var src := Minus(Times(0.5, size), v.position);
    var p := Minus(src, Times(0.5, size));
    PlacementClosedForm(centre, v, p);
    assert Plus(p, v.position) == Point(0.0, 0.0);
  }

  /** With a non-zero scale and an invertible rotation no other source point reaches the
      canvas centre. */
  lemma {:induction false} CentreSourceIsUnique(centre: Point, v: View, size: Point, src: Point)
    requires v.scale != 0.0 && Invertible(v.rotation)
    requires CanvasPointOf(centre, v, size, src) == centre
    ensures src == Minus(Times(0.5, size), v.position)
  {
    var p := Minus(src, Times(0.5, size));
    PlacementClosedForm(centre, v, p);
    var q := Times(v.scale, Plus(p, v.position));
    var r := v.rotation;
    assert r.a * q.x + r.c * q.y == 0.0 && r.b * q.x + r.d * q.y == 0.0;
    LinearKernel(r, q);
    ZeroFactor(v.scale, p.x + v.position.x);
    ZeroFactor(v.scale, p.y + v.position.y);
  }

  lemma ZeroFactor(a: real, b: real)
    requires a != 0.0 && a * b == 0.0
    ensures b == 0.0
  {
  }

  /** An invertible linear map sends only the origin to the origin. */
  lemma {:induction false} LinearKernel(r: Linear, q: Point)
    requires Invertible(r)
    requires r.a * q.x + r.c * q.y == 0.0 && r.b * q.x + r.d * q.y == 0.0
    ensures q == Point(0.0, 0.0)
  {
    var det := r.a * r.d - r.b * r.c;
    assert det * q.x == r.d * (r.a * q.x + r.c * q.y) - r.c * (r.b * q.x + r.d * q.y);
    assert det * q.y == r.a * (r.b * q.x + r.d * q.y) - r.b * (r.a * q.x + r.c * q.y);
  }

  /** Under a rotation the render scales every source distance by `scale`:
      squared canvas distance = scale^2 * squared source distance. */
  lemma {:induction false} RenderScalesDistances(centre: Point, v: View, size: Point, p: Point, q: Point)
    requires Isometry(v.rotation)
    ensures SqDist(CanvasPointOf(centre, v, size, p), CanvasPointOf(centre, v, size, q))
         == v.scale * v.scale * SqDist(p, q)
  {
    var p' := Plus(Minus(p, Times(0.5, size)), v.position);
    var q' := Plus(Minus(q, Times(0.5, size)), v.position);
    PlacementClosedForm(centre, v, Minus(p, Times(0.5, size)));
    PlacementClosedForm(centre, v, Minus(q, Times(0.5, size)));
    RotatedScaledDistance(centre, v.rotation, v.scale, p', q');
    SqDistByDiffs(p', q', p.x - q.x, p.y - q.y);
    SqDistByDiffs(p, q, p.x - q.x, p.y - q.y);
    assert SqDist(p', q') == SqDist(p, q);
  }

  lemma {:induction false} RotatedScaledDistance(centre: Point, r: Linear, s: real, p: Point, q: Point)
    requires Isometry(r)
    ensures SqDist(Plus(centre, ApplyLinear(r, Times(s, p))), Plus(centre, ApplyLinear(r, Times(s, q))))
         == s * s * SqDist(p, q)
  {
    var P := Plus(centre, ApplyLinear(r, Times(s, p)));
    var Q := Plus(centre, ApplyLinear(r, Times(s, q)));
    var a := Minus(p, q);
    var E := ApplyLinear(r, Times(s, a));
    RenderedDifference(centre, r, s, p, q);
    SqDistIsSqNorm(P, Q);
    assert SqDist(P, Q) == SqNorm(E);
    IsometryNorm(r, Times(s, a));
    ScaledNorm(s, a);
    assert SqNorm(E) == s * s * SqNorm(a);
    SqDistIsSqNorm(p, q);
  }

  function SqNorm(v: Point): real
  {
    v.x * v.x + v.y * v.y
  }

  lemma SqDistIsSqNorm(p: Point, q: Point)
    ensures SqDist(p, q) == SqNorm(Minus(p, q))
  {
  }

  /** The difference of two rendered points is the rendered difference, without the
      centre. */
  lemma RenderedDifference(centre: Point, r: Linear, s: real, p: Point, q: Point)
    ensures Minus(Plus(centre, ApplyLinear(r, Times(s, p))), Plus(centre, ApplyLinear(r, Times(s, q))))
         == ApplyLinear(r, Times(s, Minus(p, q)))
  {
    DifferenceScales(s, p.x, q.x);
    DifferenceScales(s, p.y, q.y);
    assert Minus(Times(s, p), Times(s, q)) == Times(s, Minus(p, q));
    LinearOfDifference(r, Times(s, p), Times(s, q));
  }

  /** An isometry keeps squared norms. */
  lemma IsometryNorm(r: Linear, d: Point)
    requires Isometry(r)
    ensures SqNorm(ApplyLinear(r, d)) == SqNorm(d)
  {
    var e := ApplyLinear(r, d);
    IsometryKeepsSqNorm(r, d.x, d.y, e.x, e.y);
  }

  /** Scaling a vector by `s` scales its squared norm by `s * s`. */
  lemma ScaledNorm(s: real, a: Point)
    ensures SqNorm(Times(s, a)) == s * s * SqNorm(a)
  {
    var d := Times(s, a);
    ScaledSquares(s, a.x, a.y, d.x, d.y, SqNorm(a), SqNorm(d));
  }

  lemma DifferenceScales(k: real, x: real, y: real)
    ensures k * x - k * y == k * (x - y)
  {
  }

  lemma LinearOfDifference(r: Linear, u: Point, w: Point)
    ensures Minus(ApplyLinear(r, u), ApplyLinear(r, w)) == ApplyLinear(r, Minus(u, w))
  {
    DifferenceScales(r.a, u.x, w.x);
    DifferenceScales(r.c, u.y, w.y);
    DifferenceScales(r.b, u.x, w.x);
    DifferenceScales(r.d, u.y, w.y);
  }

  lemma ScaledSquares(s: real, ax: real, ay: real, dx: real, dy: real, d: real, e: real)
    requires dx == s * ax && dy == s * ay
    requires d == ax * ax + ay * ay && e == dx * dx + dy * dy
    ensures e == s * s * d
  {
    SquareOfProduct(s, ax, dx);
    SquareOfProduct(s, ay, dy);
    Distribute(s * s, ax * ax, ay * ay);
  }

  lemma Distribute(k: real, a: real, b: real)
    ensures k * a + k * b == k * (a + b)
  {
  }

  lemma SqDistByDiffs(p: Point, q: Point, ex: real, ey: real)
    requires p.x - q.x == ex && p.y - q.y == ey
    ensures SqDist(p, q) == ex * ex + ey * ey
  {
  }

  lemma SquareOfProduct(s: real, a: real, d: real)
    requires d == s * a
    ensures d * d == s * s * (a * a)
  {
  }

  lemma {:induction false} IsometryKeepsSqNorm(r: Linear, dx: real, dy: real, ex: real, ey: real)
    requires Isometry(r)
    requires ex == r.a * dx + r.c * dy && ey == r.b * dx + r.d * dy
    ensures ex * ex + ey * ey == dx * dx + dy * dy
  {
    calc {
      ex * ex + ey * ey;
      (r.a * dx + r.c * dy) * (r.a * dx + r.c * dy) + (r.b * dx + r.d * dy) * (r.b * dx + r.d * dy);
      (r.a * r.a + r.b * r.b) * dx * dx + 2.0 * (r.a * r.c + r.b * r.d) * dx * dy + (r.c * r.c + r.d * r.d) * dy * dy;
      dx * dx + dy * dy;
    }
  }

  /** Without rotation the left and right edges of a canvas `w` wide, on its middle row,
      show the source points w/(2 scale) either side of the centre point: the canvas spans
      w / scale source units. */
  lemma {:induction false} CanvasSpansWidthOverScale(w: real, h: real, s: real, pos: Point, size: Point)
    requires s > 0.0
    ensures var v := View(s, LinearIdentity, pos);
            var c := Minus(Times(0.5, size), pos);
            && CanvasPointOf(Point(w / 2.0, h / 2.0), v, size, Point(c.x - w / (2.0 * s), c.y)) == Point(0.0, h / 2.0)
            && CanvasPointOf(Point(w / 2.0, h / 2.0), v, size, Point(c.x + w / (2.0 * s), c.y)) == Point(w, h / 2.0)
  {
    var v := View(s, LinearIdentity, pos);
    var c := Minus(Times(0.5, size), pos);
    var centre := Point(w / 2.0, h / 2.0);
    var left := Point(c.x - w / (2.0 * s), c.y);
    var right := Point(c.x + w / (2.0 * s), c.y);
    PlacementClosedForm(centre, v, Minus(left, Times(0.5, size)));
    PlacementClosedForm(centre, v, Minus(right, Times(0.5, size)));
    assert s * (w / (2.0 * s)) == w / 2.0;
  }

  /** Rendering the same view about another centre with the scale multiplied by `k` gives
      the first rendering magnified by `k` about its centre. */
  lemma {:induction false} RescaledPlacement(c1: Point, c2: Point, v: View, k: real, p: Point)
    ensures Minus(Apply(Placement(c2, View(k * v.scale, v.rotation, v.position)), p), c2)
         == Times(k, Minus(Apply(Placement(c1, v), p), c1))
  {
    var q := Plus(p, v.position);
    PlacementClosedForm(c1, v, p);
    PlacementClosedForm(c2, View(k * v.scale, v.rotation, v.position), p);
    assert Times(k * v.scale, q) == Times(k, Times(v.scale, q));
    LinearScales(v.rotation, k, Times(v.scale, q));
  }

  lemma LinearScales(r: Linear, k: real, q: Point)
    ensures ApplyLinear(r, Times(k, q)) == Times(k, ApplyLinear(r, q))
  {
  }
}
