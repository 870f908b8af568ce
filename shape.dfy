/** Shape descriptors: a polygon given by its vertices, the rectangle and
    regular-polygon factories, and the two parameter encoders that build
    the native primitive-cell and translational-symmetry descriptors. */
module Shape {
  import opened PyValues
  import Native

  /** The two ways assigning vertices fails; Python raises `ValueError`
      for both. `UnpackError(got)`: `x, y = zip(*vertices)` found `got`
      columns instead of two. `TooFewSides`: fewer than three vertices. */
  datatype ShapeError = UnpackError(got: nat) | TooFewSides

  datatype Result<T> = Ok(value: T) | Err(error: ShapeError)

  datatype Outcome = Pass | Fail(error: ShapeError)

  // ---------------------------------------------------------------------
  // zip(*vertices) and the unpacking into two coordinate sequences
  // ---------------------------------------------------------------------

  /** The length of the shortest row: `zip` stops at the shortest input. */
  function MinLen(rows: seq<seq<real>>): (m: nat)
    requires |rows| > 0
    ensures forall i :: 0 <= i < |rows| ==> m <= |rows[i]|
    ensures exists i :: 0 <= i < |rows| && |rows[i]| == m
  {
    if |rows| == 1 then |rows[0]|
    else
      var rest := MinLen(rows[1..]);
      if |rows[0]| <= rest then |rows[0]| else rest
  }

  /** True when every row has at least `k` entries and some row exactly `k`. */
  predicate ShortestRowIs(rows: seq<seq<real>>, k: nat) {
    (forall i :: 0 <= i < |rows| ==> k <= |rows[i]|) &&
    (exists i :: 0 <= i < |rows| && |rows[i]| == k)
  }

  /** The `j`-th entry of every row. */
  function Column(rows: seq<seq<real>>, j: nat): seq<real>
    requires forall i :: 0 <= i < |rows| ==> j < |rows[i]|
  {
    seq(|rows|, i requires 0 <= i < |rows| => rows[i][j])
  }

  /** `zip(*rows)`: one column per position that every row has. */
  function Transpose(rows: seq<seq<real>>): (cols: seq<seq<real>>)
    ensures |rows| == 0 ==> cols == []
    ensures |rows| > 0 ==> ShortestRowIs(rows, |cols|)
    ensures forall j :: 0 <= j < |cols| ==>
      |cols[j]| == |rows| &&
      forall i :: 0 <= i < |rows| ==> j < |rows[i]| && cols[j][i] == rows[i][j]
  {
    if |rows| == 0 then []
    else
      var m := MinLen(rows);
      seq(m, j requires 0 <= j < m => Column(rows, j))
  }

  /** The checks of the `vertices` setter, in the order Python runs them:
      unpacking `zip(*vertices)` into exactly two coordinate tuples, then
      the three-vertex minimum. On success, the x and y coordinates. */
  function Unzip(vertices: seq<seq<real>>): (r: Result<(seq<real>, seq<real>)>)
    ensures r.Ok? <==> |vertices| >= 3 && ShortestRowIs(vertices, 2)
    ensures r.Ok? ==>
      |r.value.0| == |vertices| && |r.value.1| == |vertices| &&
      forall i :: 0 <= i < |vertices| ==>
        r.value.0[i] == vertices[i][0] && r.value.1[i] == vertices[i][1]
    ensures r == Err(TooFewSides) <==> 0 < |vertices| < 3 && ShortestRowIs(vertices, 2)
    ensures |vertices| == 0 ==> r == Err(UnpackError(0))
    ensures r.Err? && r.error.UnpackError? ==>
      r.error.got != 2 && (|vertices| > 0 ==> ShortestRowIs(vertices, r.error.got))
  {
    var cols := Transpose(vertices);
    if |cols| != 2 then Err(UnpackError(|cols|))
    else if |cols[0]| < 3 then Err(TooFewSides)
    else Ok((cols[0], cols[1]))
  }

  /** Python's `zip(xs, ys)`: pairs up to the shorter of the two. */
  function Zip(xs: seq<real>, ys: seq<real>): (ps: seq<(real, real)>)
    ensures |ps| == if |xs| <= |ys| then |xs| else |ys|
    ensures forall i :: 0 <= i < |ps| ==> ps[i] == (xs[i], ys[i])
  {
    if xs == [] || ys == [] then []
    else [(xs[0], ys[0])] + Zip(xs[1..], ys[1..])
  }

  /** The first two coordinates of every row, as points. */
  function Points(rows: seq<seq<real>>): seq<(real, real)>
    requires forall i :: 0 <= i < |rows| ==> 2 <= |rows[i]|
  {
    seq(|rows|, i requires 0 <= i < |rows| => (rows[i][0], rows[i][1]))
  }

  /** Rows of exactly two coordinates, one per point. */
  function AsRows(pts: seq<(real, real)>): seq<seq<real>> {
    seq(|pts|, i requires 0 <= i < |pts| => [pts[i].0, pts[i].1])
  }

  /** Reading back what a successful assignment stored gives the first two
      coordinates of each input vertex, in input order. */
  lemma ReadBack(vertices: seq<seq<real>>)
    requires Unzip(vertices).Ok?
    ensures forall i :: 0 <= i < |vertices| ==> 2 <= |vertices[i]|
    ensures Zip(Unzip(vertices).value.0, Unzip(vertices).value.1) == Points(vertices)
  {
    var xs, ys := Unzip(vertices).value.0, Unzip(vertices).value.1;
    var ps := Zip(xs, ys);
    assert |ps| == |vertices|;
    forall i | 0 <= i < |vertices|
      ensures ps[i] == Points(vertices)[i]
    {
      assert ps[i] == (xs[i], ys[i]);
    }
  }

  /** Round trip: a list of points is accepted exactly when it has at least
      three of them, and reading it back gives the same points. */
  lemma RoundTrip(pts: seq<(real, real)>)
    ensures Unzip(AsRows(pts)).Ok? <==> |pts| >= 3
    ensures |pts| >= 3 ==>
      Zip(Unzip(AsRows(pts)).value.0, Unzip(AsRows(pts)).value.1) == pts
  {
    var rows := AsRows(pts);
    if |pts| > 0 {
      assert |rows[0]| == 2;
      assert ShortestRowIs(rows, 2);
    }
    if |pts| >= 3 {
      ReadBack(rows);
      assert Points(rows) == pts;
    }
  }

  // ---------------------------------------------------------------------
  // Polygon
  // ---------------------------------------------------------------------

  /** A polygon stored as two parallel coordinate sequences. */
  class Polygon {
    var x: seq<real>
    var y: seq<real>

    /** What every successfully constructed or reassigned polygon satisfies. */
    ghost predicate Valid()
      reads this
    {
      |x| == |y| && |x| >= 3
    }

    /** The native base's initialisation, which runs before the vertices
        are assigned; it is taken to start with no coordinates. */
    constructor ()
      ensures x == [] && y == []
    {
      x := [];
      y := [];
    }

    /** The `vertices` getter: the stored coordinates zipped into points. */
    function Vertices(): (vs: seq<(real, real)>)
      reads this
      ensures |vs| == if |x| <= |y| then |x| else |y|
      ensures forall i :: 0 <= i < |vs| ==> vs[i] == (x[i], y[i])
    {
      Zip(x, y)
    }

    /** The `vertices` setter. Both checks run before either field is
        written, so a list they reject leaves the polygon as it was. */
    method SetVertices(vertices: seq<seq<real>>) returns (outcome: Outcome)
      modifies this
      ensures outcome.Pass? <==> Unzip(vertices).Ok?
      ensures outcome.Fail? ==>
        outcome.error == Unzip(vertices).error && x == old(x) && y == old(y)
      ensures outcome.Pass? ==>
        Valid() && (x, y) == Unzip(vertices).value &&
        (forall i :: 0 <= i < |vertices| ==> 2 <= |vertices[i]|) &&
        Vertices() == Points(vertices)
      ensures old(Valid()) ==> Valid()
    {
      var r := Unzip(vertices);
      if r.Err? {
        return Fail(r.error);
      }
      ReadBack(vertices);
      x := r.value.0;
      y := r.value.1;
      outcome := Pass;
    }

    /** `Polygon(vertices)`: the native initialisation followed by the
        setter; a rejected list means no polygon is made. */
    static method Create(vertices: seq<seq<real>>) returns (r: Result<Polygon>)
      ensures r.Ok? <==> Unzip(vertices).Ok?
      ensures r.Err? ==> r.error == Unzip(vertices).error
      ensures r.Ok? ==>
        fresh(r.value) && r.value.Valid() &&
        (r.value.x, r.value.y) == Unzip(vertices).value &&
        (forall i :: 0 <= i < |vertices| ==> 2 <= |vertices[i]|) &&
        r.value.Vertices() == Points(vertices)
    {
      var p := new Polygon();
      var outcome := p.SetVertices(vertices);
      if outcome.Fail? {
        return Err(outcome.error);
      }
      r := Ok(p);
    }
  }

  // ---------------------------------------------------------------------
  // rectangle
  // ---------------------------------------------------------------------

  /** The height `rectangle` uses: `y` when truthy, otherwise `x`. */
  function Height(x: real, y: PyVal): (h: real)
    ensures !Truthy(y) ==> h == x
    ensures y == PyBool(true) ==> h == 1.0
    ensures y.PyNum? && y.n != 0.0 ==> h == y.n
  {
    if Truthy(y) then NumericValue(y) else x
  }

  /** The vertex list `rectangle(x, y)` passes to `Polygon`. */
  function RectangleVertices(x: real, y: PyVal): (vs: seq<seq<real>>)
    ensures |vs| == 4
    ensures forall k :: 0 <= k < 4 ==>
      |vs[k]| == 2 &&
      (vs[k][0] == x / 2.0 || vs[k][0] == -(x / 2.0)) &&
      (vs[k][1] == Height(x, y) / 2.0 || vs[k][1] == -(Height(x, y) / 2.0))
  {
    var x0 := x / 2.0;
    var y0 := Height(x, y) / 2.0;
    [[x0, y0], [x0, -y0], [-x0, -y0], [-x0, y0]]
  }

  /** The rectangle is always accepted, and its corners are
      (x/2, h/2), (x/2, -h/2), (-x/2, -h/2), (-x/2, h/2) in that order. */
  lemma RectangleLayout(x: real, y: PyVal)
    ensures Unzip(RectangleVertices(x, y)) ==
      var x0, y0 := x / 2.0, Height(x, y) / 2.0;
      Ok(([x0, x0, -x0, -x0], [y0, -y0, -y0, y0]))
  {
    var rows := RectangleVertices(x, y);
    assert |rows[0]| == 2;
    assert ShortestRowIs(rows, 2);
    var r := Unzip(rows);
    var x0, y0 := x / 2.0, Height(x, y) / 2.0;
    assert r.value.0 == [x0, x0, -x0, -x0];
    assert r.value.1 == [y0, -y0, -y0, y0];
  }

  /** An omitted or falsy height gives the square of side `x`. */
  lemma RectangleDefaultsToSquare(x: real, y: PyVal)
    requires !Truthy(y)
    ensures RectangleVertices(x, y) == RectangleVertices(x, PyNum(x))
  {
  }

  /** The rectangle is centred on the origin: opposite corners are negations
      of each other. */
  lemma RectangleCentred(x: real, y: PyVal)
    ensures forall k :: 0 <= k < 2 ==>
      var vs := RectangleVertices(x, y);
      vs[k + 2] == [-vs[k][0], -vs[k][1]]
  {
  }

  /** `rectangle(x, y)` builds a polygon with exactly these four corners. */
  method Rectangle(x: real, y: PyVal) returns (p: Polygon)
    ensures fresh(p) && p.Valid()
    ensures var x0, y0 := x / 2.0, Height(x, y) / 2.0;
      p.Vertices() == [(x0, y0), (x0, -y0), (-x0, -y0), (-x0, y0)]
  {
    RectangleLayout(x, y);
    var r := Polygon.Create(RectangleVertices(x, y));
    p := r.value;
    assert p.Vertices() == Points(RectangleVertices(x, y));
  }

  // ---------------------------------------------------------------------
  // regular_polygon
  // ---------------------------------------------------------------------

  /** The trigonometry `regular_polygon` imports from `math`, as parameters:
      the model does not interpret them. */
  datatype Trig = Trig(pi: real, sin: real -> real, cos: real -> real)

  function Sin(trig: Trig, a: real): real { trig.sin(a) }

  function Cos(trig: Trig, a: real): real { trig.cos(a) }

  /** The point at angle `a` from the y axis and distance `radius`. */
  function Polar(radius: real, trig: Trig, a: real): seq<real> {
    [radius * Sin(trig, a), radius * Cos(trig, a)]
  }

  /** `[angle + 2 * n * pi / num_sides for n in range(num_sides)]`; the
      division is never reached when `num_sides <= 0`. */
  function Angles(numSides: int, angle: real, pi: real): (angles: seq<real>)
    ensures |angles| == if numSides <= 0 then 0 else numSides
    ensures numSides > 0 ==> angles[0] == angle
  {
    if numSides <= 0 then []
    else seq(numSides, k requires 0 <= k < numSides =>
               angle + 2.0 * (k as real) * pi / (numSides as real))
  }

  /** The vertex list `regular_polygon` passes to `Polygon`. */
  function RegularPolygonVertices(numSides: int, radius: real, angle: real, trig: Trig)
    : (vs: seq<seq<real>>)
    ensures |vs| == if numSides <= 0 then 0 else numSides
    ensures forall k :: 0 <= k < |vs| ==> |vs[k]| == 2
  {
    var angles := Angles(numSides, angle, trig.pi);
    seq(|angles|, k requires 0 <= k < |angles| =>
          Polar(radius, trig, angles[k]))
  }

  /** One vertex per side, none for a non-positive count. */
  lemma RegularPolygonCount(numSides: int, radius: real, angle: real, trig: Trig)
    ensures |Angles(numSides, angle, trig.pi)| == if numSides <= 0 then 0 else numSides
    ensures |RegularPolygonVertices(numSides, radius, angle, trig)| ==
      if numSides <= 0 then 0 else numSides
  {
  }

  /** Vertex `k` lies at angle `a_k` as (r sin a_k, r cos a_k): the angle is
      measured from the y axis. */
  lemma RegularPolygonVertexAt(numSides: int, radius: real, angle: real, trig: Trig, k: int)
    requires 0 <= k < numSides
    ensures k < |Angles(numSides, angle, trig.pi)|
    ensures k < |RegularPolygonVertices(numSides, radius, angle, trig)|
    ensures var a := Angles(numSides, angle, trig.pi)[k];
      var v := RegularPolygonVertices(numSides, radius, angle, trig)[k];
      |v| == 2 && v[0] == radius * Sin(trig, a) && v[1] == radius * Cos(trig, a)
  {
    var a := Angles(numSides, angle, trig.pi)[k];
    assert RegularPolygonVertices(numSides, radius, angle, trig)[k] == Polar(radius, trig, a);
  }

  /** The angle schedule: the first angle is `angle`, and each next one is a
      further `2 pi / num_sides` along. */
  lemma AnglesSchedule(numSides: int, angle: real, pi: real)
    ensures numSides > 0 ==> Angles(numSides, angle, pi)[0] == angle
    ensures forall k :: 0 <= k < numSides - 1 ==>
      Angles(numSides, angle, pi)[k + 1] - Angles(numSides, angle, pi)[k]
        == 2.0 * pi / (numSides as real)
  {
    var angles := Angles(numSides, angle, pi);
    forall k | 0 <= k < numSides - 1
      ensures angles[k + 1] - angles[k] == 2.0 * pi / (numSides as real)
    {
      AngleStep(k, numSides as real, pi);
    }
  }

  /** Arithmetic behind consecutive angles: 2(k+1)pi/n - 2k pi/n = 2 pi/n. */
  lemma AngleStep(k: nat, n: real, pi: real)
    requires n > 0.0
    ensures 2.0 * ((k + 1) as real) * pi / n - 2.0 * (k as real) * pi / n == 2.0 * pi / n
  {
    var kr := k as real;
    calc {
      2.0 * (kr + 1.0) * pi / n - 2.0 * kr * pi / n;
      (2.0 * (kr + 1.0) * pi - 2.0 * kr * pi) / n;
      { assert 2.0 * (kr + 1.0) * pi - 2.0 * kr * pi == 2.0 * pi; }
      2.0 * pi / n;
    }
  }

  /** Whether `Polygon` accepts the regular polygon: only for three or more
      sides. No side at all fails at the unpacking (nothing to unpack), one
      or two sides at the three-vertex check. */
  lemma RegularPolygonOutcome(numSides: int, radius: real, angle: real, trig: Trig)
    ensures Unzip(RegularPolygonVertices(numSides, radius, angle, trig)).Ok? <==> numSides >= 3
    ensures numSides <= 0 ==>
      Unzip(RegularPolygonVertices(numSides, radius, angle, trig)) == Err(UnpackError(0))
    ensures 0 < numSides < 3 ==>
      Unzip(RegularPolygonVertices(numSides, radius, angle, trig)) == Err(TooFewSides)
  {
    var vs := RegularPolygonVertices(numSides, radius, angle, trig);
    if numSides > 0 {
      assert |vs[0]| == 2;
      assert ShortestRowIs(vs, 2);
    }
  }

  /** With `sin^2 + cos^2 = 1`, every vertex lies on the circle of the
      given radius about the origin. */
  lemma RegularPolygonOnCircle(numSides: int, radius: real, angle: real, trig: Trig)
    requires forall a :: Sin(trig, a) * Sin(trig, a) + Cos(trig, a) * Cos(trig, a) == 1.0
    ensures forall k :: 0 <= k < |RegularPolygonVertices(numSides, radius, angle, trig)| ==>
      var v := RegularPolygonVertices(numSides, radius, angle, trig)[k];
      v[0] * v[0] + v[1] * v[1] == radius * radius
  {
    var vs := RegularPolygonVertices(numSides, radius, angle, trig);
    var angles := Angles(numSides, angle, trig.pi);
    RegularPolygonCount(numSides, radius, angle, trig);
    forall k | 0 <= k < |vs|
      ensures vs[k][0] * vs[k][0] + vs[k][1] * vs[k][1] == radius * radius
    {
      RegularPolygonVertexAt(numSides, radius, angle, trig, k);
      var s, c := Sin(trig, angles[k]), Cos(trig, angles[k]);
      assert vs[k][0] == radius * s && vs[k][1] == radius * c;
      ScaledUnit(radius, s, c);
    }
  }

  /** Arithmetic behind the circle: scaling a unit vector by r gives length r. */
  lemma ScaledUnit(r: real, s: real, c: real)
    requires s * s + c * c == 1.0
    ensures (r * s) * (r * s) + (r * c) * (r * c) == r * r
  {
    calc {
      (r * s) * (r * s) + (r * c) * (r * c);
      r * r * (s * s + c * c);
      r * r;
    }
  }

  /** `regular_polygon(num_sides, radius, angle)`. */
  method RegularPolygon(numSides: int, radius: real, angle: real, trig: Trig)
    returns (r: Result<Polygon>)
    ensures r.Ok? <==> numSides >= 3
    ensures numSides <= 0 ==> r == Err(UnpackError(0))
    ensures 0 < numSides < 3 ==> r == Err(TooFewSides)
    ensures r.Ok? ==>
      fresh(r.value) && r.value.Valid() && |r.value.Vertices()| == numSides &&
      forall k :: 0 <= k < numSides ==>
        var a := Angles(numSides, angle, trig.pi)[k];
        r.value.Vertices()[k] == (radius * Sin(trig, a), radius * Cos(trig, a))
  {
    RegularPolygonOutcome(numSides, radius, angle, trig);
    RegularPolygonCount(numSides, radius, angle, trig);
    var vs := RegularPolygonVertices(numSides, radius, angle, trig);
    r := Polygon.Create(vs);
    if r.Ok? {
      forall k | 0 <= k < numSides
        ensures var a := Angles(numSides, angle, trig.pi)[k];
          r.value.Vertices()[k] == (radius * Sin(trig, a), radius * Cos(trig, a))
      {
        RegularPolygonVertexAt(numSides, radius, angle, trig, k);
      }
    }
  }

  // ---------------------------------------------------------------------
  // primitive
  // ---------------------------------------------------------------------

  /** `v or 0`: a truthy value is kept, anything falsy becomes 0. */
  function OrZero(v: PyVal): (r: PyVal)
    ensures Truthy(r) == Truthy(v)
    ensures !r.PyNone?
    ensures Truthy(v) ==> r == v
    ensures !Truthy(v) ==> r == PyNum(0.0)
  {
    if Truthy(v) then v else PyNum(0.0)
  }

  /** `primitive(v1, v2, v3, nanometers)`. */
  function Primitive(v1: PyVal, v2: PyVal, v3: PyVal, nanometers: PyVal)
    : (p: Native.Primitive)
    ensures |p.lengths| == 3 && p.nanometers == nanometers
    ensures forall i :: 0 <= i < 3 ==>
      var v := [v1, v2, v3][i];
      (Truthy(v) ==> p.lengths[i] == v) && (!Truthy(v) ==> p.lengths[i] == PyNum(0.0))
  {
    Native.Primitive([OrZero(v1), OrZero(v2), OrZero(v3)], nanometers)
  }

  /** `primitive()` with its defaults gives three zero lengths in units of
      the lattice vectors. */
  lemma PrimitiveDefaults()
    ensures Primitive(PyNone, PyNone, PyNone, PyBool(false)) ==
      Native.Primitive([PyNum(0.0), PyNum(0.0), PyNum(0.0)], PyBool(false))
  {
  }

  /** Defaulting is idempotent: feeding a descriptor's lengths back into
      `primitive` reproduces the descriptor. */
  lemma PrimitiveIdempotent(v1: PyVal, v2: PyVal, v3: PyVal, nanometers: PyVal)
    ensures var p := Primitive(v1, v2, v3, nanometers);
      Primitive(p.lengths[0], p.lengths[1], p.lengths[2], nanometers) == p
  {
  }

  // ---------------------------------------------------------------------
  // translational_symmetry
  // ---------------------------------------------------------------------

  /** What each direction's argument means to the caller. */
  datatype Setting = Disabled | Automatic | Manual(length: real)

  datatype Option<T> = None | Some(value: T)

  /** `to_cpp_params`: the identity tests `is False` and `is True` match
      only booleans, so every number, zero included, passes unchanged. */
  function ToCppParams(value: PyVal): (code: PyVal)
    ensures !code.PyBool?
    ensures code == PyNum(-1.0) <==> value == PyBool(false) || value == PyNum(-1.0)
    ensures code == PyNum(0.0) <==> value == PyBool(true) || value == PyNum(0.0)
    ensures !value.PyBool? ==> code == value
  {
    if value == PyBool(false) then PyNum(-1.0)
    else if value == PyBool(true) then PyNum(0.0)
    else value
  }

  /** The caller's meaning of an argument: `False` disables the direction,
      `True` asks for the unit-cell length, a number is a manual length. */
  function Intended(value: PyVal): Option<Setting> {
    match value
    case PyNone => None
    case PyBool(b) => Some(if b then Automatic else Disabled)
    case PyNum(n) => Some(Manual(n))
  }

  /** How the sentinel code is read: -1 disabled, 0 automatic, any other
      number a manual length. */
  function DecodeSetting(code: PyVal): Option<Setting> {
    match code
    case PyNum(n) => Some(if n == -1.0 then Disabled else if n == 0.0 then Automatic else Manual(n))
    case _ => None
  }

  /** The encoding keeps the caller's meaning for every documented argument
      except the manual lengths 0 and -1, which collide with the sentinels.
      `None` has no documented meaning and reaches the native layer as is. */
  lemma EncodingFaithful(value: PyVal)
    ensures Intended(value).Some? ==>
      (DecodeSetting(ToCppParams(value)) == Intended(value) <==>
        value != PyNum(0.0) && value != PyNum(-1.0))
    ensures value == PyNone ==> ToCppParams(value) == PyNone
  {
  }

  /** `translational_symmetry(a1, a2, a3)`: each direction encoded on its own
      and in its own position. */
  function TranslationalSymmetry(a1: PyVal, a2: PyVal, a3: PyVal)
    : (t: Native.Translational)
    ensures |t.lengths| == 3
    ensures forall i :: 0 <= i < 3 ==> t.lengths[i] == ToCppParams([a1, a2, a3][i])
  {
    Native.Translational([ToCppParams(a1), ToCppParams(a2), ToCppParams(a3)])
  }

  /** The defaults (all `True`) give automatic lengths in every direction. */
  lemma TranslationalDefaults()
    ensures TranslationalSymmetry(PyBool(true), PyBool(true), PyBool(true)) ==
      Native.Translational([PyNum(0.0), PyNum(0.0), PyNum(0.0)])
  {
  }

  /** For booleans and positive lengths, the documented argument domain,
      every direction decodes to what the caller asked for. */
  lemma TranslationalDecodes(a1: PyVal, a2: PyVal, a3: PyVal)
    requires forall i :: 0 <= i < 3 ==>
      var a := [a1, a2, a3][i]; a.PyBool? || (a.PyNum? && a.n > 0.0)
    ensures forall i :: 0 <= i < 3 ==>
      DecodeSetting(TranslationalSymmetry(a1, a2, a3).lengths[i]) == Intended([a1, a2, a3][i])
  {
    var t := TranslationalSymmetry(a1, a2, a3);
    forall i | 0 <= i < 3
      ensures DecodeSetting(t.lengths[i]) == Intended([a1, a2, a3][i])
    {
      EncodingFaithful([a1, a2, a3][i]);
    }
  }
}
