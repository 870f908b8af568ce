# Shape descriptors of pybinding, modelled in Dafny

This project models `pybinding/shape.py`, the Python layer that defines the
geometric shapes and lattice parameters a tight-binding model is built from:

- `Polygon`: a shape stored as two parallel coordinate sequences `x` and
  `y`. Its `vertices` property reads them back as points. Its setter
  validates a new vertex list and replaces both sequences.
- `rectangle` and `regular_polygon`: factories that compute a fixed
  vertex list and build a `Polygon` from it.
- `primitive` and `translational_symmetry`: encoders that turn Python
  arguments into the native primitive-cell and translational-symmetry
  descriptors.

Files:

- `py_values.dfy` (module `PyValues`): the Python values the encoders look
  at (`None`, booleans, numbers), Python truthiness, and the number Python
  arithmetic sees in a boolean.
- `native.dfy` (module `Native`): the native `Primitive` and `Translational`
  descriptors. They are compiled code outside the model, so here they are
  records of their constructor arguments.
- `shape.dfy` (module `Shape`): everything in `shape.py`.

How the model is built:

- The `vertices` setter runs `x, y = zip(*vertices)` and then checks the
  length. This is modelled step by step:
  - `Transpose` is `zip(*rows)`. It stops at the shortest row, with
    `MinLen` giving that length.
  - `Unzip` is the unpacking into exactly two columns, followed by the
    three-vertex check.
- `Polygon` is a class with `seq<real>` fields. `SetVertices` is the
  setter. A list rejected by its two checks leaves both fields
  unchanged. `Create` is the Python constructor `Polygon(vertices)`.
- `sin`, `cos` and `pi` come from Python's `math` module. Here they are a
  parameter (`Trig`), so the vertex count and the angle schedule are proved
  without interpreting them.

Behaviour of the source worth noting:

- A short vertex list raises Python's `ValueError` (shape.py:33).
- The empty list fails earlier, when `zip(*[])` is unpacked into `x, y`
  (`UnpackError(0)`), and never reaches the three-vertex check.
- Rows longer than two coordinates are accepted whenever some row has
  exactly two. `zip` truncates to the shortest row, so the extra
  coordinates are dropped.
- `translational_symmetry` passes every number through unchanged,
  including the manual lengths 0 and -1. Those two collide with the
  sentinels for "automatic" and "disabled" (`EncodingFaithful`).

## Model

| member | source | states |
|---|---|---|
| `Shape.MinLen` | pybinding/shape.py:31 | `zip` stops at the shortest row: the result is at most every row's length and equal to some row's length |
| `Shape.Transpose` | pybinding/shape.py:31 | `zip(*rows)` yields one column per position that every row has; column `j` holds entry `j` of every row, in row order; no rows gives no columns |
| `Shape.Unzip` | pybinding/shape.py:31-33 | the setter accepts exactly the lists of at least 3 rows whose shortest row has 2 entries. It then returns the first coordinates as `x` and the second as `y`, in order. The empty list fails the unpacking with 0 values. 1 or 2 two-coordinate rows fail the three-vertex check. Any other unpack failure reports a column count other than 2, which is the shortest row's length |
| `Shape.Zip` | pybinding/shape.py:27 | `zip(x, y)` has the length of the shorter input, and its pair `i` is `(x[i], y[i])` |
| `Shape.ReadBack` | pybinding/shape.py:26-36 | after an accepted list, reading back gives the first two coordinates of every input vertex, in input order |
| `Shape.RoundTrip` | pybinding/shape.py:26-36 | a list of points is accepted if and only if it has at least 3 points, and reading it back gives the same points |
| `Shape.Polygon.constructor` | pybinding/shape.py:21-22 | the native base initialisation, which runs before the vertices are assigned, starts with no coordinates |
| `Shape.Polygon.Vertices` | pybinding/shape.py:25-27 | the getter pairs `x[i]` with `y[i]`, up to the shorter of the two |
| `Shape.Polygon.SetVertices` | pybinding/shape.py:29-36 | it succeeds exactly when `Unzip` does. On success, `x` and `y` are the unzipped columns, x and y have the same length, at least 3, and the getter returns the input's points. On failure it reports `Unzip`'s error and leaves `x` and `y` unchanged. A valid polygon stays valid either way |
| `Shape.Polygon.Create` | pybinding/shape.py:21-23 | `Polygon(vertices)` gives a fresh valid polygon exactly when `Unzip` accepts the list. Its fields and getter match the input. Otherwise it returns `Unzip`'s error |
| `Shape.Height` | pybinding/shape.py:72 | `y if y else x`: a falsy `y` gives `x`, `True` gives 1 and a non-zero number gives itself; `RectangleLayout` and `RectangleDefaultsToSquare` use it |
| `Shape.RectangleVertices` | pybinding/shape.py:73-75 | the vertex list `rectangle` builds: four rows of two coordinates, each `(+-x/2, +-h/2)`; `RectangleLayout` and `RectangleCentred` fix their order and signs |
| `Shape.RectangleLayout` | pybinding/shape.py:71-75 | the rectangle is always accepted, with `x == [x/2, x/2, -x/2, -x/2]` and `y == [h/2, -h/2, -h/2, h/2]`, where `h` is the height used |
| `Shape.RectangleDefaultsToSquare` | pybinding/shape.py:72 | a falsy or omitted `y` (`None`, `False`, `0`) gives the same vertices as `rectangle(x, x)` |
| `Shape.RectangleCentred` | pybinding/shape.py:73-75 | opposite corners are negations of each other, so the rectangle is centred on the origin |
| `Shape.Rectangle` | pybinding/shape.py:71-75 | `rectangle(x, y)` returns a fresh valid polygon whose vertices are `(x/2, h/2), (x/2, -h/2), (-x/2, -h/2), (-x/2, h/2)` in that order |
| `Shape.Angles` | pybinding/shape.py:80 | the angle list has `num_sides` entries (none for `num_sides <= 0`) and starts at `angle`; `AnglesSchedule` fixes the step between them |
| `Shape.RegularPolygonVertices` | pybinding/shape.py:81 | one two-coordinate row per side (none for `num_sides <= 0`); `RegularPolygonVertexAt` gives each row's coordinates and `RegularPolygonCount` the count |
| `Shape.RegularPolygonCount` | pybinding/shape.py:78-81 | there is one angle and one vertex per side, and none when `num_sides <= 0` (the division by `num_sides` is never reached) |
| `Shape.RegularPolygonVertexAt` | pybinding/shape.py:80-81 | vertex `k` is `(r sin a_k, r cos a_k)`: a two-coordinate row at angle `a_k`, measured from the y axis |
| `Shape.AnglesSchedule` | pybinding/shape.py:80 | the first angle is `angle`, and consecutive angles differ by exactly `2 pi / num_sides` |
| `Shape.RegularPolygonOutcome` | pybinding/shape.py:78-81 | `Polygon` accepts the vertex list exactly when `num_sides >= 3`. `num_sides <= 0` fails at the unpacking with 0 values; 1 or 2 sides fail the three-vertex check |
| `Shape.RegularPolygonOnCircle` | pybinding/shape.py:81 | whenever `sin^2 + cos^2 = 1`, every vertex is at distance `radius` from the origin |
| `Shape.RegularPolygon` | pybinding/shape.py:78-81 | `regular_polygon` succeeds exactly when `num_sides >= 3`, with the two error cases above. On success the polygon has `num_sides` vertices, vertex `k` being `(r sin a_k, r cos a_k)` |
| `PyValues.Truthy` | pybinding/shape.py:67 | Python's truth test used by `v or 0` and by `y if y else x` (line 72): a value is falsy exactly when it is `None`, `False` or the number 0 |
| `Shape.OrZero` | pybinding/shape.py:67 | `v or 0` keeps a truthy `v` unchanged and turns every falsy `v` into the number 0, so the result is never `None` and has `v`'s truthiness |
| `Shape.Primitive` | pybinding/shape.py:55-68 | `primitive` gives three lengths, in argument order. A truthy length is kept and a falsy one becomes 0. The `nanometers` flag is passed through unchanged |
| `Shape.PrimitiveDefaults` | pybinding/shape.py:55-68 | `primitive()` gives lengths `(0, 0, 0)` with `nanometers` false |
| `Shape.PrimitiveIdempotent` | pybinding/shape.py:67 | feeding a descriptor's lengths back into `primitive` gives the same descriptor |
| `Shape.ToCppParams` | pybinding/shape.py:100-106 | no boolean reaches the native layer. The code is -1 exactly for `False` or the number -1, and 0 exactly for `True` or the number 0. Every non-boolean passes unchanged |
| `Shape.EncodingFaithful` | pybinding/shape.py:93-106 | decoding the sentinel code (-1 disabled, 0 automatic, other numbers manual) recovers the caller's documented meaning (`False`, `True` or a number) if and only if the argument is not the number 0 or -1; `None`, which has no documented meaning, reaches the native layer unchanged |
| `Shape.TranslationalSymmetry` | pybinding/shape.py:88-109 | three codes, the one in position `i` being the encoding of argument `i` alone |
| `Shape.TranslationalDefaults` | pybinding/shape.py:88-109 | the defaults (`True`, `True`, `True`) encode to `(0, 0, 0)` |
| `Shape.TranslationalDecodes` | pybinding/shape.py:93-109 | for booleans and positive lengths (the documented domain), every direction decodes to what the caller asked for |

## Left out

- `Polygon.plot` and `Circle.plot` (`pybinding/shape.py:38-52`) are not modelled. They only draw with matplotlib, together with the `with_defaults` styling merge.
- `Circle` and `circle` (`pybinding/shape.py:46, 84-85`) are not modelled. Construction and validation happen entirely in the native circle type, which is not part of this model.
- The native types (`_cpp.Polygon`, `_cpp.Primitive`, `_cpp.Translational`) are compiled code that is not part of this model. The descriptors only record their arguments.
- `Shape.Polygon.constructor`: the fields are assumed to start empty. What the native base class initialises is not visible.
- The float32 conversion is not modelled (`np.array(..., dtype=np.float32)`, `pybinding/shape.py:35-36`). Coordinates are exact reals, so the round trip is exact here, while in the source it holds only up to float32 rounding.
- `sin`, `cos` and `pi` are not interpreted. The model only uses them as given functions and a given constant.
- Floating-point behaviour in general is not modelled: NaN (which is truthy), rounding in `2 * n * pi / num_sides`, and the difference between Python ints and floats.
- Vertex rows are modelled as sequences of numbers. Non-numeric entries, and one-shot iterators that `zip` would consume, are not modelled.
- `Shape.Polygon.SetVertices`: the unchanged fields on failure are proved only for the two checks at `pybinding/shape.py:31-33`. In the source, `self.x` is written (line 35) before `y` is converted (line 36). So a list that passes both checks but has a second coordinate float32 cannot convert (such as `[[0, 0], [1, 'a'], [0, 1]]`) raises with `x` already replaced and `y` still old. The model's numeric rows cannot express that case.
- `Shape.Rectangle`: `x` is modelled as a number. A non-numeric `x` (such as `None`) raises `TypeError` in Python, and the model does not cover that.
- `Shape.ToCppParams`: `is False` is modelled as matching only the boolean `False`. Other false-like objects, such as NumPy booleans, are not distinguished.
- Exception messages are not modelled. Both failures are Python `ValueError`s, and the model tells them apart as `UnpackError` and `TooFewSides`.
