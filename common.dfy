/** Small helpers shared by every module: an optional value and the handful of
    JavaScript `Math` functions the simulation relies on, stated over reals. */
module Common {

  datatype Option<T> = None | Some(value: T) {
    /** The `??` operator: the held value, or `default` when absent. */
    function GetOr(default: T): T {
      match this
      case Some(v) => v
      case None => default
    }
  }

  /** A canvas position. */
  datatype Point = Point(x: real, y: real)

  function Min(a: real, b: real): (r: real)
    ensures r <= a && r <= b && (r == a || r == b)
  {
    if a <= b then a else b
  }

  function Max(a: real, b: real): (r: real)
    ensures r >= a && r >= b && (r == a || r == b)
  {
    if a >= b then a else b
  }

  function MinInt(a: int, b: int): (r: int)
    ensures r <= a && r <= b && (r == a || r == b)
  {
    if a <= b then a else b
  }

  function MaxInt(a: int, b: int): (r: int)
    ensures r >= a && r >= b && (r == a || r == b)
  {
    if a >= b then a else b
  }

  /** `count` copies of `x` (none for a non-positive count). */
  function Repeat<T>(x: T, count: int): (r: seq<T>)
    ensures |r| == MaxInt(0, count) && forall j :: 0 <= j < |r| ==> r[j] == x
  {
    if count <= 0 then [] else Repeat(x, count - 1) + [x]
  }

  /** The concatenation of a list of lists, in order. */
  function Flatten<T>(vs: seq<seq<T>>): seq<T> {
    if vs == [] then [] else Flatten(vs[..|vs| - 1]) + vs[|vs| - 1]
  }

  lemma FlattenSnoc<T>(vs: seq<seq<T>>, v: seq<T>)
    ensures Flatten(vs + [v]) == Flatten(vs) + v
  {
    assert (vs + [v])[..|vs|] == vs;
  }

  /** `Math.floor`: the greatest integer not above `x`. */
  function Floor(x: real): (r: int)
    ensures r as real <= x < r as real + 1.0
  {
    x.Floor
  }

  /** `Math.ceil`: the least integer not below `x`. */
  function Ceil(x: real): (r: int)
    ensures x <= r as real < x + 1.0
  {
    -((-x).Floor)
  }

  /** `Math.round`: halves round towards positive infinity. */
  function Round(x: real): (r: int)
    ensures x - 0.5 < r as real <= x + 0.5
  {
    (x + 0.5).Floor
  }

  /** `Math.random()`: an arbitrary draw from [0, 1). Callers may rely on the
      range and on nothing else. */
  method Random() returns (r: real)
    ensures 0.0 <= r < 1.0
  {
    r :| 0.0 <= r < 1.0;
  }
}
