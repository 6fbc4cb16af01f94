/**
 * The infinite marquee of skills: the `wrap` that keeps the row's offset in a
 * fixed window, the four-fold copy of the skill list that fills wide screens,
 * and which of the four screens (loading, error, empty, marquee) is shown.
 */
module SkillsVelocity {
  import opened Common
  import opened Database
  import opened UseSkills

  function Abs(x: int): int { if x < 0 then -x else x }

  /** JavaScript's `a / b` truncated toward zero. */
  function JsQuot(a: int, b: int): int
    requires b != 0
  {
    if a >= 0 then a / b else -((-a) / b)
  }

  /** JavaScript's `a % b`: the remainder of truncating division, which takes
      the sign of `a` (Dafny's own `%` never goes negative). */
  function JsRem(a: int, b: int): (r: int)
    requires b != 0
    ensures r == a - b * JsQuot(a, b)
    ensures a >= 0 ==> 0 <= r < Abs(b)
    ensures a < 0 ==> -Abs(b) < r <= 0
  {
    if a >= 0 then a % b else -((-a) % b)
  }

  /** `wrap(min, max, v)`: `v` shifted by whole window widths into the window
      between `min` and `max`. An empty window divides by zero, which yields
      `NaN` in the source and no value here. */
  function Wrap(min: int, max: int, v: int): (w: Option<int>)
    ensures w.None? <==> min == max
  {
    if min == max then None
    else
      var rangeSize := max - min;
      Some(JsRem(JsRem(v - min, rangeSize) + rangeSize, rangeSize) + min)
  }

  /** How many window widths `wrap` shifts `v` by. */
  function WrapTurns(min: int, max: int, v: int): int
    requires min != max
  {
    var rangeSize := max - min;
    1 - JsQuot(v - min, rangeSize) - JsQuot(JsRem(v - min, rangeSize) + rangeSize, rangeSize)
  }

  /** The result differs from `v` by a whole number of window widths. */
  lemma WrapShiftsByWidths(min: int, max: int, v: int)
    requires min != max
    ensures Wrap(min, max, v) == Some(v + WrapTurns(min, max, v) * (max - min))
  {
    var r := max - min;
    var x := JsRem(v - min, r);
    var q1 := JsQuot(v - min, r);
    var q2 := JsQuot(x + r, r);
    assert x == (v - min) - r * q1;
    assert JsRem(x + r, r) == (x + r) - r * q2;
    assert (1 - q1 - q2) * r == r - r * q1 - r * q2;
  }

  /** For a window `[min, max)` the result lies in it. */
  lemma WrapInWindow(min: int, max: int, v: int)
    requires min < max
    ensures Wrap(min, max, v).Some?
    ensures min <= Wrap(min, max, v).value < max
  {
  }

  /** For a reversed window (`max < min`) the result lies in `(max, min]`. */
  lemma WrapInReversedWindow(min: int, max: int, v: int)
    requires max < min
    ensures Wrap(min, max, v).Some?
    ensures max < Wrap(min, max, v).value <= min
  {
  }

  /** A value already in the window is returned unchanged. */
  lemma WrapIdentityInWindow(min: int, max: int, v: int)
    requires min <= v < max
    ensures Wrap(min, max, v) == Some(v)
  {
    var r := max - min;
    ModShift(v - min, r, 0);
    ModShift(v - min, r, 1);
  }

  /** Wrapping twice is wrapping once. */
  lemma WrapIdempotent(min: int, max: int, v: int)
    requires min < max
    ensures Wrap(min, max, Wrap(min, max, v).value) == Wrap(min, max, v)
  {
    WrapInWindow(min, max, v);
    WrapIdentityInWindow(min, max, Wrap(min, max, v).value);
  }

  /** `[...skills, ...skills, ...skills, ...skills]`. */
  function Quadrupled<T>(skills: seq<T>): (r: seq<T>)
    ensures |r| == 4 * |skills|
    ensures var n := |skills|; r[..n] == skills && r[n..2 * n] == skills && r[2 * n..3 * n] == skills && r[3 * n..] == skills
  {
    skills + skills + skills + skills
  }

  lemma MulMonotone(n: int, q: int)
    requires n > 0 && q >= 1
    ensures n * q >= n
  {
    assert n * q == n * (q - 1) + n;
  }

  /** Adding whole multiples of `n` does not change the remainder. */
  lemma ModShift(j: int, n: int, k: nat)
    requires 0 <= j < n
    ensures (j + k * n) % n == j
  {
    var a := j + k * n;
    var q, r := a / n, a % n;
    assert a == n * q + r;
    assert n * (q - k) == j - r;
    if q - k >= 1 {
      MulMonotone(n, q - k);
    } else if q - k <= -1 {
      MulMonotone(n, k - q);
    }
  }

  /** The copy is four times as long, and position `i` shows skill `i mod n`. */
  lemma QuadrupledIndex<T>(skills: seq<T>)
    ensures |Quadrupled(skills)| == 4 * |skills|
    ensures forall i :: 0 <= i < |Quadrupled(skills)| ==> Quadrupled(skills)[i] == skills[i % |skills|]
  {
    var n := |skills|;
    var d := Quadrupled(skills);
    forall i | 0 <= i < |d|
      ensures d[i] == skills[i % n]
    {
      var k: nat := if i < n then 0 else if i < 2 * n then 1 else if i < 3 * n then 2 else 3;
      var j := i - k * n;
      ModShift(j, n, k);
      assert d[i] == skills[j];
    }
  }

  /** What the section shows. */
  datatype VelocityView =
    | LoadingView
    | ErrorView(message: string)
    | EmptyView
    | MarqueeView(row: seq<Skill>)

  /** The section's render: loading first, then a (non-empty) error, then an
      empty list, and only then the marquee over the four-fold copy. */
  function RenderVelocity(skills: seq<Skill>, loading: bool, error: Option<string>): (v: VelocityView)
    ensures v.LoadingView? <==> loading
    ensures v.ErrorView? <==> !loading && Truthy(error)
    ensures v.ErrorView? ==> v.message == error.value
    ensures v.EmptyView? <==> !loading && !Truthy(error) && skills == []
    ensures v.MarqueeView? <==> !loading && !Truthy(error) && skills != []
    ensures v.MarqueeView? ==> |v.row| == 4 * |skills|
    ensures v.MarqueeView? ==> forall i :: 0 <= i < |v.row| ==> v.row[i] == skills[i % |skills|]
  {
    if loading then LoadingView
    else if Truthy(error) then ErrorView(error.value)
    else if |skills| == 0 then EmptyView
    else
      QuadrupledIndex(skills);
      MarqueeView(Quadrupled(skills))
  }
}
