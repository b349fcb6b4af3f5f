/**
 * The dual-thumb price slider of
 * `src/components/uikit/range-slider/RangeSlider.tsx`: the displayed
 * thumb positions are the outer value clamped into `[min, max]` (an empty
 * bound shows as the end of the range), and each thumb's handler emits a
 * new value that keeps the low end at or below the high end.
 *
 * The slider's own state (which thumb is active) and the track geometry
 * are presentation only and not part of this model. Numbers are integers.
 */
module RangeSlider {
  import opened Common

  /** One end of the outer value: `''` or a number. */
  datatype Bound = Empty | Num(n: int)

  /** `Math.min(Math.max(v, min), max)`. */
  function Clamp(v: int, min: int, max: int): (r: int)
    ensures min <= max ==> min <= r <= max
    ensures min <= v <= max ==> r == v
  {
    Min(Max(v, min), max)
  }

  /** `loNum`: an empty low end shows as `min`. */
  function LoNum(lo: Bound, min: int, max: int): int {
    Clamp(if lo.Num? then lo.n else min, min, max)
  }

  /** `hiNum`: an empty high end shows as `max`. */
  function HiNum(hi: Bound, min: int, max: int): int {
    Clamp(if hi.Num? then hi.n else max, min, max)
  }

  /** `handleLow`: the low thumb moved to `raw`; the high end passes through untouched. */
  function HandleLow(lo: Bound, hi: Bound, raw: int, min: int, max: int): (next: (Bound, Bound))
    ensures next.1 == hi
    ensures next.0.Num? && next.0.n <= HiNum(hi, min, max)
    ensures next.0.n == raw || next.0.n == HiNum(hi, min, max)
  {
    (Num(Min(raw, HiNum(hi, min, max))), hi)
  }

  /** `handleHigh`: the high thumb moved to `raw`; the low end passes through untouched. */
  function HandleHigh(lo: Bound, hi: Bound, raw: int, min: int, max: int): (next: (Bound, Bound))
    ensures next.0 == lo
    ensures next.1.Num? && next.1.n >= LoNum(lo, min, max)
    ensures next.1.n == raw || next.1.n == LoNum(lo, min, max)
  {
    (lo, Num(Max(raw, LoNum(lo, min, max))))
  }

  /** The two value labels: the range end for an empty bound, the displayed number otherwise. */
  function Labels(lo: Bound, hi: Bound, min: int, max: int): (r: (int, int))
    ensures lo.Empty? ==> r.0 == min
    ensures hi.Empty? ==> r.1 == max
    ensures lo.Num? ==> r.0 == LoNum(lo, min, max)
    ensures hi.Num? ==> r.1 == HiNum(hi, min, max)
  {
    (if lo.Empty? then min else LoNum(lo, min, max), if hi.Empty? then max else HiNum(hi, min, max))
  }

  lemma ClampMonotone(a: int, b: int, min: int, max: int)
    requires a <= b
    ensures Clamp(a, min, max) <= Clamp(b, min, max)
  {
  }

  /**
   * The slider keeps min <= max: whatever value came from outside, after
   * either thumb moves the displayed low end is at or below the displayed
   * high end, and both stay inside the range.
   */
  lemma MovesKeepOrder(lo: Bound, hi: Bound, raw: int, min: int, max: int)
    requires min <= max
    ensures var (l, h) := HandleLow(lo, hi, raw, min, max);
      min <= LoNum(l, min, max) <= HiNum(h, min, max) <= max
    ensures var (l, h) := HandleHigh(lo, hi, raw, min, max);
      min <= LoNum(l, min, max) <= HiNum(h, min, max) <= max
  {
    var hiNum := HiNum(hi, min, max);
    ClampMonotone(Min(raw, hiNum), hiNum, min, max);
    var loNum := LoNum(lo, min, max);
    ClampMonotone(loNum, Max(raw, loNum), min, max);
  }

  /** Within a well-formed range a displayed number is a fixed point: moving a thumb onto its own position changes nothing it shows. */
  lemma MoveInPlace(lo: Bound, hi: Bound, min: int, max: int)
    requires min <= max && LoNum(lo, min, max) <= HiNum(hi, min, max)
    ensures var (l, h) := HandleLow(lo, hi, LoNum(lo, min, max), min, max);
      LoNum(l, min, max) == LoNum(lo, min, max) && h == hi
    ensures var (l, h) := HandleHigh(lo, hi, HiNum(hi, min, max), min, max);
      HiNum(h, min, max) == HiNum(hi, min, max) && l == lo
  {
  }

  /** With `min <= max` the labels always equal the thumb positions, empty ends included. */
  lemma LabelsMatchThumbs(lo: Bound, hi: Bound, min: int, max: int)
    requires min <= max
    ensures Labels(lo, hi, min, max) == (LoNum(lo, min, max), HiNum(hi, min, max))
  {
  }
}
