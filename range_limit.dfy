/** Clamping of a value into a range (helper/range_limit.py). */
module RangeLimits {
  import opened ExtReal
  import opened Wrappers

  /**
   * `range_limit(n, minn, maxn)`: the lower bound when n lies below it, the upper
   * bound when n lies above it, n otherwise.  Both tests look at n, so with
   * crossed bounds (minn > maxn) a value above maxn ends at maxn.
   */
  function RangeLimit(n: Ext, minn: Ext, maxn: Ext): (r: Ext)
    ensures Lt(maxn, n) ==> r == maxn
    ensures !Lt(maxn, n) && Lt(n, minn) ==> r == minn
    ensures Le(minn, n) && Le(n, maxn) ==> r == n
    ensures Le(minn, maxn) ==> Le(minn, r) && Le(r, maxn)
  {
    var lowered := if Lt(n, minn) then minn else n;
    if Lt(maxn, n) then maxn else lowered
  }

  /** Clamping twice is clamping once, for ordered bounds. */
  lemma RangeLimitIdempotent(n: Ext, minn: Ext, maxn: Ext)
    requires Le(minn, maxn)
    ensures RangeLimit(RangeLimit(n, minn, maxn), minn, maxn) == RangeLimit(n, minn, maxn)
  {
  }

  /** Clamping never moves a value away from the range: it only moves it towards the bound it crossed. */
  lemma RangeLimitMonotone(n: Ext, m: Ext, minn: Ext, maxn: Ext)
    requires Le(minn, maxn) && Le(n, m)
    ensures Le(RangeLimit(n, minn, maxn), RangeLimit(m, minn, maxn))
  {
  }

  /**
   * `in_range(n, minn, maxn)`; a bound that is not a number (None, a string) is
   * passed as `None` and makes the answer false.
   */
  predicate InRange(n: Ext, minn: Option<Ext>, maxn: Option<Ext>)
  {
    match (minn, maxn)
    case (Some(lo), Some(hi)) => Le(lo, n) && Le(n, hi)
    case _ => false
  }

  /** A value is in range exactly when clamping leaves it unchanged. */
  lemma InRangeIffFixedPoint(n: Ext, minn: Ext, maxn: Ext)
    ensures InRange(n, Some(minn), Some(maxn)) <==> RangeLimit(n, minn, maxn) == n
  {
  }

  /** `in_range` is false whenever either bound is not numeric. */
  lemma InRangeNeedsNumericBounds(n: Ext, minn: Option<Ext>, maxn: Option<Ext>)
    requires minn.None? || maxn.None?
    ensures !InRange(n, minn, maxn)
  {
  }
}
