/** The draws from numpy's global random generator. Each draw is a value the
    caller cannot predict, constrained only to the range numpy documents. */
module NumpyRandom {
  import opened Python

  /** The text of numpy's `ValueError` for an empty `randint` range; a lower
      bound of 0, the default of the one-argument form, gets its own text. */
  function EmptyRangeText(low: int): string
  {
    if low == 0 then "high <= 0" else "low >= high"
  }

  predicate IntBetween(low: int, v: int, high: int)
  {
    low <= v < high
  }

  predicate RealBetween(low: real, v: real, high: real)
  {
    low <= v <= high
  }

  /** `np.random.randint(low, high)`: an integer of the half-open range
      `[low, high)`, or a `ValueError` when that range is empty. */
  method RandInt(low: int, high: int) returns (r: Result<int>)
    ensures r.Ok? <==> low < high
    ensures r.Ok? ==> low <= r.value < high
    ensures r.Raise? ==> r.error == ValueError(EmptyRangeText(low))
  {
    if low < high {
      assert IntBetween(low, low, high);
      var v :| IntBetween(low, v, high);
      assert IntBetween(low, v, high);
      r := Ok(v);
    } else {
      r := Raise(ValueError(EmptyRangeText(low)));
    }
  }

  /** `np.random.uniform(low, high)`: a float between the two bounds. The
      interval is half-open in theory; rounding can reach `high`, so the
      model allows the closed interval. */
  method Uniform(low: real, high: real) returns (v: real)
    ensures low <= high ==> low <= v <= high
    ensures high < low ==> high <= v <= low
  {
    if low <= high {
      assert RealBetween(low, low, high);
      v :| RealBetween(low, v, high);
      assert RealBetween(low, v, high);
    } else {
      assert RealBetween(high, high, low);
      v :| RealBetween(high, v, low);
      assert RealBetween(high, v, low);
    }
  }
}
