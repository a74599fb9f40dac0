/** The parts of Python's runtime the agents rely on: optional values,
    exceptions with their `str(e)`, a result that is either a value or a
    raised exception, and the float `%` operator. */
module Python {

  datatype Option<+T> = None | Some(value: T)

  /** The exception classes that can reach the pipeline. `IOError` is Python 3's
      `OSError`; `FileNotFoundError` is a subclass of it, but not the reverse,
      so an `IOError` is never caught by `except FileNotFoundError`.
      `OtherError` stands for an exception raised inside a library this model
      does not contain (numpy, PyTorch, Skyfield). */
  datatype Exception =
    | ValueError(msg: string)
    | FileNotFoundError(msg: string)
    | IOError(msg: string)
    | RuntimeError(msg: string)
    | KeyError(key: string)
    | TypeError(msg: string)
    | AttributeError(msg: string)
    | OtherError(msg: string)
  {
    /** `str(e)`: the message, except that a `KeyError` shows its key quoted. */
    function Str(): string
    {
      if KeyError? then "'" + key + "'" else msg
    }
  }

  /** What a call does: return a value, or raise an exception. */
  datatype Result<+T> = Ok(value: T) | Raise(error: Exception)

  /** The text of the `AttributeError` raised when `attr` is looked up on an
      object of type `typeName` that has no such attribute. */
  function NoAttribute(typeName: string, attr: string): string
  {
    "'" + typeName + "' object has no attribute '" + attr + "'"
  }

  /** The text of the `TypeError` raised by `len(o)` on an object without a length. */
  function NoLength(typeName: string): string
  {
    "object of type '" + typeName + "' has no len()"
  }

  /** Python's `a % m` on floats, over idealised reals: the remainder of floor
      division, which takes the sign of the divisor: `a` minus a whole multiple
      of `m`, in `[0, m)`. */
  function FloatMod(a: real, m: real): (r: real)
    requires m > 0.0
    ensures 0.0 <= r < m
    ensures (a - r) / m == ((a - r) / m).Floor as real
  {
    var k := (a / m).Floor;
    var f := k as real;
    FloorBounds(a, m, f);
    var r := a - f * m;
    assert a - r == f * m;
    assert (f * m) / m == f;
    assert f.Floor == k;
    r
  }

  /** `floor(a / m) * m` is the largest multiple of `m` not above `a`. */
  lemma FloorBounds(a: real, m: real, f: real)
    requires m > 0.0 && f == (a / m).Floor as real
    ensures f * m <= a < f * m + m
  {
    var q := a / m;
    assert f <= q < f + 1.0;
    assert q * m == a;
    var below := q - f;
    var above := f + 1.0 - q;
    assert below * m >= 0.0;
    assert above * m > 0.0;
    assert below * m + f * m == a;
    assert above * m + a == f * m + m;
  }
}
