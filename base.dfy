/** Values shared by the whole model: the Python exceptions the classifier code
    can raise, a result type for calls that may raise one, the float64 outcomes
    of numpy's integer true division, and counting over boolean vectors
    (numpy's elementwise logical operations followed by np.sum). */
module Base {

  /** The exception classes the modelled code can raise. */
  datatype Exception = IndexError | ValueError | ZeroDivisionError

  /** The outcome of a Python call: a value, or the exception it raised. */
  datatype Result<T> = Ok(value: T) | Raised(exception: Exception)

  /** A float64 produced by numpy: a finite value, +inf or nan. */
  datatype Float = Finite(value: real) | Infinity | NaN

  /** numpy's true division of two non-negative integer counts: k/0 is +inf
      for k > 0 and 0/0 is nan; neither raises. */
  function TrueDivide(num: nat, den: nat): (r: Float)
    ensures r.Finite? <==> den > 0
    ensures r.Finite? ==> r.value * den as real == num as real
    ensures r == NaN <==> num == 0 && den == 0
  {
    if den > 0 then Finite(num as real / den as real)
    else if num == 0 then NaN
    else Infinity
  }

  /** A ratio of counts lies in [0, 1] when the numerator does not exceed the denominator. */
  lemma RatioInUnitInterval(num: nat, den: nat)
    requires num <= den && den > 0
    ensures TrueDivide(num, den).Finite?
    ensures 0.0 <= TrueDivide(num, den).value <= 1.0
  {
    var v := num as real / den as real;
    assert v * den as real == num as real;
    assert v <= 1.0 by {
      if v > 1.0 {
        assert v * den as real > den as real;
      }
    }
  }

  /** A count divided by a count it does not exceed is never +inf, and lies
      in [0, 1] whenever it is finite. */
  lemma PartRatio(num: nat, den: nat)
    requires num <= den
    ensures TrueDivide(num, den) != Infinity
    ensures TrueDivide(num, den).Finite? ==> 0.0 <= TrueDivide(num, den).value <= 1.0
  {
    if den > 0 {
      RatioInUnitInterval(num, den);
    }
  }

  /** `x >= c` on a float64: +inf is above every finite value, nan compares false. */
  predicate AtLeast(x: Float, c: real) {
    match x
    case Finite(v) => v >= c
    case Infinity => true
    case NaN => false
  }

  /** The number of true entries of a boolean vector (np.sum). */
  function CountTrue(s: seq<bool>): (n: nat)
    ensures n <= |s|
  {
    if |s| == 0 then 0 else CountTrue(s[..|s| - 1]) + (if s[|s| - 1] then 1 else 0)
  }

  /** np.logical_and on two vectors of the same shape. */
  function And(a: seq<bool>, b: seq<bool>): (r: seq<bool>)
    requires |a| == |b|
    ensures |r| == |a|
  {
    seq(|a|, k requires 0 <= k < |a| => a[k] && b[k])
  }

  /** np.logical_or on two vectors of the same shape. */
  function Or(a: seq<bool>, b: seq<bool>): (r: seq<bool>)
    requires |a| == |b|
    ensures |r| == |a|
  {
    seq(|a|, k requires 0 <= k < |a| => a[k] || b[k])
  }

  /** np.logical_not. */
  function Not(a: seq<bool>): (r: seq<bool>)
    ensures |r| == |a|
  {
    seq(|a|, k requires 0 <= k < |a| => !a[k])
  }

  /** Exactly one of the two holds (np.logical_xor). */
  function Xor(a: seq<bool>, b: seq<bool>): (r: seq<bool>)
    requires |a| == |b|
    ensures |r| == |a|
  {
    seq(|a|, k requires 0 <= k < |a| => a[k] != b[k])
  }

  /** Truth value of each entry of an integer vector, as numpy's logical
      operations read it: nonzero is true. */
  function Truthy(v: seq<int>): (r: seq<bool>)
    ensures |r| == |v|
  {
    seq(|v|, k requires 0 <= k < |v| => v[k] != 0)
  }

  /** Elementwise `==` of two label vectors. */
  function Equal(u: seq<int>, v: seq<int>): (r: seq<bool>)
    requires |u| == |v|
    ensures |r| == |u|
  {
    seq(|u|, k requires 0 <= k < |u| => u[k] == v[k])
  }

  /** Elementwise `!=` of two label vectors. */
  function NotEqual(u: seq<int>, v: seq<int>): (r: seq<bool>)
    requires |u| == |v|
    ensures |r| == |u|
  {
    seq(|u|, k requires 0 <= k < |u| => u[k] != v[k])
  }

  /** Splitting a vector's true entries by a second vector: those where it
      also holds and those where it does not. */
  lemma {:induction false} CountSplit(a: seq<bool>, b: seq<bool>)
    requires |a| == |b|
    ensures CountTrue(a) == CountTrue(And(a, b)) + CountTrue(And(a, Not(b)))
  {
    if |a| > 0 {
      var k := |a| - 1;
      CountSplit(a[..k], b[..k]);
      assert And(a, b)[..k] == And(a[..k], b[..k]);
      assert And(a, Not(b))[..k] == And(a[..k], Not(b[..k]));
    }
  }

  /** The disjunction counts the entries where both hold plus those where exactly one holds. */
  lemma {:induction false} CountOr(a: seq<bool>, b: seq<bool>)
    requires |a| == |b|
    ensures CountTrue(Or(a, b)) == CountTrue(And(a, b)) + CountTrue(Xor(a, b))
  {
    if |a| > 0 {
      var k := |a| - 1;
      CountOr(a[..k], b[..k]);
      assert Or(a, b)[..k] == Or(a[..k], b[..k]);
      assert And(a, b)[..k] == And(a[..k], b[..k]);
      assert Xor(a, b)[..k] == Xor(a[..k], b[..k]);
    }
  }

  /** The entries where exactly one holds are those where only the first
      holds plus those where only the second holds. */
  lemma {:induction false} CountXor(a: seq<bool>, b: seq<bool>)
    requires |a| == |b|
    ensures CountTrue(Xor(a, b)) == CountTrue(And(a, Not(b))) + CountTrue(And(Not(a), b))
  {
    if |a| > 0 {
      var k := |a| - 1;
      CountXor(a[..k], b[..k]);
      assert Xor(a, b)[..k] == Xor(a[..k], b[..k]);
      assert And(a, Not(b))[..k] == And(a[..k], Not(b[..k]));
      assert And(Not(a), b)[..k] == And(Not(a[..k]), b[..k]);
    }
  }

  /** The four cells of the truth table of two boolean vectors add up to the
      counts of each vector, of their disjunction and of the whole length. */
  lemma CountCells(a: seq<bool>, b: seq<bool>)
    requires |a| == |b|
    ensures CountTrue(a) == CountTrue(And(a, b)) + CountTrue(And(a, Not(b)))
    ensures CountTrue(b) == CountTrue(And(a, b)) + CountTrue(And(Not(a), b))
    ensures CountTrue(Or(a, b)) ==
            CountTrue(And(a, b)) + CountTrue(And(a, Not(b))) + CountTrue(And(Not(a), b))
    ensures CountTrue(Xor(a, b)) == CountTrue(And(a, Not(b))) + CountTrue(And(Not(a), b))
    ensures CountTrue(And(a, b)) + CountTrue(And(a, Not(b))) +
            CountTrue(And(Not(a), b)) + CountTrue(And(Not(a), Not(b))) == |a|
  {
    CountSplit(a, b);
    CountSplit(b, a);
    assert And(b, a) == And(a, b);
    assert And(b, Not(a)) == And(Not(a), b);
    CountSplit(Not(a), b);
    CountComplement(a);
    CountOr(a, b);
    CountXor(a, b);
  }

  /** A vector and its negation together count every entry once. */
  lemma {:induction false} CountComplement(a: seq<bool>)
    ensures CountTrue(a) + CountTrue(Not(a)) == |a|
  {
    if |a| > 0 {
      var k := |a| - 1;
      CountComplement(a[..k]);
      assert Not(a)[..k] == Not(a[..k]);
    }
  }

  /** A vector counts zero exactly when it is nowhere true. */
  lemma {:induction false} CountZeroIff(s: seq<bool>)
    ensures CountTrue(s) == 0 <==> forall k :: 0 <= k < |s| ==> !s[k]
  {
    if |s| > 0 {
      CountZeroIff(s[..|s| - 1]);
      assert forall k :: 0 <= k < |s| - 1 ==> s[..|s| - 1][k] == s[k];
    }
  }

  /** Every row has `width` entries. */
  predicate Rectangular(m: seq<seq<real>>, width: nat) {
    forall i :: 0 <= i < |m| ==> |m[i]| == width
  }

  /** A 2-D float array that is only read: its shape (rows, width) and its
      rows. The width is kept apart because an array without rows still has
      one, and indexing a column past it raises. */
  datatype Matrix = Matrix(width: nat, rows: seq<seq<real>>)

  /** Every row of the array has the array's width. */
  predicate Shaped(x: Matrix) {
    Rectangular(x.rows, x.width)
  }

  /** The column x[:, f]. */
  function Column(x: Matrix, f: nat): (c: seq<real>)
    requires Shaped(x) && f < x.width
    ensures |c| == |x.rows|
  {
    seq(|x.rows|, i requires 0 <= i < |x.rows| => x.rows[i][f])
  }

  /** `==` and `!=` of label vectors are each other's negation. */
  lemma EqualIsNotNotEqual(u: seq<int>, v: seq<int>)
    requires |u| == |v|
    ensures Equal(u, v) == Not(NotEqual(u, v))
  {
  }
}
