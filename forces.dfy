/**
 * The internal-force record of a structural member: axial force N, shears V2
 * and V3, torsion T, bending moments M2 and M3.
 *
 * `ForceValue` is the value of such a record (what a map of load cases or a
 * combination result holds by copy); `Force` is the mutable record whose
 * arithmetic operators write into the left operand and hand it back.
 * Components are reals: double rounding is not modelled.
 */
module Forces {

  datatype ForceValue = ForceValue(N: real, V2: real, V3: real, T: real, M2: real, M3: real)

  /** The additive identity: every component zero. */
  function Zero(): ForceValue {
    ForceValue(0.0, 0.0, 0.0, 0.0, 0.0, 0.0)
  }

  /** Component-wise sum (the effect of `+` on its left operand). */
  function Add(a: ForceValue, b: ForceValue): (r: ForceValue)
    ensures b == Zero() ==> r == a
    ensures a == Zero() ==> r == b
    ensures a == b ==> r == Scale(a, 2.0)
  {
    ForceValue(a.N + b.N, a.V2 + b.V2, a.V3 + b.V3, a.T + b.T, a.M2 + b.M2, a.M3 + b.M3)
  }

  /** Component-wise difference (the effect of `-`); undoing an Add. */
  function Sub(a: ForceValue, b: ForceValue): (r: ForceValue)
    ensures Add(r, b) == a
    ensures a == b ==> r == Zero()
  {
    ForceValue(a.N - b.N, a.V2 - b.V2, a.V3 - b.V3, a.T - b.T, a.M2 - b.M2, a.M3 - b.M3)
  }

  /** Every component multiplied by `k` (the effect of `*` with a scalar). */
  function Scale(v: ForceValue, k: real): (r: ForceValue)
    ensures k == 1.0 ==> r == v
    ensures k == 0.0 ==> r == Zero()
  {
    ForceValue(v.N * k, v.V2 * k, v.V3 * k, v.T * k, v.M2 * k, v.M3 * k)
  }

  /**
   * Component i multiplied by k[i], in the order N, V2, V3, T, M2, M3 (the
   * effect of `*` with an array of factors); entries past the sixth are unused.
   */
  function ScaleEach(v: ForceValue, k: seq<real>): (r: ForceValue)
    requires |k| >= 6
    ensures k[0] == k[1] == k[2] == k[3] == k[4] == k[5] ==> r == Scale(v, k[0])
  {
    ForceValue(v.N * k[0], v.V2 * k[1], v.V3 * k[2], v.T * k[3], v.M2 * k[4], v.M3 * k[5])
  }

  /** Every component divided by `k` (the effect of `/`); undoing a Scale. */
  function Div(v: ForceValue, k: real): (r: ForceValue)
    requires k != 0.0
    ensures Scale(r, k) == v
    ensures k == 1.0 ==> r == v
  {
    ForceValue(v.N / k, v.V2 / k, v.V3 / k, v.T / k, v.M2 / k, v.M3 / k)
  }

  /** |x|, as the operator's divisor test uses it. */
  function Abs(x: real): real {
    if x < 0.0 then -x else x
  }

  lemma AddCommutes(a: ForceValue, b: ForceValue)
    ensures Add(a, b) == Add(b, a)
  {
  }

  lemma AddAssociates(a: ForceValue, b: ForceValue, c: ForceValue)
    ensures Add(Add(a, b), c) == Add(a, Add(b, c))
  {
  }

  /** Scaling distributes over a sum of forces. */
  lemma ScaleOverAdd(a: ForceValue, b: ForceValue, k: real)
    ensures Scale(Add(a, b), k) == Add(Scale(a, k), Scale(b, k))
  {
  }

  /** Scaling by a sum of factors is the sum of the scaled forces. */
  lemma ScaleOverFactors(a: ForceValue, j: real, k: real)
    ensures Scale(a, j + k) == Add(Scale(a, j), Scale(a, k))
  {
  }

  /** The `Force` record whose operators update it in place. */
  class Force {
    var N: real
    var V2: real
    var V3: real
    var T: real
    var M2: real
    var M3: real

    /** The six components as a value. */
    function Value(): ForceValue
      reads this
    {
      ForceValue(N, V2, V3, T, M2, M3)
    }

    constructor (N: real, V2: real, V3: real, T: real, M2: real, M3: real)
      ensures Value() == ForceValue(N, V2, V3, T, M2, M3)
    {
      this.N, this.V2, this.V3 := N, V2, V3;
      this.T, this.M2, this.M3 := T, M2, M3;
    }

    /** `operator=`: copies f's components unless f is this object; returns this. */
    method Assign(f: Force) returns (r: Force)
      modifies this
      ensures r == this
      ensures Value() == old(f.Value())
      ensures f == this ==> Value() == old(Value())
    {
      if this != f {
        N := f.N;
        V2 := f.V2;
        V3 := f.V3;
        T := f.T;
        M2 := f.M2;
        M3 := f.M3;
      }
      r := this;
    }

    /** `operator+`: adds f into this, component by component; returns this. */
    method Plus(f: Force) returns (r: Force)
      modifies this
      ensures r == this
      ensures Value() == Add(old(Value()), old(f.Value()))
      ensures f == this ==> Value() == Scale(old(Value()), 2.0)
      ensures f != this ==> f.Value() == old(f.Value())
    {
      N := N + f.N;
      V2 := V2 + f.V2;
      V3 := V3 + f.V3;
      T := T + f.T;
      M2 := M2 + f.M2;
      M3 := M3 + f.M3;
      r := this;
    }

    /** `operator-`: subtracts f from this; `a - a` leaves a at zero; returns this. */
    method Minus(f: Force) returns (r: Force)
      modifies this
      ensures r == this
      ensures Value() == Sub(old(Value()), old(f.Value()))
      ensures f == this ==> Value() == Zero()
      ensures f != this ==> f.Value() == old(f.Value())
    {
      N := N - f.N;
      V2 := V2 - f.V2;
      V3 := V3 - f.V3;
      T := T - f.T;
      M2 := M2 - f.M2;
      M3 := M3 - f.M3;
      r := this;
    }

    /** `operator*(double)`: multiplies every component by n; returns this. */
    method Times(n: real) returns (r: Force)
      modifies this
      ensures r == this
      ensures Value() == Scale(old(Value()), n)
      ensures n == 1.0 ==> Value() == old(Value())
      ensures n == 0.0 ==> Value() == Zero()
    {
      N := N * n;
      V2 := V2 * n;
      V3 := V3 * n;
      T := T * n;
      M2 := M2 * n;
      M3 := M3 * n;
      r := this;
    }

    /**
     * `operator*(const double[])`: multiplies component i by n[i] in the order
     * N, V2, V3, T, M2, M3; the array must hold at least six factors.
     */
    method TimesEach(n: array<real>) returns (r: Force)
      requires n.Length >= 6
      modifies this
      ensures r == this
      ensures Value() == ScaleEach(old(Value()), n[..])
    {
      var k := n[..];
      N, V2, V3 := N * k[0], V2 * k[1], V3 * k[2];
      T, M2, M3 := T * k[3], M2 * k[4], M3 * k[5];
      r := this;
    }

    /**
     * `operator/`: divides every component by n; returns this. `warned` is the
     * diagnostic the operator emits, without stopping, when |n| <= eps
     * (eps being the EPSILON constant).
     */
    method DividedBy(n: real, eps: real) returns (r: Force, warned: bool)
      requires n != 0.0
      requires eps > 0.0
      modifies this
      ensures r == this
      ensures warned <==> Abs(n - 0.0) <= eps
      ensures Value() == Div(old(Value()), n)
    {
      warned := Abs(n - 0.0) <= eps;
      N := N / n;
      V2 := V2 / n;
      V3 := V3 / n;
      T := T / n;
      M2 := M2 / n;
      M3 := M3 / n;
      r := this;
    }
  }
}
