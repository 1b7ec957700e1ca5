/**
 * Powers of two and residues: the arithmetic behind the table of tolerance
 * corners, whose columns are the binary numerals of the corners.
 */
module Binary {
  /** `Math.pow(2, n)`. */
  function Pow2(n: nat): (r: nat)
    ensures r >= 1
  {
    if n == 0 then 1 else 2 * Pow2(n - 1)
  }

  /** Whether bit `k` of `j` is clear: `j mod 2^(k+1) < 2^k`. */
  predicate BitClear(k: nat, j: nat)
  {
    j % Pow2(k + 1) < Pow2(k)
  }

  lemma MulAtLeast(t: int, e: int)
    requires t > 0 && e >= 1
    ensures t * e >= t
  {
    var f := e - 1;
    assert t * e == t * f + t;
    assert t * f >= 0;
  }

  /** Euclidean division is unique: a quotient and a remainder in range are `a / t` and `a % t`. */
  lemma DivModUnique(a: int, t: int, q: int, r: int)
    requires t > 0 && a == t * q + r && 0 <= r < t
    ensures a % t == r && a / t == q
  {
    var q', r' := a / t, a % t;
    assert a == t * q' + r';
    if q' > q {
      var e := q' - q;
      assert t * e == r - r';
      MulAtLeast(t, e);
    } else if q' < q {
      var e := q - q';
      assert t * e == r' - r;
      MulAtLeast(t, e);
    }
  }

  /** A number below the modulus is its own residue. */
  lemma Small(x: int, t: int)
    requires 0 <= x < t
    ensures x % t == x
  {
    DivModUnique(x, t, 0, x);
  }

  /** A step of the modulus keeps the residue. */
  lemma Step(j: int, t: int)
    requires t > 0
    ensures (j + t) % t == j % t
  {
    DivModUnique(j + t, t, j / t + 1, j % t);
  }

  /** Within one period from `j`, only `j` itself has the residue of `j`. */
  lemma Window(j: int, t: int)
    requires t > 0
    ensures forall p :: j <= p < j + t && p % t == j % t ==> p == j
  {
    forall p | j <= p < j + t && p % t == j % t
      ensures p == j
    {
      var d := p - j;
      assert p == t * (p / t) + p % t;
      assert j == t * (j / t) + j % t;
      assert d == t * (p / t - j / t);
      if p / t - j / t >= 1 {
        MulAtLeast(t, p / t - j / t);
      } else if p / t - j / t < 0 {
        MulAtLeast(t, j / t - p / t);
      }
    }
  }

  /** Bit `k + 1` of `j` is bit `k` of `j / 2`. */
  lemma HalfBit(j: nat, k: nat)
    ensures BitClear(k, j / 2) <==> BitClear(k + 1, j)
  {
    var q, b := j / 2, j % 2;
    var t := Pow2(k + 1);
    var r := q % t;
    var d := q / t;
    assert q == t * d + r;
    assert j == (2 * t) * d + (2 * r + b);
    DivModUnique(j, 2 * t, d, 2 * r + b);
    assert Pow2(k + 2) == 2 * t;
  }

  /** Bit 0 of `j` is clear when `j` is even. */
  lemma LowBit(j: nat)
    ensures BitClear(0, j) <==> j % 2 == 0
  {
  }

  /** Two different numbers below `2^n` differ in one of their `n` bits. */
  lemma {:induction false} BitsDiffer(n: nat, j1: nat, j2: nat) returns (k: nat)
    requires j1 < Pow2(n) && j2 < Pow2(n) && j1 != j2
    ensures k < n && BitClear(k, j1) != BitClear(k, j2)
  {
    if n == 0 {
      assert false;
    } else if j1 % 2 != j2 % 2 {
      k := 0;
      LowBit(j1);
      LowBit(j2);
    } else {
      assert j1 / 2 != j2 / 2;
      var k' := BitsDiffer(n - 1, j1 / 2, j2 / 2);
      HalfBit(j1, k');
      HalfBit(j2, k');
      k := k' + 1;
    }
  }

  /** Every choice of `n` bits is the numeral of one number below `2^n`. */
  lemma {:induction false} Realise(bits: seq<bool>) returns (j: nat)
    ensures j < Pow2(|bits|)
    ensures forall k :: 0 <= k < |bits| ==> (BitClear(k, j) <==> bits[k])
  {
    if |bits| == 0 {
      j := 0;
    } else {
      var j' := Realise(bits[1..]);
      var b := if bits[0] then 0 else 1;
      j := 2 * j' + b;
      DivModUnique(j, 2, j', b);
      LowBit(j);
      forall k | 0 <= k < |bits|
        ensures BitClear(k, j) <==> bits[k]
      {
        if k > 0 {
          HalfBit(j, k - 1);
          assert bits[1..][k - 1] == bits[k];
        }
      }
    }
  }
}
