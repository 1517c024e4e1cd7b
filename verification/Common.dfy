/** Types shared by every part of the model: optional values, bytes, addresses and
    the modulus of fixed-width unsigned arithmetic. */
module Common {

  datatype Option<+T> = None | Some(value: T) {
    predicate IsFailure() { None? }

    function PropagateFailure<U>(): Option<U>
      requires None?
    {
      None
    }

    function Extract(): T
      requires Some?
    {
      value
    }
  }

  newtype Byte = x: int | 0 <= x < 256

  type Bytes = seq<Byte>

  /** Addresses are byte strings; the ones that exist on chain have 20 bytes. */
  datatype Address = Address(bytes: Bytes)

  const ZERO_ADDRESS: Address := Address([0, 0, 0, 0, 0, 0, 0, 0, 0, 0, 0, 0, 0, 0, 0, 0, 0, 0, 0, 0])

  function Pow2(n: nat): (p: nat)
    ensures p > 0
  {
    if n == 0 then 1 else 2 * Pow2(n - 1)
  }

  /** The number of values of an unsigned register made of 64-bit limbs. */
  function Modulus(limbs: nat): (m: nat)
    ensures m > 0
  {
    if limbs == 0 then 1 else 0x1_0000_0000_0000_0000 * Modulus(limbs - 1)
  }

  lemma {:induction false} ModulusAdd(i: nat, j: nat)
    ensures Modulus(i + j) == Modulus(i) * Modulus(j)
    decreases i
  {
    if i != 0 {
      ModulusAdd(i - 1, j);
      var m := Modulus(i - 1);
      assert 0x1_0000_0000_0000_0000 * (m * Modulus(j)) == (0x1_0000_0000_0000_0000 * m) * Modulus(j);
    }
  }

  lemma {:induction false} ModulusMono(i: nat, j: nat)
    requires i <= j
    ensures Modulus(i) <= Modulus(j)
    decreases j - i
  {
    if i < j {
      ModulusMono(i + 1, j);
    }
  }

  /** The 64-bit limbs of a 256-bit word, by their bit offsets. */
  const WORD_LIMBS: seq<nat> := [0, 64, 128, 192]

  const LIMBS: nat := |WORD_LIMBS|

  /** The number of words. Proofs treat it as a symbol; WordValue gives its value. */
  const WORD: nat := Modulus(LIMBS)

  lemma WordValue()
    ensures LIMBS == 4
    ensures WORD == 0x1_0000_0000_0000_0000_0000_0000_0000_0000_0000_0000_0000_0000_0000_0000_0000_0000
  {
    assert LIMBS == 4;
    assert Modulus(2) == 0x1_0000_0000_0000_0000_0000_0000_0000_0000;
    ModulusAdd(2, 2);
  }

  /** A 256-bit unsigned word, the type of every on-chain amount. */
  type U256 = x: nat | x < WORD

  /** The value left in an unsigned register that holds `modulus` values. */
  function Wrap(modulus: nat, x: nat): (w: nat)
    requires modulus > 0
    ensures w < modulus
    ensures w <= x
    ensures x < modulus ==> w == x
  {
    if x < modulus then x else x % modulus
  }

  function Times(x: nat, y: nat): (p: nat)
    ensures p == x * y
  {
    x * y
  }

  lemma CancelLeft(k: nat, x: int, y: int)
    requires k > 0 && k * x <= k * y
    ensures x <= y
  {
    assert x >= y + 1 ==> k * x >= k * (y + 1);
  }

  lemma CancelLess(k: nat, x: int, y: int)
    requires x * k < y * k
    ensures x < y
  {
    assert x >= y ==> x * k >= y * k;
  }

  lemma MulLess(x: int, y: int, k: nat)
    requires x < y && k > 0
    ensures x * k < y * k
  {
  }

  lemma MulAtMost(x: int, y: int, k: nat)
    requires x <= y
    ensures x * k <= y * k
  {
  }

  /** Division of registers. */
  function Quotient(x: nat, y: nat): (q: nat)
    requires y > 0
    ensures q <= x
  {
    QuotientBounds(x, y);
    x / y
  }

  lemma QuotientFloors(x: nat, y: nat)
    requires y > 0
    ensures Quotient(x, y) * y <= x < (Quotient(x, y) + 1) * y
  {
    QuotientBounds(x, y);
  }

  lemma DivMod(x: nat, y: nat)
    requires y > 0
    ensures x == y * (x / y) + x % y && 0 <= x % y < y
  {
  }

  lemma DivModBounds(x: nat, y: nat, q: int, r: int)
    requires y > 0 && x == y * q + r && 0 <= r < y
    ensures 0 <= q <= x
    ensures q * y <= x < (q + 1) * y
  {
    assert (q + 1) * y == y * q + y;
    assert q >= 0 ==> q <= y * q;
    assert q <= -1 ==> y * q <= y * -1;
  }

  lemma ModUnique(x: nat, y: nat, q: nat, r: nat)
    requires r < y && x == y * q + r
    ensures x % y == r
  {
    DivMod(x, y);
    var q', r' := x / y, x % y;
    assert q' < q ==> y * (q' + 1) <= y * q;
    assert q < q' ==> y * (q + 1) <= y * q';
    assert y * (q' + 1) == y * q' + y && y * (q + 1) == y * q + y;
  }

  lemma QuotientBounds(x: nat, y: nat)
    requires y > 0
    ensures 0 <= x / y <= x && (x / y) * y <= x < (x / y + 1) * y
  {
    DivMod(x, y);
    DivModBounds(x, y, x / y, x % y);
  }

  lemma {:induction false} Pow2Add(m: nat, n: nat)
    ensures Pow2(m + n) == Pow2(m) * Pow2(n)
    decreases m
  {
    if m != 0 {
      Pow2Add(m - 1, n);
      assert Pow2(m + n) == 2 * (Pow2(m - 1) * Pow2(n)) == (2 * Pow2(m - 1)) * Pow2(n);
    }
  }

  lemma {:induction false} Pow2Mono(m: nat, n: nat)
    requires m <= n
    ensures Pow2(m) <= Pow2(n)
    decreases n - m
  {
    if m < n {
      Pow2Mono(m + 1, n);
    }
  }

  lemma {:induction false} ModulusIsPow2(limbs: nat)
    ensures Modulus(limbs) == Pow2(64 * limbs)
  {
    if limbs != 0 {
      ModulusIsPow2(limbs - 1);
      LimbIsPow2();
      Pow2Add(64, 64 * (limbs - 1));
    }
  }

  lemma QuarterLimbIsPow2()
    ensures Pow2(16) == 0x1_0000
  {
    Pow2Add(1, 1);
    Pow2Add(2, 2);
    Pow2Add(4, 4);
    Pow2Add(8, 8);
  }

  lemma LimbIsPow2()
    ensures Pow2(64) == 0x1_0000_0000_0000_0000
  {
    QuarterLimbIsPow2();
    Pow2Add(16, 16);
    Pow2Add(32, 32);
  }
}
