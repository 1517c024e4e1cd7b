/** The bit-by-bit square root of knight/src/utils/utils.h, on registers of any even width. */
module IntegerSqrt {
  import opened Common

  /** Reference definition: the largest r whose square does not exceed v. */
  function FloorSqrt(v: nat): (r: nat)
    ensures r * r <= v < (r + 1) * (r + 1)
  {
    if v == 0 then 0
    else
      var r := FloorSqrt(v - 1);
      if (r + 1) * (r + 1) <= v then r + 1 else r
  }

  lemma SquareOrder(a: nat, b: nat)
    ensures a * a < (b + 1) * (b + 1) ==> a <= b
  {
    if b + 1 <= a {
      assert (b + 1) * (b + 1) <= a * (b + 1) <= a * a;
    }
  }

  lemma FloorSqrtUnique(v: nat, r: nat)
    requires r * r <= v < (r + 1) * (r + 1)
    ensures r == FloorSqrt(v)
  {
    SquareOrder(r, FloorSqrt(v));
    SquareOrder(FloorSqrt(v), r);
  }

  /** The loop state once the bits above `h` are decided: `r` is the partial root,
      `result` holds r scaled by 2h, `rest` what is left of the radicand. */
  ghost predicate Partial(width: nat, v: nat, p: nat, r: nat, result: nat, rest: nat)
  {
    && result == r * p
    && r * r <= v
    && rest == v - r * r
    && v < (r + p) * (r + p)
    && r + p <= Pow2(width / 2)
  }

  /** One round: the comparison made on registers decides whether r + h still fits,
      and no addition of the round leaves the register. */
  lemma Round(width: nat, v: nat, h: nat, r: nat, result: nat, rest: nat)
    requires width % 2 == 0 && h > 0
    requires Partial(width, v, 2 * h, r, result, rest)
    ensures result + h * h < Pow2(width)
    ensures result / 2 == r * h
    ensures rest >= result + h * h ==>
              && Partial(width, v, h, r + h, result / 2 + h * h, rest - (result + h * h))
              && result / 2 + h * h < Pow2(width)
    ensures rest < result + h * h ==> Partial(width, v, h, r, result / 2, rest)
  {
    var half := Pow2(width / 2);
    Pow2Add(width / 2, width / 2);
    RoundIdentity(r, h);
    LessSquared(r + h, half);
  }

  lemma RoundIdentity(r: nat, h: nat)
    ensures r * (2 * h) == 2 * (r * h)
    ensures (r + h) * (r + h) == r * r + (2 * (r * h) + h * h)
    ensures (r + h) * h == r * h + h * h
    ensures r + 2 * h == (r + h) + h
  {
  }

  lemma LessSquared(a: nat, b: nat)
    requires a < b
    ensures a * a < b * b
  {
    assert a * a <= a * b < b * b;
  }

  /** `bit` is the square of half of p = 2^k, or zero once the last bit is decided. */
  ghost predicate IsBitAt(width: nat, bit: nat, p: nat, k: nat)
  {
    && k <= width / 2
    && p == Pow2(k)
    && bit == if k == 0 then 0 else Pow2(k - 1) * Pow2(k - 1)
  }

  lemma BitIsPositive(width: nat, bit: nat, k: nat)
    requires IsBitAt(width, bit, Pow2(k), k)
    ensures bit == 0 <==> k == 0
  {
    if k > 0 {
      MulLess(0, Pow2(k - 1), Pow2(k - 1));
    }
  }

  lemma ShiftBit(width: nat, bit: nat, k: nat)
    requires k > 0 && IsBitAt(width, bit, Pow2(k), k)
    ensures IsBitAt(width, bit / 4, Pow2(k - 1), k - 1)
  {
    if k > 1 {
      assert Pow2(k - 1) * Pow2(k - 1) == 4 * (Pow2(k - 2) * Pow2(k - 2));
    }
  }

  /** knight/src/utils/utils.h, integer_sqrt: every operator is the wrapping one of a
      register of `width` bits; the result is the exact floor square root. */
  method IntegerSqrt(width: nat, input: nat) returns (result: nat)
    requires width >= 2 && width % 2 == 0
    requires input < Pow2(width)
    ensures result == FloorSqrt(input)
    ensures result < Pow2(width / 2)
  {
    var value: nat := input;
    result := 0;
    var bit: nat := Pow2(width - 2);
    ghost var k: nat := width / 2;
    Pow2Add(width / 2, width / 2);
    Pow2Add(width / 2 - 1, width / 2 - 1);

    while bit > value
      invariant k <= width / 2 && IsBitAt(width, bit, Pow2(k), k)
      invariant input < Pow2(k) * Pow2(k)
      decreases bit
    {
      assert k > 0;
      ShiftBit(width, bit, k);
      bit := bit / 4;
      k := k - 1;
    }

    ghost var r: nat := 0;
    Pow2Mono(k, width / 2);
    while bit != 0
      invariant IsBitAt(width, bit, Pow2(k), k)
      invariant Partial(width, input, Pow2(k), r, result, value)
      decreases k
    {
      ghost var h := Pow2(k - 1);
      Round(width, input, h, r, result, value);
      ShiftBit(width, bit, k);
      if value >= Wrap(Pow2(width), result + bit) {
        value := value - Wrap(Pow2(width), result + bit);
        result := Wrap(Pow2(width), result / 2 + bit);
        r := r + h;
      } else {
        result := result / 2;
      }
      bit := bit / 4;
      k := k - 1;
    }
    assert k == 0 by {
      BitIsPositive(width, bit, k);
    }
    FloorSqrtUnique(input, result);
  }

  /** The instance used by the calculator: a register of `limbs` 64-bit limbs. */
  method IntegerSqrtOfLimbs(limbs: nat, input: nat) returns (result: nat)
    requires limbs > 0 && input < Modulus(limbs)
    ensures result == FloorSqrt(input)
  {
    ModulusIsPow2(limbs);
    result := IntegerSqrt(64 * limbs, input);
  }
}
