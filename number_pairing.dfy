/**
 * A candidate split of a fixed sum into two numbers (`NumberPairing` in
 * src/defs/number_pairing.rs). Only the first number is stored; the second is
 * always derived from the sum. Every `f64` of the source is an exact `real` here.
 */
module Pairing {

  /** `default_sum`: the default problem looks for two numbers adding up to 8. */
  const DefaultSum: real := 8.0

  /** `minimum_precision`: scores closer than this are considered the same. */
  const MinimumPrecision: real := 0.0000000001

  function Abs(x: real): (r: real)
    ensures r >= 0.0 && (r == x || r == -x)
  {
    if x < 0.0 then -x else x
  }

  /**
   * `validate_and_correct_input`: a negative request is reflected to its
   * absolute value, and the result is capped at `sum`; i.e. min(|requested|, sum).
   */
  function ValidateAndCorrectInput(requested: real, sum: real): (r: real)
    ensures r <= sum && r <= Abs(requested)
    ensures r == Abs(requested) || r == sum
    ensures sum >= 0.0 ==> 0.0 <= r
  {
    var nonNegative := Abs(requested);
    if nonNegative > sum then sum else nonNegative
  }

  /** The three answers of `Ord::cmp`. */
  datatype Ordering = Less | Equal | Greater {
    function Reverse(): Ordering {
      match this
      case Less => Greater
      case Equal => Equal
      case Greater => Less
    }
  }

  datatype NumberPairing = NumberPairing(oneNumber: real, sum: real) {

    /** The stored number lies in [0, sum]; every constructor and setter keeps this when sum >= 0. */
    predicate Valid() {
      0.0 <= oneNumber <= sum
    }

    function First(): real {
      oneNumber
    }

    /** The second number is derived, never stored: the two always add up to `sum`. */
    function Second(): (r: real)
      ensures First() + r == sum
    {
      sum - oneNumber
    }

    function Product(): real {
      oneNumber * Second()
    }

    function Difference(): (r: real)
      ensures r >= 0.0
      ensures r == First() - Second() || r == Second() - First()
    {
      Abs(oneNumber - Second())
    }

    /** `result`: the score the search maximises, |first - second| * first * second. */
    function Result(): real {
      Product() * Difference()
    }

    /** `set_first` on a copy: the first number becomes the corrected request. */
    function WithFirst(requested: real): (r: NumberPairing)
      ensures r.sum == sum
      ensures r.First() == ValidateAndCorrectInput(requested, sum)
      ensures sum >= 0.0 ==> r.Valid()
    {
      NumberPairing(ValidateAndCorrectInput(requested, sum), sum)
    }

    /** `set_second` on a copy: the second number becomes the corrected request. */
    function WithSecond(requested: real): (r: NumberPairing)
      ensures r.sum == sum
      ensures r.Second() == ValidateAndCorrectInput(requested, sum)
      ensures sum >= 0.0 ==> r.Valid()
    {
      NumberPairing(sum - ValidateAndCorrectInput(requested, sum), sum)
    }

    /** `difference_from`: how far apart two scores are. */
    function DifferenceFrom(other: NumberPairing): (r: real)
      ensures r >= 0.0
      ensures r == Result() - other.Result() || r == other.Result() - Result()
      ensures r == 0.0 <==> Result() == other.Result()
    {
      Abs(Result() - other.Result())
    }

    /** `is_equivalent_to`: the scores differ by less than `MinimumPrecision`. */
    predicate IsEquivalentTo(other: NumberPairing) {
      DifferenceFrom(other) < MinimumPrecision
    }

    /**
     * `PartialEq::eq`: same sum, and the stored numbers agree either directly
     * or with the two numbers of the other pairing swapped.
     */
    predicate Equals(other: NumberPairing) {
      var sumsAreEqual := sum == other.sum;
      var storedAreEqual := First() == other.First();
      var storedIsEqualToInverse := First() == other.Second();
      (sumsAreEqual && storedAreEqual) || (sumsAreEqual && storedIsEqualToInverse)
    }

    /** `Ord::cmp`: pairings are ordered by score alone. */
    function Cmp(other: NumberPairing): (r: Ordering)
      ensures r == Greater <==> Result() > other.Result()
      ensures r == Less <==> Result() < other.Result()
      ensures r == Equal <==> Result() == other.Result()
    {
      var lResult := Result();
      var rResult := other.Result();
      if lResult > rResult then Greater
      else if lResult < rResult then Less
      else Equal
    }
  }

  /** `NumberPairing::new`: the request is corrected into [0, sum] before it is stored. */
  function New(requested: real, sum: real): (p: NumberPairing)
    ensures p.sum == sum
    ensures p.First() == ValidateAndCorrectInput(requested, sum)
    ensures sum >= 0.0 ==> p.Valid()
  {
    NumberPairing(ValidateAndCorrectInput(requested, sum), sum)
  }

  /** `NumberPairing::default`: a pairing of the default problem, whose sum is 8. */
  function Default(requested: real): (p: NumberPairing)
    ensures p.sum == DefaultSum && p.Valid()
    ensures p.First() == ValidateAndCorrectInput(requested, DefaultSum)
    ensures 0.0 <= requested <= DefaultSum ==> p.First() == requested
    ensures requested < 0.0 && -requested <= DefaultSum ==> p.First() == -requested
    ensures Abs(requested) > DefaultSum ==> p.First() == DefaultSum
  {
    New(requested, DefaultSum)
  }

  /**
   * Correcting an already corrected number changes nothing, for every sum (a
   * negative sum corrects everything to itself).
   */
  lemma ValidateAndCorrectIdempotent(requested: real, sum: real)
    ensures ValidateAndCorrectInput(ValidateAndCorrectInput(requested, sum), sum)
            == ValidateAndCorrectInput(requested, sum)
    ensures New(New(requested, sum).First(), sum) == New(requested, sum)
  {
  }

  /** The first number of a valid pairing is kept as it is by `new`. */
  lemma NewKeepsValidFirst(p: NumberPairing)
    requires p.Valid()
    ensures New(p.First(), p.sum) == p
  {
  }

  /** A valid pairing has a non-negative product, difference and score. */
  lemma ValidScoreNonNegative(p: NumberPairing)
    requires p.Valid()
    ensures p.Product() >= 0.0 && p.Difference() >= 0.0 && p.Result() >= 0.0
  {
    assert p.First() >= 0.0 && p.Second() >= 0.0;
    MulNonNegative(p.First(), p.Second());
    MulNonNegative(p.Product(), p.Difference());
  }

  lemma MulNonNegative(x: real, y: real)
    requires x >= 0.0 && y >= 0.0
    ensures x * y >= 0.0
  {
  }

  /** The pairing built from 0 scores 0, whatever the sum. */
  lemma ZeroPairingScoresZero(sum: real)
    ensures New(0.0, sum).Result() == 0.0
  {
    var p := New(0.0, sum);
    assert p.First() == 0.0 || p.Second() == 0.0;
    MulZero(p.First(), p.Second());
    MulZero(p.Product(), p.Difference());
  }

  lemma MulZero(x: real, y: real)
    requires x == 0.0 || y == 0.0
    ensures x * y == 0.0
  {
  }

  /** Swapping the two numbers of a split gives an equal pairing. */
  lemma SwapSymmetric(a: real, b: real)
    requires a >= 0.0 && b >= 0.0
    ensures New(a, a + b).Equals(New(b, a + b))
    ensures New(b, a + b).Second() == a && New(a, a + b).Second() == b
  {
  }

  lemma EqualsReflexive(p: NumberPairing)
    ensures p.Equals(p)
  {
  }

  lemma EqualsSymmetric(p: NumberPairing, q: NumberPairing)
    ensures p.Equals(q) <==> q.Equals(p)
  {
  }

  lemma EqualsTransitive(p: NumberPairing, q: NumberPairing, r: NumberPairing)
    requires p.Equals(q) && q.Equals(r)
    ensures p.Equals(r)
  {
  }

  /**
   * Equal pairings are the same split up to order, so they have the same score:
   * `eq` implies `cmp == Equal` and `is_equivalent_to`.
   */
  lemma EqualsSameResult(p: NumberPairing, q: NumberPairing)
    requires p.Equals(q)
    ensures p.Result() == q.Result()
    ensures p.Cmp(q) == Equal && p.IsEquivalentTo(q)
    ensures p.Valid() <==> q.Valid()
  {
    if p.First() != q.First() {
      assert p.First() == q.Second() && p.Second() == q.First();
      assert p.Product() == q.Product() by {
        assert p.First() * p.Second() == q.Second() * q.First();
      }
      assert p.Difference() == q.Difference();
    }
  }

  /** `cmp` is antisymmetric: swapping the operands reverses the answer. */
  lemma CmpAntisymmetric(p: NumberPairing, q: NumberPairing)
    ensures p.Cmp(q) == q.Cmp(p).Reverse()
  {
  }

  /** "not greater" is transitive, so `cmp` is a total preorder on pairings. */
  lemma CmpTransitive(p: NumberPairing, q: NumberPairing, r: NumberPairing)
    requires p.Cmp(q) != Greater && q.Cmp(r) != Greater
    ensures p.Cmp(r) != Greater
  {
  }

  lemma EquivalentReflexiveSymmetric(p: NumberPairing, q: NumberPairing)
    ensures p.IsEquivalentTo(p)
    ensures p.IsEquivalentTo(q) <==> q.IsEquivalentTo(p)
  {
  }

  /**
   * Equivalence is weaker than equality: for any positive sum, the pairing
   * built from 0 and the even split both score 0, so they are equivalent
   * without being equal.
   */
  lemma EquivalentNotEquals(sum: real)
    requires sum > 0.0
    ensures New(0.0, sum).IsEquivalentTo(New(sum / 2.0, sum))
    ensures !New(0.0, sum).Equals(New(sum / 2.0, sum))
  {
    var zero := New(0.0, sum);
    var half := New(sum / 2.0, sum);
    assert zero == NumberPairing(0.0, sum);
    assert half == NumberPairing(sum / 2.0, sum);
    assert half.Difference() == 0.0;
    MulZero(half.Product(), half.Difference());
    ZeroPairingScoresZero(sum);
    assert zero.DifferenceFrom(half) == 0.0;
  }

  /**
   * A pairing whose fields are updated in place by `set_first` and
   * `set_second`; `Value` is the copy the rest of the model works on.
   */
  class MutablePairing {
    var oneNumber: real
    var sum: real

    function Value(): NumberPairing
      reads this
    {
      NumberPairing(oneNumber, sum)
    }

    constructor (requested: real, sum: real)
      ensures Value() == New(requested, sum)
    {
      this.oneNumber := ValidateAndCorrectInput(requested, sum);
      this.sum := sum;
    }

    method SetFirst(requested: real)
      modifies this
      ensures sum == old(sum)
      ensures Value() == old(Value()).WithFirst(requested)
      ensures Value().First() == ValidateAndCorrectInput(requested, sum)
    {
      oneNumber := ValidateAndCorrectInput(requested, sum);
    }

    method SetSecond(requested: real)
      modifies this
      ensures sum == old(sum)
      ensures Value() == old(Value()).WithSecond(requested)
      ensures Value().Second() == ValidateAndCorrectInput(requested, sum)
    {
      oneNumber := sum - ValidateAndCorrectInput(requested, sum);
    }
  }
}
