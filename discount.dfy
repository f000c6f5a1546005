/**
 * `calculateDiscountPercentage` of entities/food-package/components/food-package-card.tsx
 * (partner-screen.tsx has the same function): `Math.round(((o - d) / o) * 100)`
 * for integer prices, computed over exact rationals, with the badge rule
 * "shown when the percentage is above 0".
 */
module Discount {

  /** The JavaScript number the formula yields: an integer, an infinity (original price 0) or NaN (both 0). */
  datatype Percentage = Percent(value: int) | PlusInfinity | MinusInfinity | NotANumber

  /**
   * `Math.round(x)` is the largest integer not above `x + 1/2`. With
   * `x = 100 * (o - d) / o` that is `(200 * (o - d) + o) / (2 * o)` rounded
   * down, which for `o > 0` is integer division; for `o < 0` both sides are
   * negated first so that the divisor is positive.
   */
  function DiscountPercentage(original: int, discounted: int): (r: Percentage)
    ensures original != 0 <==> r.Percent?
    ensures original > 0 ==>
      2 * original * r.value <= 200 * (original - discounted) + original < 2 * original * r.value + 2 * original
    ensures original < 0 ==>
      2 * original * r.value >= 200 * (original - discounted) + original > 2 * original * r.value + 2 * original
    ensures original == 0 ==>
      r == (if discounted == 0 then NotANumber else if discounted < 0 then PlusInfinity else MinusInfinity)
  {
    var n := 200 * (original - discounted) + original;
    if original > 0 then Percent(n / (2 * original))
    else if original < 0 then Percent((-n) / (-2 * original))
    else if discounted == 0 then NotANumber
    else if discounted < 0 then PlusInfinity
    else MinusInfinity
  }

  /** `discountPercentage > 0`: the badge is drawn. */
  predicate ShowsBadge(p: Percentage) {
    (p.Percent? && p.value > 0) || p.PlusInfinity?
  }

  /** Multiplying by a positive factor keeps strict order, both ways. */
  lemma ScaleLess(k: int, a: int, b: int)
    requires k > 0
    ensures k * a < k * b <==> a < b
  {
    if a < b {
      assert k * b - k * a == k * (b - a);
    } else {
      assert k * a - k * b == k * (a - b);
    }
  }

  /** Equal prices give 0 and no badge. */
  lemma EqualPricesNoDiscount(price: int)
    requires price != 0
    ensures DiscountPercentage(price, price) == Percent(0)
    ensures !ShowsBadge(DiscountPercentage(price, price))
  {
    var r := DiscountPercentage(price, price);
    if price > 0 {
      assert 2 * price * r.value <= price < 2 * price * (r.value + 1);
    } else {
      assert 2 * price * r.value >= price > 2 * price * (r.value + 1);
    }
  }

  /** A free package is 100% off. */
  lemma FreeIsHundred(original: int)
    requires original > 0
    ensures DiscountPercentage(original, 0) == Percent(100)
  {
    var v := DiscountPercentage(original, 0).value;
    assert original * (2 * v) <= original * 201 < original * (2 * v + 2);
    ScaleLess(original, 201, 2 * v + 2);
    ScaleLess(original, 201, 2 * v);
  }

  /** A non-negative discounted price never gives more than 100%. */
  lemma AtMostHundred(original: int, discounted: int)
    requires original > 0 && discounted >= 0
    ensures DiscountPercentage(original, discounted).value <= 100
  {
    var v := DiscountPercentage(original, discounted).value;
    assert original * (2 * v) < original * 202;
    ScaleLess(original, 2 * v, 202);
  }

  /** A discounted price above the original gives 0 or less, so no badge. */
  lemma PricierNoBadge(original: int, discounted: int)
    requires 0 < original < discounted
    ensures DiscountPercentage(original, discounted).value <= 0
    ensures !ShowsBadge(DiscountPercentage(original, discounted))
  {
    var v := DiscountPercentage(original, discounted).value;
    assert original * (2 * v) < original * 1;
    ScaleLess(original, 2 * v, 1);
  }

  /** For a fixed original price, a lower discounted price never gives a smaller percentage. */
  lemma LowerPriceBiggerDiscount(original: int, d1: int, d2: int)
    requires original > 0 && d1 <= d2
    ensures DiscountPercentage(original, d1).value >= DiscountPercentage(original, d2).value
  {
    var r1 := DiscountPercentage(original, d1).value;
    var r2 := DiscountPercentage(original, d2).value;
    assert original * (2 * r2) < original * (2 * r1 + 2);
    ScaleLess(original, 2 * r2, 2 * r1 + 2);
  }

  /** 10 down to 7 is 30% off, and the badge shows. */
  lemma TenToSeven()
    ensures DiscountPercentage(10, 7) == Percent(30)
    ensures ShowsBadge(DiscountPercentage(10, 7))
  {
  }

  /** Badge shown iff the percentage is positive; for a positive original price, iff the discounted price is lower by at least half a percent. */
  lemma BadgeIffCheaper(original: int, discounted: int)
    requires original > 0
    ensures ShowsBadge(DiscountPercentage(original, discounted)) <==> 200 * (original - discounted) >= original
  {
    var v := DiscountPercentage(original, discounted).value;
    ScaleLess(original, 2 * v, 2);
    ScaleLess(original, 0, 2 * v + 2);
  }
}
