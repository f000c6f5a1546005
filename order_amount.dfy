/**
 * `OrderAmountInput` (entities/partner/components/order-amount-input/index.tsx):
 * choose how many boxes to buy with an `OrderCounter` bounded by 1 and the
 * partner's available boxes, show the total, and build the checkout route.
 */
module OrderAmount {
  import opened Wrappers
  import opened Decimal
  import opened OrderCounter

  datatype BoxOption = BoxOption(id: string, name: string, price: int, description: string, popular: Option<bool>)

  /** The partner fields the component reads. */
  datatype Offer = Offer(partnerId: string, price: int, totalBoxCount: int)

  /** `router.push` arguments of `proceed`. */
  datatype CheckoutRoute = CheckoutRoute(
    pathname: string,
    boxType: string,
    boxName: string,
    boxPrice: string,
    boxQuantity: string,
    boxDescription: string)

  /** `selectedOption?.price || partner.price`: the option's price unless there is none or it is 0. */
  function UnitPrice(selected: Option<BoxOption>, offer: Offer): (price: int)
    ensures selected.Some? && selected.value.price != 0 ==> price == selected.value.price
    ensures selected.None? || selected.value.price == 0 ==> price == offer.price
  {
    if selected.Some? && selected.value.price != 0 then selected.value.price else offer.price
  }

  /** `s || fallback` for a string that may be missing. */
  function TextOr(s: Option<string>, fallback: string): (r: string)
    ensures s.Some? && s.value != "" ==> r == s.value
    ensures s.None? || s.value == "" ==> r == fallback
  {
    if s.Some? && s.value != "" then s.value else fallback
  }

  /** The pay button is disabled when no box is available. */
  predicate PayDisabled(offer: Offer) {
    offer.totalBoxCount <= 0
  }

  function CheckoutPath(partnerId: string): string {
    "/partners/" + partnerId + "/checkout"
  }

  /** `proceed`: the option's id, name and description, each replaced by its default when missing or empty; price and amount as decimal text. */
  function Proceed(offer: Offer, selected: Option<BoxOption>, boxAmount: int): (r: CheckoutRoute)
    ensures r.pathname == CheckoutPath(offer.partnerId)
    ensures selected.None? ==> r.boxType == "standard" && r.boxName == "Стандартный" && r.boxDescription == ""
    ensures selected.Some? ==>
      r.boxType == (if selected.value.id != "" then selected.value.id else "standard") &&
      r.boxName == (if selected.value.name != "" then selected.value.name else "Стандартный") &&
      r.boxDescription == selected.value.description
    ensures ParseNumber(r.boxPrice) == Num(UnitPrice(selected, offer))
    ensures ParseNumber(r.boxQuantity) == Num(boxAmount)
  {
    IntRoundTrip(UnitPrice(selected, offer));
    IntRoundTrip(boxAmount);
    CheckoutRoute(
      CheckoutPath(offer.partnerId),
      TextOr(if selected.Some? then Some(selected.value.id) else None, "standard"),
      TextOr(if selected.Some? then Some(selected.value.name) else None, "Стандартный"),
      IntToString(UnitPrice(selected, offer)),
      IntToString(boxAmount),
      TextOr(if selected.Some? then Some(selected.value.description) else None, ""))
  }

  /** The partner id sits between the fixed prefix and suffix of the path. */
  lemma CheckoutPathCarriesId(partnerId: string)
    ensures var p := CheckoutPath(partnerId);
      |p| == |partnerId| + 19 && p[10..|p| - 9] == partnerId
  {
  }

  /** With no boxes available the counter has no upper bound: `max` is 0 (falsy) or below the count. */
  lemma NoStockNoBound(offer: Offer, n: nat)
    requires offer.totalBoxCount <= 0
    ensures Run(1, seq(n, _ => Plus), 1, Some(offer.totalBoxCount)) == 1 + n
  {
    UnboundedAbove(1, n, 1, Some(offer.totalBoxCount));
  }

  class OrderAmountInput {
    const offer: Offer
    const selected: Option<BoxOption>
    var boxAmount: int
    const counter: Counter

    /** The amount mirrors the counter, which runs from 1 up to the available boxes. */
    predicate Valid()
      reads this, counter
    {
      && counter.Valid()
      && counter.min == 1 && counter.max == Some(offer.totalBoxCount)
      && boxAmount == counter.count
    }

    /** Mounting: the amount starts at 1 and the counter's first report sets it to 1 again. */
    constructor (offer: Offer, selected: Option<BoxOption>)
      ensures Valid() && fresh(counter)
      ensures this.offer == offer && this.selected == selected
      ensures boxAmount == 1
    {
      this.offer := offer;
      this.selected := selected;
      boxAmount := 1;
      var c := new Counter(Some(1), Some(offer.totalBoxCount));
      counter := c;
      boxAmount := c.reported[|c.reported| - 1];
    }

    /** The plus button: the counter steps up and reports, and the amount follows. */
    method PressPlus()
      requires Valid()
      modifies this`boxAmount, counter`count, counter`reported
      ensures Valid()
      ensures boxAmount == Incremented(old(boxAmount), Some(offer.totalBoxCount))
    {
      counter.Increment();
      boxAmount := counter.reported[|counter.reported| - 1];
    }

    /** The minus button: the counter steps down unless at 1, and the amount follows. */
    method PressMinus()
      requires Valid()
      modifies this`boxAmount, counter`count, counter`reported
      ensures Valid()
      ensures boxAmount == Decremented(old(boxAmount), 1)
    {
      counter.Decrement();
      boxAmount := counter.reported[|counter.reported| - 1];
    }

    /** The total on the pay button. */
    function DisplayedTotal(): int
      reads this
    {
      boxAmount * UnitPrice(selected, offer)
    }

    /** The amount is at least 1, and whenever the pay button is enabled it is at most the available boxes, so the total is at most their price. */
    lemma AmountInRange()
      requires Valid()
      ensures 1 <= boxAmount
      ensures !PayDisabled(offer) ==> boxAmount <= offer.totalBoxCount
      ensures UnitPrice(selected, offer) >= 0 ==> DisplayedTotal() >= UnitPrice(selected, offer)
      ensures !PayDisabled(offer) && UnitPrice(selected, offer) >= 0 ==>
        DisplayedTotal() <= offer.totalBoxCount * UnitPrice(selected, offer)
    {
      var price := UnitPrice(selected, offer);
      if price >= 0 {
        assert (boxAmount - 1) * price >= 0;
        if !PayDisabled(offer) {
          assert (offer.totalBoxCount - boxAmount) * price >= 0;
        }
      }
    }
  }
}
