/**
 * The derived values of `PartnerCard` (entities/partner/components/partner-card/index.tsx):
 * whether the partner is open now, how many mystery boxes are left, and the
 * labels drawn from those two facts. Hours are what `Date.getHours()` returns
 * in the device's time zone; an Invalid Date yields NaN.
 */
module PartnerCard {
  import opened Decimal

  datatype Availability = Available | Low | SoldOut

  /** `availabilityStatus`: sold out at 0 or fewer boxes, low up to 3, available above. */
  function AvailabilityStatus(boxCount: int): (s: Availability)
    ensures s == SoldOut <==> boxCount <= 0
    ensures s == Low <==> 0 < boxCount <= 3
    ensures s == Available <==> boxCount > 3
  {
    if boxCount <= 0 then SoldOut
    else if boxCount <= 3 then Low
    else Available
  }

  /** `isOpen`: from the start hour (inclusive) to the end hour (exclusive); NaN hours are never open. */
  predicate IsOpen(currentHour: int, startHour: JsNumber, endHour: JsNumber) {
    startHour.Num? && endHour.Num? && startHour.value <= currentHour < endHour.value
  }

  /** Text in the box-count badge: "Нет" when sold out, otherwise the count. */
  function BadgeText(boxCount: int): string {
    if AvailabilityStatus(boxCount) == SoldOut then "Нет" else IntToString(boxCount)
  }

  /** Caption beside the cube icon. */
  function Caption(s: Availability): string {
    if s == Available then "Доступно" else "Нет боксов"
  }

  /** Open/closed label of the schedule row. */
  function StatusLabel(isOpen: bool): string {
    if isOpen then "Открыто" else "Закрыто"
  }

  /** Statuses ordered from worst to best. */
  function Rank(s: Availability): nat {
    match s
    case SoldOut => 0
    case Low => 1
    case Available => 2
  }

  /** More boxes never give a worse status, and the low band spans at most three counts. */
  lemma MoreBoxesNeverWorse(a: int, b: int)
    requires a <= b
    ensures Rank(AvailabilityStatus(a)) <= Rank(AvailabilityStatus(b))
    ensures AvailabilityStatus(a) == Low && AvailabilityStatus(b) == Low ==> b - a <= 2
  {
  }

  /** A working time that is an Invalid Date gives a NaN hour, and the partner is then never open. */
  lemma NaNHourNeverOpen(currentHour: int, startHour: JsNumber, endHour: JsNumber)
    requires startHour.NaN? || endHour.NaN?
    ensures !IsOpen(currentHour, startHour, endHour)
  {
  }

  /** A partner whose end hour is not after its start hour is never open. */
  lemma NeverOpenWhenEndNotAfterStart(currentHour: int, startHour: JsNumber, endHour: JsNumber)
    requires startHour.Num? && endHour.Num? && endHour.value <= startHour.value
    ensures !IsOpen(currentHour, startHour, endHour)
  {
  }

  /** The badge reads "Нет" exactly when sold out, and otherwise reads back as the box count. */
  lemma BadgeShowsCount(boxCount: int)
    ensures BadgeText(boxCount) == "Нет" <==> boxCount <= 0
    ensures boxCount > 0 ==> ParseNumber(BadgeText(boxCount)) == Num(boxCount)
  {
    IntRoundTrip(boxCount);
    if boxCount > 0 {
      assert IsDigit(BadgeText(boxCount)[0]);
    }
  }

  /** "Доступно" only above 3 boxes; low stock and sold out both read "Нет боксов". */
  lemma CaptionIffAvailable(boxCount: int)
    ensures Caption(AvailabilityStatus(boxCount)) == "Доступно" <==> boxCount > 3
    ensures boxCount <= 3 ==> Caption(AvailabilityStatus(boxCount)) == "Нет боксов"
  {
  }

  /** The label says "Открыто" exactly when the partner is open. */
  lemma LabelIffOpen(currentHour: int, startHour: JsNumber, endHour: JsNumber)
    ensures StatusLabel(IsOpen(currentHour, startHour, endHour)) == "Открыто" <==> IsOpen(currentHour, startHour, endHour)
  {
  }
}
