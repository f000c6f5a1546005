/**
 * The food-package record (entities/food-package/types.ts) and its DTO
 * transformer `fromFoodPackageDto`. Field names follow the backend's columns,
 * in Dafny's lowerCamelCase. Dates are epoch milliseconds; how a date string
 * is parsed is left to the `parse` oracle passed in.
 */
module FoodPackages {
  import opened Wrappers
  import opened DateCodecs

  /** A JavaScript `Date`: a point in time, or the Invalid Date that `new Date(s)` gives for text it cannot read. */
  datatype JsDate = Date(ms: int) | InvalidDate

  /** `new Date(s)`, given the oracle that reads date text. */
  function NewDate(parse: string -> Option<int>, s: string): (d: JsDate)
    ensures d.Date? <==> parse(s).Some?
    ensures d.Date? ==> Some(d.ms) == parse(s)
  {
    match parse(s)
    case Some(ms) => Date(ms)
    case None => InvalidDate
  }

  /** JavaScript truthiness of a nullable string field: null, undefined and "" are falsy. */
  predicate Falsy(s: Option<string>) {
    s.None? || s.value == ""
  }

  /** `dto.x ? new Date(dto.x) : null`. */
  function DateField(parse: string -> Option<int>, s: Option<string>): (r: Option<JsDate>)
    ensures r.None? <==> Falsy(s)
    ensures r.Some? ==> r.value == NewDate(parse, s.value)
  {
    if Falsy(s) then None else Some(NewDate(parse, s.value))
  }

  /** The row as the backend sends it; nullable columns are options. */
  datatype FoodPackageDto = FoodPackageDto(
    id: string,
    businessId: string,
    name: string,
    description: Option<string>,
    originalPrice: int,
    discountedPrice: int,
    quantity: int,
    availableQuantity: int,
    maxQuantity: int,
    imageUrl: Option<string>,
    foodType: Option<string>,
    pickupStartTime: Option<string>,
    pickupEndTime: Option<string>,
    status: Option<string>,
    availabilityStart: Option<string>,
    availabilityEnd: Option<string>,
    soldOut: Option<bool>,
    createdAt: Option<string>,
    updatedAt: Option<string>)

  /** `FoodPackage` of entities/food-package/types.ts. */
  datatype FoodPackage = FoodPackage(
    id: string,
    businessId: string,
    name: string,
    description: Option<string>,
    originalPrice: int,
    discountedPrice: int,
    quantity: int,
    availableQuantity: int,
    maxQuantity: int,
    imageUrl: Option<string>,
    foodType: Option<string>,
    pickupStartTime: Option<JsDate>,
    pickupEndTime: Option<JsDate>,
    status: Option<string>,
    availabilityStart: Option<JsDate>,
    availabilityEnd: Option<JsDate>,
    soldOut: bool,
    createdAt: Option<JsDate>,
    updatedAt: Option<JsDate>)

  /**
   * `fromFoodPackageDto`: total, with no failing branch. Identity, texts,
   * prices, quantities and status are copied; each date is null exactly when
   * the column is falsy; `sold_out` defaults to false.
   */
  function FromFoodPackageDto(dto: FoodPackageDto, parse: string -> Option<int>): (p: FoodPackage)
    ensures p.id == dto.id && p.businessId == dto.businessId && p.name == dto.name
    ensures p.description == dto.description && p.imageUrl == dto.imageUrl
    ensures p.foodType == dto.foodType && p.status == dto.status
    ensures p.originalPrice == dto.originalPrice && p.discountedPrice == dto.discountedPrice
    ensures p.quantity == dto.quantity && p.availableQuantity == dto.availableQuantity
    ensures p.maxQuantity == dto.maxQuantity
    ensures p.soldOut <==> dto.soldOut == Some(true)
    ensures p.pickupStartTime.None? <==> Falsy(dto.pickupStartTime)
    ensures p.pickupEndTime.None? <==> Falsy(dto.pickupEndTime)
    ensures p.availabilityStart.None? <==> Falsy(dto.availabilityStart)
    ensures p.availabilityEnd.None? <==> Falsy(dto.availabilityEnd)
    ensures p.createdAt.None? <==> Falsy(dto.createdAt)
    ensures p.updatedAt.None? <==> Falsy(dto.updatedAt)
    ensures p.pickupStartTime.Some? ==> p.pickupStartTime.value == NewDate(parse, dto.pickupStartTime.value)
    ensures p.pickupEndTime.Some? ==> p.pickupEndTime.value == NewDate(parse, dto.pickupEndTime.value)
    ensures p.createdAt.Some? ==> p.createdAt.value == NewDate(parse, dto.createdAt.value)
    ensures p.updatedAt.Some? ==> p.updatedAt.value == NewDate(parse, dto.updatedAt.value)
    ensures p.availabilityStart.Some? ==> p.availabilityStart.value == NewDate(parse, dto.availabilityStart.value)
    ensures p.availabilityEnd.Some? ==> p.availabilityEnd.value == NewDate(parse, dto.availabilityEnd.value)
  {
    FoodPackage(
      dto.id,
      dto.businessId,
      dto.name,
      dto.description,
      dto.originalPrice,
      dto.discountedPrice,
      dto.quantity,
      dto.availableQuantity,
      dto.maxQuantity,
      dto.imageUrl,
      dto.foodType,
      DateField(parse, dto.pickupStartTime),
      DateField(parse, dto.pickupEndTime),
      dto.status,
      DateField(parse, dto.availabilityStart),
      DateField(parse, dto.availabilityEnd),
      dto.soldOut.GetOr(false),
      DateField(parse, dto.createdAt),
      DateField(parse, dto.updatedAt))
  }

  /** A date column written back as text, for a `format` that `parse` reads back. */
  function DateText(format: int -> string, d: Option<JsDate>): Option<string> {
    match d
    case None => None
    case Some(Date(ms)) => Some(format(ms))
    case Some(InvalidDate) => Some(InvalidDateText)
  }

  /** The row a package would be sent back as: the reference the transformer inverts. */
  function ToFoodPackageDto(p: FoodPackage, format: int -> string): FoodPackageDto {
    FoodPackageDto(
      p.id, p.businessId, p.name, p.description,
      p.originalPrice, p.discountedPrice, p.quantity, p.availableQuantity, p.maxQuantity,
      p.imageUrl, p.foodType,
      DateText(format, p.pickupStartTime), DateText(format, p.pickupEndTime),
      p.status,
      DateText(format, p.availabilityStart), DateText(format, p.availabilityEnd),
      Some(p.soldOut),
      DateText(format, p.createdAt), DateText(format, p.updatedAt))
  }

  /**
   * A formatter and parser that agree, and whose text is never empty: the
   * transformer reads an empty column as null, so an empty formatted date
   * would not come back as a date.
   */
  ghost predicate DateCodec(parse: string -> Option<int>, format: int -> string) {
    && ReadsBack(parse, format)
    && forall ms :: format(ms) != ""
  }

  lemma DateTextRoundTrip(parse: string -> Option<int>, format: int -> string, d: Option<JsDate>)
    requires DateCodec(parse, format)
    ensures DateField(parse, DateText(format, d)) == d
  {
    match d
    case None =>
    case Some(Date(ms)) => assert format(ms) != "" && parse(format(ms)) == Some(ms);
    case Some(InvalidDate) =>
  }

  /** No field is lost or altered: every package is recovered from the row it would be sent as. */
  lemma FoodPackageRoundTrip(p: FoodPackage, parse: string -> Option<int>, format: int -> string)
    requires DateCodec(parse, format)
    ensures FromFoodPackageDto(ToFoodPackageDto(p, format), parse) == p
  {
    DateTextRoundTrip(parse, format, p.pickupStartTime);
    DateTextRoundTrip(parse, format, p.pickupEndTime);
    DateTextRoundTrip(parse, format, p.availabilityStart);
    DateTextRoundTrip(parse, format, p.availabilityEnd);
    DateTextRoundTrip(parse, format, p.createdAt);
    DateTextRoundTrip(parse, format, p.updatedAt);
  }
}
