/**
 * The partner DTO (entities/partner/transformers/dto/types.ts) and the record
 * `fromPartnerDto` builds from it. The transformer parses the two working-time
 * strings with a date library; `parse` stands for that library here and gives
 * None where the library reports an invalid date.
 */
module Partners {
  import opened Wrappers
  import opened DateCodecs

  datatype Coords = Coords(longitude: real, latitude: real)

  datatype Description = Description(title: string, text: string)

  datatype PartnerDto = PartnerDto(
    id: string,
    name: string,
    workStartAt: string,
    workEndAt: string,
    rating: real,
    logoUrl: Option<string>,
    backgroundUrl: Option<string>,
    isFavorite: Option<bool>,
    address: string,
    coords: Coords,
    distance: Option<real>,
    price: int,
    description: Description)

  /** The object `fromPartnerDto` returns: no address, coordinates or description; working times may be null. */
  datatype Partner = Partner(
    id: string,
    name: string,
    workStartAt: Option<int>,
    workEndAt: Option<int>,
    rating: real,
    logoUrl: Option<string>,
    backgroundUrl: Option<string>,
    isFavorite: Option<bool>,
    distance: Option<real>,
    price: int)

  /** `fromPartnerDto`: total; each working time is its parse when valid and null otherwise. */
  function FromPartnerDto(dto: PartnerDto, parse: string -> Option<int>): (p: Partner)
    ensures p.id == dto.id && p.name == dto.name && p.rating == dto.rating
    ensures p.logoUrl == dto.logoUrl && p.backgroundUrl == dto.backgroundUrl
    ensures p.isFavorite == dto.isFavorite && p.distance == dto.distance && p.price == dto.price
    ensures p.workStartAt.Some? <==> parse(dto.workStartAt).Some?
    ensures p.workStartAt.Some? ==> p.workStartAt == parse(dto.workStartAt)
    ensures p.workEndAt.Some? <==> parse(dto.workEndAt).Some?
    ensures p.workEndAt.Some? ==> p.workEndAt == parse(dto.workEndAt)
  {
    var workStartAt := parse(dto.workStartAt);
    var workEndAt := parse(dto.workEndAt);
    Partner(
      dto.id,
      dto.name,
      if workStartAt.Some? then workStartAt else None,
      if workEndAt.Some? then workEndAt else None,
      dto.rating,
      dto.logoUrl,
      dto.backgroundUrl,
      dto.isFavorite,
      dto.distance,
      dto.price)
  }

  /** A row that carries a partner's fields, with the dropped fields supplied separately. */
  function ToPartnerDto(p: Partner, format: int -> string, address: string, coords: Coords, description: Description): PartnerDto {
    PartnerDto(
      p.id, p.name,
      if p.workStartAt.Some? then format(p.workStartAt.value) else InvalidDateText,
      if p.workEndAt.Some? then format(p.workEndAt.value) else InvalidDateText,
      p.rating, p.logoUrl, p.backgroundUrl, p.isFavorite,
      address, coords, p.distance, p.price, description)
  }

  /** Every partner record is recovered from a row that carries it, whatever the dropped fields hold. */
  lemma PartnerRoundTrip(
    p: Partner, parse: string -> Option<int>, format: int -> string,
    address: string, coords: Coords, description: Description)
    requires ReadsBack(parse, format)
    ensures FromPartnerDto(ToPartnerDto(p, format, address, coords, description), parse) == p
  {
    match p.workStartAt {
      case Some(ms) => assert parse(format(ms)) == Some(ms);
      case None =>
    }
    match p.workEndAt {
      case Some(ms) => assert parse(format(ms)) == Some(ms);
      case None =>
    }
  }

  /** Address, coordinates and description never reach the result. */
  lemma DroppedFieldsIgnored(dto: PartnerDto, address: string, coords: Coords, description: Description, parse: string -> Option<int>)
    ensures FromPartnerDto(dto, parse) == FromPartnerDto(dto.(address := address, coords := coords, description := description), parse)
  {
  }

  /** Each working time depends on its own string only: a bad start never nulls the end. */
  lemma WorkTimesIndependent(dto: PartnerDto, otherStart: string, parse: string -> Option<int>)
    ensures FromPartnerDto(dto.(workStartAt := otherStart), parse).workEndAt == FromPartnerDto(dto, parse).workEndAt
  {
  }
}
