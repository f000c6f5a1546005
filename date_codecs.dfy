/**
 * Date text shared by both transformers: the text an Invalid Date prints as,
 * and what it means for a formatter and the date parser to agree.
 */
module DateCodecs {
  import opened Wrappers

  /** `String(date)` of an Invalid Date; the date parser rejects it. */
  const InvalidDateText := "Invalid Date"

  /** The parser rejects the invalid-date text and reads every formatted time back as itself. */
  ghost predicate ReadsBack(parse: string -> Option<int>, format: int -> string) {
    && parse(InvalidDateText) == None
    && forall ms :: parse(format(ms)) == Some(ms)
  }
}
