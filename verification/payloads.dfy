/** The data the steps deliver upward and the wizard stores. */
module Payloads {
  import opened Wrappers

  /** What the keyword step delivers: `{ keywords }`. */
  datatype KeywordPayload = KeywordPayload(keywords: seq<string>)

  /** What the competitor step delivers. */
  datatype CompetitorPayload = CompetitorPayload(
    businessCompetitors: seq<string>,
    searchCompetitors: seq<string>,
    totalCompetitors: seq<string>)

  /** `totalCompetitors` is business followed by search, never set on its own. */
  predicate WellFormed(p: CompetitorPayload) {
    p.totalCompetitors == p.businessCompetitors + p.searchCompetitors
  }

  /** The payload with all three lists empty. */
  const NoCompetitors := CompetitorPayload([], [], [])

  /** The payload built from the two current selections. */
  function CompetitorsOf(business: seq<string>, search: seq<string>): (p: CompetitorPayload)
    ensures WellFormed(p)
    ensures p.businessCompetitors == business && p.searchCompetitors == search
    ensures p.totalCompetitors == [] <==> business == [] && search == []
  {
    CompetitorPayload(business, search, business + search)
  }

  /** What a page-level website submission stores (the timestamp is not modelled). */
  datatype WebsitePayload = WebsitePayload(website: string)

  /** The business step's answers; an absent or empty field is falsy. */
  datatype BusinessData = BusinessData(industry: Option<string>, category: Option<string>, offering: Option<string>)

  /** A value read from a payload that may be missing, not an array, or an array. */
  datatype JsArray<T> = Undefined | NotArray | Array(items: seq<T>)

  /** One language choice of the language/location step. */
  datatype LanguageSelection = LanguageSelection(language: string, location: Option<string>)

  datatype LanguageLocationData = LanguageLocationData(selections: JsArray<LanguageSelection>)

  /**
   * The outcome of one run of a step's submission effect: the payload handed to
   * the parent (if any), the new "last submitted" record and the new showSummary flag.
   */
  datatype Effect<P> = Effect(delivered: Option<P>, last: Option<P>, showSummary: bool)
}
