/**
 * The search filter record the discovery page keeps and hands to its filter
 * panel and chip list. The enumerated fields are strings, as in the record
 * itself, because the panel copies them in and out of untyped option
 * configs. Dates are milliseconds since the epoch; `None` stands for `null`
 * on the ranges and for a missing key on the optional fields.
 */
module Filters {
  import opened Common

  datatype DateRange = DateRange(from: Option<int>, to: Option<int>, preset: Option<string>)

  datatype Range = Range(min: Option<int>, max: Option<int>)

  /** `{ min: null, max: null }`. */
  const Unbounded := Range(None, None)

  datatype SearchFilters = SearchFilters(
    dateRange: DateRange,
    subscriberCount: Range,
    viewCount: Range,
    duration: Option<string>,
    includeShorts: Option<bool>,
    sortBy: string,
    sortOrder: string)

  /** JavaScript truthiness of an optional string: present and non-empty. */
  predicate TruthyText(o: Option<string>) {
    o.Some? && o.value != ""
  }

  /** JavaScript truthiness of an optional number: present and non-zero. */
  predicate TruthyNumber(o: Option<int>) {
    o.Some? && o.value != 0
  }
}
