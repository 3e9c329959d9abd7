/** The query parameters of the zone-summary endpoint (ZoneSummaryView.get,
    backend/api/views.py:340-367): a year and a month, both required, both
    integers, the month a calendar month and the year between 2000 and the
    year after the current one. The current year comes from the clock and is
    a parameter here. */
module SummaryQuery {
  import opened Wrappers
  import opened PyText
  import ZoneSettings

  /** Why the endpoint answers 400, in the order the checks run. */
  datatype ParamError =
    | MissingParam     // `year` or `month` absent or empty
    | NotInteger       // int() raises ValueError on one of them
    | MonthOutOfRange  // month outside 1..12
    | YearOutOfRange   // year outside 2000..current year + 1

  predicate MonthInRange(m: int) {
    1 <= m <= 12
  }

  predicate YearInRange(y: int, currentYear: int) {
    2000 <= y <= currentYear + 1
  }

  /** The year and month the endpoint goes on with, or the 400 it returns. */
  function SummaryParams(year: Option<string>, month: Option<string>, currentYear: int): (r: Result<(int, int), ParamError>)
    ensures r.Ok? ==> MonthInRange(r.value.1) && YearInRange(r.value.0, currentYear)
    ensures r.Ok? ==>
      && year.Some? && month.Some?
      && ParseInt(year.value) == Some(r.value.0) && ParseInt(month.value) == Some(r.value.1)
  {
    if !ZoneSettings.Truthy(year) || !ZoneSettings.Truthy(month) then Err(MissingParam)
    else
      match (ParseInt(year.value), ParseInt(month.value))
      case (Some(y), Some(m)) =>
        if !MonthInRange(m) then Err(MonthOutOfRange)
        else if !YearInRange(y, currentYear) then Err(YearOutOfRange)
        else Ok((y, m))
      case _ => Err(NotInteger)
  }

  /** Integer texts in range are accepted with the values they denote. */
  lemma SummaryParamsAccept(ys: string, ms: string, y: int, m: int, currentYear: int)
    requires ParseInt(ys) == Some(y) && ParseInt(ms) == Some(m)
    requires MonthInRange(m) && YearInRange(y, currentYear)
    ensures SummaryParams(Some(ys), Some(ms), currentYear) == Ok((y, m))
  {
    assert ys != "" && ms != "";
  }

  /** Every year and month in range, written as `str()` writes them, is
      accepted and read back unchanged. */
  lemma SummaryParamsAcceptShown(y: int, m: int, currentYear: int)
    requires MonthInRange(m) && YearInRange(y, currentYear)
    ensures SummaryParams(Some(ShowInt(y)), Some(ShowInt(m)), currentYear) == Ok((y, m))
  {
    var ys, ms := ShowInt(y), ShowInt(m);
    ParseShowInt(y);
    ParseShowInt(m);
    SummaryParamsAccept(ys, ms, y, m, currentYear);
  }

  /** A request is accepted exactly when both parameters are present, both
      are integers and both are in range; and the month is checked before
      the year, so a request with both out of range is refused for its
      month. */
  lemma SummaryParamsExactly(year: Option<string>, month: Option<string>, currentYear: int)
    ensures var r := SummaryParams(year, month, currentYear);
      && (r.Ok? <==>
            && year.Some? && month.Some?
            && ParseInt(year.value).Some? && ParseInt(month.value).Some?
            && MonthInRange(ParseInt(month.value).value) && YearInRange(ParseInt(year.value).value, currentYear))
      && ((year.Some? && month.Some? && ParseInt(year.value).Some? && ParseInt(month.value).Some?
           && !MonthInRange(ParseInt(month.value).value)) ==> r == Err(MonthOutOfRange))
  {
    if year.Some? && year.value == "" {
      assert ParseInt(year.value).None?;
    }
    if month.Some? && month.value == "" {
      assert ParseInt(month.value).None?;
    }
  }
}
