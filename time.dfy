/** The calendar values of the `chrono` crate that the core handles. Their
    arithmetic and formatting stay inside the abstract collaborators. */
module Time {
  import opened Wrappers

  /** `chrono::NaiveDate`. */
  datatype NaiveDate = NaiveDate(year: int, month: nat, day: nat)

  /** `chrono::DateTime<Utc>`. */
  datatype DateTime = DateTime(date: NaiveDate, hour: nat, minute: nat, second: nat)

  /** `NaiveDate::parse_from_str(value, format)`, left abstract. */
  type DateParser = (string, string) -> Option<NaiveDate>

  /** `Utc.from_utc_datetime(&date.and_hms_opt(0, 0, 0).unwrap())`. */
  function Midnight(d: NaiveDate): (t: DateTime)
    ensures t.date == d && t.hour == 0 && t.minute == 0 && t.second == 0
  {
    DateTime(d, 0, 0, 0)
  }
}
