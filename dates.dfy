/** The `YYYY-MM-DD` date a cart is submitted with. */
module Dates {
  import opened Types
  import opened Text

  /** A calendar date as the clock reports it: the month counts from 0. */
  datatype DateParts = DateParts(year: nat, month0: nat, day: nat)

  /** `${year}-${String(month0 + 1).padStart(2, '0')}-${String(day).padStart(2, '0')}`. */
  function FormatDate(year: nat, month0: nat, day: nat): string
    requires month0 < 12 && 1 <= day <= 31
  {
    DecimalString(year) + "-" + TwoDigits(month0 + 1) + "-" + TwoDigits(day)
  }

  /** Reads `digits-MM-DD` back into the clock's parts; None for any other text. */
  function ParseDate(s: string): Option<DateParts>
  {
    if |s| >= 7 && s[|s| - 6] == '-' && s[|s| - 3] == '-'
    then ParseParts(s[..|s| - 6], s[|s| - 5..|s| - 3], s[|s| - 2..])
    else None
  }

  /** The parts of a date between its dashes: year digits, two month digits, two day digits. */
  function ParseParts(y: string, m: string, d: string): Option<DateParts>
  {
    if AllDigits(y) && AllDigits(m) && AllDigits(d) && DecimalValue(m) >= 1
    then Some(DateParts(DecimalValue(y), DecimalValue(m) - 1, DecimalValue(d)))
    else None
  }

  /** Reading a joined `digits-MM-DD` text gives back its three parts. */
  lemma ParseJoined(y: string, m: string, d: string)
    requires |y| >= 1 && |m| == 2 && |d| == 2
    ensures ParseDate(y + "-" + m + "-" + d) == ParseParts(y, m, d)
  {
    var r := y + "-" + m + "-" + d;
    var n := |r|;
    assert r[n - 6] == '-' && r[n - 3] == '-';
    assert r[..n - 6] == y;
    assert r[n - 5..n - 3] == m;
    assert r[n - 2..] == d;
    assert ParseDate(r) == ParseParts(r[..n - 6], r[n - 5..n - 3], r[n - 2..]);
  }

  /** The submitted date names the clock's year, its 1-based month and its day. */
  lemma FormatDateRoundTrip(year: nat, month0: nat, day: nat)
    requires month0 < 12 && 1 <= day <= 31
    ensures ParseDate(FormatDate(year, month0, day)) == Some(DateParts(year, month0, day))
  {
    DecimalRoundTrip(year);
    ParseJoined(DecimalString(year), TwoDigits(month0 + 1), TwoDigits(day));
  }

  /** For a four-digit year the submitted date is exactly `YYYY-MM-DD`: ten
      characters with the dashes at positions 4 and 7. */
  lemma FormatDateShape(year: nat, month0: nat, day: nat)
    requires month0 < 12 && 1 <= day <= 31
    requires 1000 <= year < 10000
    ensures var r := FormatDate(year, month0, day); |r| == 10 && r[4] == '-' && r[7] == '-'
  {
  }
}
