/** The calendar dates orders are filed under (java.time.LocalDate) and the two
    renderings the audit files use: "MMddyyyy" in file names and "MM-dd-yyyy"
    in the export. */
module Dates {
  import opened JavaText

  datatype LocalDate = LocalDate(year: int, month: int, day: int)

  predicate IsLeapYear(y: int)
  {
    y % 4 == 0 && (y % 100 != 0 || y % 400 == 0)
  }

  function DaysInMonth(y: int, m: int): int
  {
    if m == 2 then (if IsLeapYear(y) then 29 else 28)
    else if m == 4 || m == 6 || m == 9 || m == 11 then 30
    else 31
  }

  /** A real calendar date whose year "yyyy" prints in four digits. */
  predicate ValidDate(d: LocalDate)
  {
    1 <= d.year <= 9999 && 1 <= d.month <= 12 && 1 <= d.day <= DaysInMonth(d.year, d.month)
  }

  type Date = d: LocalDate | ValidDate(d) witness LocalDate(2025, 1, 1)

  /** Two digits, zero padded ("MM", "dd"). */
  function Two(n: nat): (s: string)
    requires n < 100
    ensures |s| == 2 && AllDigits(s)
  {
    [DigitChar(n / 10), DigitChar(n % 10)]
  }

  /** Four digits, zero padded ("yyyy"). */
  function Four(n: nat): (s: string)
    requires n < 10000
    ensures |s| == 4 && AllDigits(s)
  {
    Two(n / 100) + Two(n % 100)
  }

  /** AuditDAOImpl.dateToString: the pattern "MMddyyyy". */
  function CompactDate(d: Date): (s: string)
    ensures |s| == 8 && AllDigits(s)
  {
    Two(d.month) + Two(d.day) + Four(d.year)
  }

  /** The export's rendering "MM-dd-yyyy" of the same date. */
  function DisplayDate(d: Date): string
  {
    Two(d.month) + "-" + Two(d.day) + "-" + Four(d.year)
  }

  /** What export does with the digits it found in a file path: the first
      eight of them regrouped as MM-dd-yyyy. */
  function RegroupDigits(datePart: string): string
    requires |datePart| >= 8
  {
    datePart[0..2] + "-" + datePart[2..4] + "-" + datePart[4..8]
  }

  function TwoValue(s: string): nat
    requires |s| == 2 && AllDigits(s)
  {
    DigitValue(s[0]) * 10 + DigitValue(s[1])
  }

  /** Reading "MMddyyyy" back into a date. */
  function ParseCompact(s: string): LocalDate
    requires |s| == 8 && AllDigits(s)
  {
    LocalDate(TwoValue(s[4..6]) * 100 + TwoValue(s[6..8]), TwoValue(s[0..2]), TwoValue(s[2..4]))
  }

  lemma TwoRoundTrip(n: nat)
    requires n < 100
    ensures TwoValue(Two(n)) == n
  {
    var s := Two(n);
    assert DigitValue(s[0]) == n / 10 && DigitValue(s[1]) == n % 10;
  }

  /** dateToString loses nothing: the date can be read back from its
      "MMddyyyy" form, so distinct dates get distinct file names. */
  lemma CompactRoundTrip(d: Date)
    ensures ParseCompact(CompactDate(d)) == d
  {
    var s := CompactDate(d);
    assert s[0..2] == Two(d.month) && s[2..4] == Two(d.day);
    assert s[4..6] == Two(d.year / 100) && s[6..8] == Two(d.year % 100);
    TwoRoundTrip(d.month);
    TwoRoundTrip(d.day);
    TwoRoundTrip(d.year / 100);
    TwoRoundTrip(d.year % 100);
  }

  lemma CompactInjective(d1: Date, d2: Date)
    requires CompactDate(d1) == CompactDate(d2)
    ensures d1 == d2
  {
    CompactRoundTrip(d1);
    CompactRoundTrip(d2);
  }

  /** Regrouping the "MMddyyyy" digits gives the "MM-dd-yyyy" rendering of
      the same date. */
  lemma RegroupCompact(d: Date)
    ensures RegroupDigits(CompactDate(d)) == DisplayDate(d)
  {
    var s := CompactDate(d);
    assert s[0..2] == Two(d.month) && s[2..4] == Two(d.day) && s[4..8] == Four(d.year);
  }
}
