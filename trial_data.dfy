/** One participant's record (`TrialData`) and its CSV row: the ID, the
    timestamp and the four metrics with two decimals, comma-separated. */
module Trial {
  import opened Text

  /** A wall-clock reading (`DateTime.Now`), supplied by the host. */
  datatype Timestamp = Timestamp(year: nat, month: nat, day: nat, hour: nat, minute: nat, second: nat)

  datatype TrialData = TrialData(
    participantID: string,
    dateTime: string,
    successRate: real,
    errorRate: real,
    averageTaskTime: real,
    pullingAccuracy: real)

  const HeaderFields: seq<string> :=
    ["ParticipantID", "DateTime", "SuccessRate", "ErrorRate", "AverageTaskTime", "PullingAccuracy"]

  /** A zero-padded field of at least two digits that reads back as `n`. */
  function TwoDigits(n: nat): (s: string)
    ensures AllDigits(s) && ',' !in s
    ensures DigitsValue(s) == n
    ensures n < 100 ==> |s| == 2
  {
    NatToStringLength(n);
    DigitsHaveNoComma(PadZeros(NatToString(n), 2));
    LeadingZerosOrSelf(NatToString(n), 2);
    DigitsValueOfNatToString(n);
    PadZeros(NatToString(n), 2)
  }

  /** `ToString("yyyy-MM-dd HH:mm:ss")`: zero-padded fields, no comma. */
  function FormatTimestamp(t: Timestamp): (s: string)
    ensures ',' !in s
    ensures (&& t.year < 10000 && t.month < 100 && t.day < 100
             && t.hour < 100 && t.minute < 100 && t.second < 100) ==> |s| == 19
  {
    var year := PadZeros(NatToString(t.year), 4);
    DigitsHaveNoComma(year);
    YearLength(t.year);
    var date := year + "-" + TwoDigits(t.month) + "-" + TwoDigits(t.day);
    var time := TwoDigits(t.hour) + ":" + TwoDigits(t.minute) + ":" + TwoDigits(t.second);
    date + " " + time
  }

  /** `s` is `t` laid out as `yyyy-MM-dd HH:mm:ss`: each field's digits
      read back as the timestamp's field, between the fixed separators. */
  ghost predicate ShowsTimestamp(s: string, t: Timestamp) {
    && |s| == 19
    && s[4] == '-' && s[7] == '-' && s[10] == ' ' && s[13] == ':' && s[16] == ':'
    && AllDigits(s[0..4]) && DigitsValue(s[0..4]) == t.year
    && AllDigits(s[5..7]) && DigitsValue(s[5..7]) == t.month
    && AllDigits(s[8..10]) && DigitsValue(s[8..10]) == t.day
    && AllDigits(s[11..13]) && DigitsValue(s[11..13]) == t.hour
    && AllDigits(s[14..16]) && DigitsValue(s[14..16]) == t.minute
    && AllDigits(s[17..19]) && DigitsValue(s[17..19]) == t.second
  }

  /** A timestamp whose fields fit their widths is printed in the
      `yyyy-MM-dd HH:mm:ss` layout. */
  lemma FormatTimestampLayout(t: Timestamp)
    requires && t.year < 10000 && t.month < 100 && t.day < 100
             && t.hour < 100 && t.minute < 100 && t.second < 100
    ensures ShowsTimestamp(FormatTimestamp(t), t)
  {
    var year := PadZeros(NatToString(t.year), 4);
    YearLength(t.year);
    LeadingZerosOrSelf(NatToString(t.year), 4);
    DigitsValueOfNatToString(t.year);
    TimestampFields(year, TwoDigits(t.month), TwoDigits(t.day),
                    TwoDigits(t.hour), TwoDigits(t.minute), TwoDigits(t.second));
  }

  /** Where each field sits once the six fields are joined with the
      `yyyy-MM-dd HH:mm:ss` separators. */
  lemma TimestampFields(year: string, month: string, day: string, hour: string, minute: string, second: string)
    requires |year| == 4 && |month| == 2 && |day| == 2 && |hour| == 2 && |minute| == 2 && |second| == 2
    ensures var s := (year + "-" + month + "-" + day) + " " + (hour + ":" + minute + ":" + second);
      && |s| == 19
      && s[4] == '-' && s[7] == '-' && s[10] == ' ' && s[13] == ':' && s[16] == ':'
      && s[0..4] == year && s[5..7] == month && s[8..10] == day
      && s[11..13] == hour && s[14..16] == minute && s[17..19] == second
  {
    var date := year + "-" + month + "-" + day;
    var time := hour + ":" + minute + ":" + second;
    var s := date + " " + time;
    assert s[0..4] == date[0..4] == year;
    assert s[5..7] == date[5..7] == month;
    assert s[8..10] == date[8..10] == day;
    assert s[11..13] == time[0..2] == hour;
    assert s[14..16] == time[3..5] == minute;
    assert s[17..19] == time[6..8] == second;
  }

  lemma YearLength(n: nat)
    ensures n < 10000 ==> |PadZeros(NatToString(n), 4)| == 4
  {
    if n < 10000 {
      NatToStringShort(n, 4);
    }
  }

  function Pow10(k: nat): nat {
    if k == 0 then 1 else 10 * Pow10(k - 1)
  }

  lemma {:induction false} NatToStringShort(n: nat, k: nat)
    requires k >= 1 && n < Pow10(k)
    ensures |NatToString(n)| <= k
  {
    if n >= 10 {
      assert k >= 2 && Pow10(k) == 10 * Pow10(k - 1);
      NatToStringShort(n / 10, k - 1);
    }
  }

  lemma DigitsHaveNoComma(s: string)
    requires AllDigits(s)
    ensures ',' !in s
  {
  }

  /** The constructor: stamped with the current time, every metric 0. The
      ID is unset (a `null` string, printed as nothing). */
  function NewTrialData(now: Timestamp): (d: TrialData)
    ensures d.successRate == 0.0 && d.errorRate == 0.0
    ensures d.averageTaskTime == 0.0 && d.pullingAccuracy == 0.0
    ensures d.participantID == "" && d.dateTime == FormatTimestamp(now)
  {
    TrialData("", FormatTimestamp(now), 0.0, 0.0, 0.0, 0.0)
  }

  /** Rounds to the nearest integer, halves away from zero. */
  function RoundHalfAway(y: real): (n: int)
    ensures y - 0.5 <= n as real <= y + 0.5
    ensures y >= 0.0 ==> n >= 0 && y - 0.5 < n as real
    ensures y <= 0.0 ==> n <= 0 && n as real < y + 0.5
  {
    if y >= 0.0 then (y + 0.5).Floor else -((-y + 0.5).Floor)
  }

  /** A half is rounded away from zero: `m + 0.5` to `m + 1`, and its
      negation to `-(m + 1)`. */
  lemma HalvesAwayFromZero(m: nat)
    ensures RoundHalfAway(m as real + 0.5) == m + 1
    ensures RoundHalfAway(-(m as real) - 0.5) == -(m + 1)
  {
  }

  /** The `F2` format: the value in hundredths, rounded half away from
      zero, printed by `Hundredths`. */
  function FormatF2(x: real): (s: string)
    ensures ',' !in s
    ensures |s| >= 4 && s[|s| - 3] == '.'
  {
    Hundredths(RoundHalfAway(x * 100.0))
  }

  /** `h` hundredths printed as whole units, a point and two digits, with
      a minus sign when `h` is negative. */
  function Hundredths(h: int): (s: string)
    ensures ',' !in s
    ensures |s| >= 4 && s[|s| - 3] == '.'
  {
    var a: nat := if h < 0 then -h else h;
    NatToStringLength(a % 100);
    DigitsHaveNoComma(NatToString(a / 100));
    DigitsHaveNoComma(PadZeros(NatToString(a % 100), 2));
    (if h < 0 then "-" else "") + NatToString(a / 100) + "." + PadZeros(NatToString(a % 100), 2)
  }

  /** `s` reads back as `h` hundredths: a minus sign exactly when `h` is
      negative, then the whole units `|h| / 100` and, after the point, the
      two digits of `|h| % 100`. */
  ghost predicate ShowsHundredths(s: string, h: int) {
    var a: nat := if h < 0 then -h else h;
    var whole := if h < 0 then 1 else 0;
    && |s| >= whole + 4
    && (s[0] == '-' <==> h < 0)
    && AllDigits(s[whole..|s| - 3]) && DigitsValue(s[whole..|s| - 3]) == a / 100
    && s[|s| - 3] == '.'
    && AllDigits(s[|s| - 2..]) && DigitsValue(s[|s| - 2..]) == a % 100
  }

  /** What `FormatF2` prints is the rounded value. */
  lemma FormatF2Value(x: real)
    ensures ShowsHundredths(FormatF2(x), RoundHalfAway(x * 100.0))
  {
    HundredthsValue(RoundHalfAway(x * 100.0));
  }

  lemma HundredthsValue(h: int)
    ensures ShowsHundredths(Hundredths(h), h)
  {
    var a: nat := if h < 0 then -h else h;
    var sign := if h < 0 then "-" else "";
    var whole := NatToString(a / 100);
    var fraction := PadZeros(NatToString(a % 100), 2);
    NatToStringLength(a % 100);
    assert Hundredths(h) == sign + whole + "." + fraction;
    DecimalParts(sign, whole, fraction);
    LeadingZerosOrSelf(NatToString(a % 100), 2);
    DigitsValueOfNatToString(a % 100);
    DigitsValueOfNatToString(a / 100);
  }

  /** Where the sign, the whole part and the two-digit fraction sit in a
      number printed as `sign whole . fraction`. */
  lemma DecimalParts(sign: string, whole: string, fraction: string)
    requires |sign| <= 1 && |whole| >= 1 && |fraction| == 2
    ensures var s := sign + whole + "." + fraction;
      && s[|s| - 2..] == fraction
      && s[|sign|..|s| - 3] == whole
      && s[0] == (if |sign| == 1 then sign[0] else whole[0])
  {
    var s := sign + whole + "." + fraction;
    assert s[|s| - 2..] == fraction;
    assert s[|sign|..|s| - 3] == whole;
  }

  lemma NatToStringLength(n: nat)
    ensures n < 100 ==> |NatToString(n)| <= 2
  {
  }

  lemma LeadingZerosOrSelf(s: string, width: nat)
    requires AllDigits(s)
    ensures DigitsValue(PadZeros(s, width)) == DigitsValue(s)
  {
    if |s| < width {
      LeadingZerosValue(width - |s|, s);
    }
  }

  /** The six cells of a row, in header order. */
  function Cells(d: TrialData): seq<string> {
    [d.participantID, d.dateTime, FormatF2(d.successRate), FormatF2(d.errorRate),
     FormatF2(d.averageTaskTime), FormatF2(d.pullingAccuracy)]
  }

  /** The CSV row: the first cell is the participant ID. */
  function ToCSV(d: TrialData): (row: string)
    ensures ',' !in d.participantID ==> Split(row, ',')[0] == d.participantID
  {
    FirstCellIsID(d);
    Join(Cells(d), ',')
  }

  lemma FirstCellIsID(d: TrialData)
    ensures ',' !in d.participantID ==> Split(Join(Cells(d), ','), ',')[0] == d.participantID
  {
    var rest := Join(Cells(d)[1..], ',');
    assert Join(Cells(d), ',') == d.participantID + [','] + rest;
    if ',' !in d.participantID {
      SplitFirst(d.participantID, ',', rest);
    }
  }

  /** A row splits back into exactly its six cells when neither the ID nor
      the timestamp holds a comma. */
  lemma ToCSVSplitsIntoCells(d: TrialData)
    requires ',' !in d.participantID && ',' !in d.dateTime
    ensures Split(ToCSV(d), ',') == Cells(d)
    ensures |Split(ToCSV(d), ',')| == |HeaderFields|
  {
    CellsHaveNoComma(d);
    SplitJoin(Cells(d), ',');
  }

  lemma CellsHaveNoComma(d: TrialData)
    requires ',' !in d.participantID && ',' !in d.dateTime
    ensures forall k :: 0 <= k < |Cells(d)| ==> ',' !in Cells(d)[k]
  {
    var a, b, c, e := FormatF2(d.successRate), FormatF2(d.errorRate),
                      FormatF2(d.averageTaskTime), FormatF2(d.pullingAccuracy);
    assert ',' !in a && ',' !in b && ',' !in c && ',' !in e;
    var cells := [d.participantID, d.dateTime, a, b, c, e];
    assert Cells(d) == cells;
    forall k | 0 <= k < |cells| ensures ',' !in cells[k] {
      if k == 0 { } else if k == 1 { } else if k == 2 { } else if k == 3 { } else if k == 4 { } else { }
    }
  }

  /** The header line: the six column names, comma-separated, which split
      back into those names. */
  function GetCSVHeader(): (h: string)
    ensures Split(h, ',') == HeaderFields
  {
    SplitJoin(HeaderFields, ',');
    Join(HeaderFields, ',')
  }
}
