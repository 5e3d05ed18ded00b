/** The participant log (`DataLogger`): one CSV file for all participants,
    its header written once, one row appended per finished study, and the
    next participant ID read back from the last row. The file is modelled
    as its list of lines; `None` is a file that does not exist. */
module Logging {
  import opened Common
  import opened Text
  import opened Trial

  const MinInt32: int := -0x8000_0000
  const MaxInt32: int := 0x7fff_ffff

  /** The ID the study starts from when there is nothing to continue. */
  const FirstID: string := "001"

  /** C#'s unchecked `int` increment: one more, except that the largest
      value wraps around to the smallest (equal to `x + 1` modulo 2^32). */
  function Increment32(x: int): (r: int)
    requires MinInt32 <= x <= MaxInt32
    ensures MinInt32 <= r <= MaxInt32
    ensures x < MaxInt32 ==> r == x + 1
    ensures x == MaxInt32 ==> r == x + 1 - 0x1_0000_0000
  {
    if x == MaxInt32 then MinInt32 else x + 1
  }

  /** `ToString("D3")`: at least three digits, zero-padded, after a minus
      sign for a negative value. */
  function FormatD3(n: int): (s: string)
    ensures |s| >= 3 && ',' !in s
    ensures n >= 0 ==> AllDigits(s)
    ensures 0 <= n < 1000 ==> |s| == 3
    ensures n < 0 ==> s[0] == '-'
  {
    var magnitude: nat := if n < 0 then -n else n;
    var digits := PadZeros(NatToString(magnitude), 3);
    Trial.DigitsHaveNoComma(digits);
    ThreeDigitsAtMost(magnitude);
    if n < 0 then "-" + digits else digits
  }

  lemma ThreeDigitsAtMost(m: nat)
    ensures m < 1000 ==> |NatToString(m)| <= 3
  {
    if m < 1000 {
      assert Trial.Pow10(3) == 1000;
      Trial.NatToStringShort(m, 3);
    }
  }

  /** `int.TryParse` with `NumberStyles.Integer`: white space at either end,
      an optional leading sign, one or more decimal digits, and a value that
      fits in 32 bits. */
  function TryParseInt32(s: string): (r: Option<int>)
    ensures r.Some? ==> MinInt32 <= r.value <= MaxInt32
  {
    var t := TrimEnd(TrimStart(s));
    if |t| == 0 then None
    else
      var body := if t[0] == '-' || t[0] == '+' then t[1..] else t;
      if |body| == 0 || !AllDigits(body) then None
      else
        var v: int := if t[0] == '-' then -(DigitsValue(body) as int) else DigitsValue(body);
        if MinInt32 <= v <= MaxInt32 then Some(v) else None
  }

  /** Parsing what `FormatD3` prints gives the number back. */
  lemma ParseFormatD3(n: int)
    requires MinInt32 <= n <= MaxInt32
    ensures TryParseInt32(FormatD3(n)) == Some(n)
  {
    var magnitude: nat := if n < 0 then -n else n;
    var digits := PadZeros(NatToString(magnitude), 3);
    assert FormatD3(n) == (if n < 0 then "-" + digits else digits);
    Trial.LeadingZerosOrSelf(NatToString(magnitude), 3);
    DigitsValueOfNatToString(magnitude);
    assert |digits| > 0 && AllDigits(digits) && DigitsValue(digits) == magnitude;
    if n < 0 {
      ParseNegative("-" + digits, digits);
    } else {
      ParseNonNegative(digits);
    }
  }

  lemma ParseNegative(s: string, digits: string)
    requires |digits| > 0 && AllDigits(digits) && s == "-" + digits
    requires MinInt32 <= -(DigitsValue(digits) as int)
    ensures TryParseInt32(s) == Some(-(DigitsValue(digits) as int))
  {
    assert s[|s| - 1] == digits[|digits| - 1];
    TrimmedAlready(s);
    assert s[1..] == digits;
  }

  lemma ParseNonNegative(digits: string)
    requires |digits| > 0 && AllDigits(digits)
    requires DigitsValue(digits) <= MaxInt32
    ensures TryParseInt32(digits) == Some(DigitsValue(digits))
  {
    TrimmedAlready(digits);
  }

  /** `GetNextParticipantID` on the file's lines: "001" without a file or
      with only a header; otherwise the first field of the last line, parsed
      and incremented (wrapping at 32 bits), or "001" when it does not parse. */
  function NextParticipantID(file: Option<seq<string>>): (id: string)
    ensures |id| >= 3 && ',' !in id
    ensures file.None? || |file.value| <= 1 ==> id == FirstID
  {
    match file
    case None => FirstID
    case Some(lines) =>
      if |lines| <= 1 then FirstID
      else
        var fields := Split(lines[|lines| - 1], ',');
        match TryParseInt32(fields[0])
        case Some(lastID) => FormatD3(Increment32(lastID))
        case None => FirstID
  }

  /** A last row whose first field parses as `n` gives the next ID `n + 1`
      (wrapping at 32 bits) in `D3` form. */
  lemma NextIDOfParsedRow(lines: seq<string>, n: int)
    requires |lines| >= 2
    requires TryParseInt32(Split(lines[|lines| - 1], ',')[0]) == Some(n)
    ensures NextParticipantID(Some(lines)) == FormatD3(Increment32(n))
  {
  }

  /** A last row whose first field does not parse falls back to "001". */
  lemma NextIDOfUnparsableRow(lines: seq<string>)
    requires |lines| >= 2
    requires TryParseInt32(Split(lines[|lines| - 1], ',')[0]).None?
    ensures NextParticipantID(Some(lines)) == "001"
  {
  }

  /** A character that is neither white space, a sign nor a digit, anywhere
      in the text, makes the parse fail. */
  lemma ParseRejectsForeignChar(s: string, i: nat)
    requires i < |s| && !IsWhite(s[i]) && !IsDigit(s[i]) && s[i] != '+' && s[i] != '-'
    ensures TryParseInt32(s).None?
  {
    var u := TrimStart(s);
    var t := TrimEnd(u);
    var k := |s| - |u|;
    assert i >= k;
    assert u[i - k] == s[i];
    assert i - k < |t|;
    assert t[i - k] == s[i];
    var body := if t[0] == '-' || t[0] == '+' then t[1..] else t;
    if t[0] == '-' || t[0] == '+' {
      assert i - k > 0;
      assert body[i - k - 1] == s[i];
    } else {
      assert body[i - k] == s[i];
    }
    assert !AllDigits(body);
  }

  /** A participant column holding "abc" restarts the numbering at "001". */
  lemma NextIDAfterForeignID()
    ensures TryParseInt32("abc").None?
    ensures NextParticipantID(Some(["ParticipantID", "abc,1"])) == "001"
  {
    ParseRejectsForeignChar("abc", 0);
    assert Split("abc,1", ',')[0] == "abc";
    NextIDOfUnparsableRow(["ParticipantID", "abc,1"]);
  }

  /** Round trip: after a row whose ID is `k` in `D3` form is appended below
      at least a header, the next ID is `k + 1` in `D3` form. */
  lemma NextIDAfterLoggedRow(lines: seq<string>, data: TrialData, k: int)
    requires |lines| >= 1
    requires MinInt32 <= k < MaxInt32
    requires data.participantID == FormatD3(k)
    ensures NextParticipantID(Some(lines + [ToCSV(data)])) == FormatD3(k + 1)
  {
    NextIDOfLoggedRow(lines, data, k);
  }

  /** The ID after the largest `int` wraps around to the most negative
      one, printed with a minus sign. */
  lemma NextIDWrapsAtMaximum(lines: seq<string>, data: TrialData)
    requires |lines| >= 1
    requires data.participantID == FormatD3(MaxInt32)
    ensures NextParticipantID(Some(lines + [ToCSV(data)])) == FormatD3(MinInt32)
    ensures NextParticipantID(Some(lines + [ToCSV(data)]))[0] == '-'
  {
    NextIDOfLoggedRow(lines, data, MaxInt32);
  }

  /** The next ID after a logged row is read from that row's ID. */
  lemma NextIDOfLoggedRow(lines: seq<string>, data: TrialData, k: int)
    requires |lines| >= 1
    requires MinInt32 <= k <= MaxInt32
    requires data.participantID == FormatD3(k)
    ensures NextParticipantID(Some(lines + [ToCSV(data)])) == FormatD3(Increment32(k))
  {
    var row := ToCSV(data);
    var file := lines + [row];
    assert file[|file| - 1] == row;
    assert Split(row, ',')[0] == FormatD3(k);
    ParseFormatD3(k);
  }

  function LinesOf(file: Option<seq<string>>): seq<string> {
    if file.None? then [] else file.value
  }

  class DataLogger {
    /** Whether `InitializeSession` has chosen the file's path. */
    var hasPath: bool
    var file: Option<seq<string>>

    constructor (file: Option<seq<string>>)
      ensures !hasPath && this.file == file
    {
      hasPath := false;
      this.file := file;
    }

    /** Creates the file with the header line when it does not exist;
        existing content is left as it is. */
    method InitializeSession()
      modifies this
      ensures hasPath
      ensures old(file).None? ==> file == Some([GetCSVHeader()])
      ensures old(file).Some? ==> file == old(file)
    {
      hasPath := true;
      if file.None? {
        file := Some([GetCSVHeader()]);
      }
    }

    /** Appends exactly one row. A failing write (`writeFails`, or no path
        chosen yet) is caught: nothing is appended and nothing escapes. */
    method LogParticipantData(data: TrialData, writeFails: bool)
      modifies this`file
      ensures !hasPath || writeFails ==> file == old(file)
      ensures hasPath && !writeFails ==> file == Some(LinesOf(old(file)) + [ToCSV(data)])
    {
      if !hasPath || writeFails {
        return;
      }
      file := Some(LinesOf(file) + [ToCSV(data)]);
    }

    /** The next ID; "001" before a path is chosen, where the file cannot be
        found. */
    function GetNextParticipantID(): (id: string)
      reads this
      ensures !hasPath ==> id == FirstID
      ensures hasPath ==> id == NextParticipantID(file)
    {
      if hasPath then NextParticipantID(file) else FirstID
    }
  }
}
