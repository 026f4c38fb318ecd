/**
  The console filter that watches `dotnet` output for MSBuild's closing
  summary lines (`    3 Error(s)`, `    12 Warning(s)`), remembers the counts
  they report, and passes every line through to the wrapped output.
 */
module Console {
  import opened Text

  /** `Integer.MAX_VALUE`: the largest count a summary line can carry. */
  const MaxInt: int := 0x7fff_ffff

  /** The text after the count on an error summary line. */
  const ErrorSuffix: string := " Error(s)"

  /** The text after the count on a warning summary line. */
  const WarningSuffix: string := " Warning(s)"

  /** A line without its line terminator: every trailing carriage return and line feed removed. */
  function TrimEol(line: string): (r: string)
    ensures |r| <= |line| && r == line[..|r|]
    ensures r == [] || (r[|r| - 1] != '\r' && r[|r| - 1] != '\n')
    ensures forall i :: |r| <= i < |line| ==> line[i] == '\r' || line[i] == '\n'
    decreases |line|
  {
    if line != [] && (line[|line| - 1] == '\r' || line[|line| - 1] == '\n') then TrimEol(line[..|line| - 1])
    else line
  }

  function Spaces(n: nat): (r: string)
    ensures |r| == n && forall i :: 0 <= i < n ==> r[i] == ' '
  {
    seq(n, _ => ' ')
  }

  /** The number of spaces `s` starts with. */
  function LeadingSpaces(s: string): (k: nat)
    ensures k <= |s| && s[..k] == Spaces(k)
    ensures k == |s| || s[k] != ' '
  {
    if s != [] && s[0] == ' ' then 1 + LeadingSpaces(s[1..]) else 0
  }

  predicate IsDigit(c: char) {
    '0' <= c <= '9'
  }

  /** A run of one or more ASCII digits, what `\d+` matches. */
  predicate IsDigitRun(d: string) {
    d != [] && forall i :: 0 <= i < |d| ==> IsDigit(d[i])
  }

  /** The value of a run of decimal digits, most significant first. */
  function DigitsValue(d: string): nat
    requires forall i :: 0 <= i < |d| ==> IsDigit(d[i])
  {
    if d == [] then 0
    else
      var last := d[|d| - 1];
      assert IsDigit(last);
      10 * DigitsValue(d[..|d| - 1]) + (last - '0') as nat
  }

  /**
    Whether `line` is, in full, spaces, a run of digits and then `suffix`
    (the pattern `^ *(\d+)` followed by `suffix` and `$`); the digits when it
    is. What it finds is there (the ensures); whatever is there, it finds
    (`CountMatchComplete`).
   */
  function CountMatch(line: string, suffix: string): (r: Option<string>)
    ensures r.Some? ==> IsDigitRun(r.value) && line == Spaces(LeadingSpaces(line)) + r.value + suffix
  {
    var k := LeadingSpaces(line);
    if k + |suffix| <= |line| && line[|line| - |suffix|..] == suffix then
      var d := line[k..|line| - |suffix|];
      if IsDigitRun(d) then
        assert line == line[..k] + d + line[|line| - |suffix|..];
        Some(d)
      else None
    else None
  }

  /** `Integer.parseInt` on a run of digits: `None` where it throws because the value does not fit an `int`. */
  function ParseInt(d: string): (r: Option<int>)
    requires IsDigitRun(d)
    ensures r.Some? ==> 0 <= r.value <= MaxInt && r.value == DigitsValue(d)
    ensures r.None? ==> DigitsValue(d) > MaxInt
  {
    if DigitsValue(d) <= MaxInt then Some(DigitsValue(d)) else None
  }

  /** What a line of output is to the scanner. */
  datatype LineKind = ErrorSummary(count: int) | WarningSummary(count: int) | CountTooLarge | OtherLine

  /** The error pattern is tried first, the warning pattern only when it fails. */
  function Classify(text: string): (r: LineKind)
    ensures r.ErrorSummary? ==> 0 <= r.count <= MaxInt
    ensures r.WarningSummary? ==> 0 <= r.count <= MaxInt
  {
    match CountMatch(text, ErrorSuffix)
    case Some(d) =>
      (match ParseInt(d)
       case Some(n) => ErrorSummary(n)
       case None => CountTooLarge)
    case None =>
      match CountMatch(text, WarningSuffix)
      case Some(d) =>
        (match ParseInt(d)
         case Some(n) => WarningSummary(n)
         case None => CountTooLarge)
      case None => OtherLine
  }

  /** The two counters. */
  datatype Counters = Counters(errors: int, warnings: int)

  /** The counters after one more line: a summary line overwrites its counter, any other line changes nothing. */
  function Update(c: Counters, text: string): (r: Counters)
    ensures r.errors == c.errors || r.warnings == c.warnings
    ensures !Classify(text).ErrorSummary? && !Classify(text).WarningSummary? ==> r == c
  {
    match Classify(text)
    case ErrorSummary(n) => c.(errors := n)
    case WarningSummary(n) => c.(warnings := n)
    case _ => c
  }

  /** The counters after a sequence of lines, starting from zero; both always hold a value an `int` can carry. */
  function ScanLines(lines: seq<string>): (r: Counters)
    ensures 0 <= r.errors <= MaxInt
    ensures 0 <= r.warnings <= MaxInt
  {
    if lines == [] then Counters(0, 0)
    else Update(ScanLines(lines[..|lines| - 1]), TrimEol(lines[|lines| - 1]))
  }

  /** The scanner wrapped around a build's output. */
  class StatusScanner {
    var errors: int
    var warnings: int
    /** The lines written through to the wrapped output, in order. */
    var forwarded: seq<string>

    function Counts(): Counters
      reads this
    {
      Counters(errors, warnings)
    }

    /** The counters are those of the lines passed through so far. */
    ghost predicate Valid()
      reads this
    {
      Counts() == ScanLines(forwarded)
    }

    constructor ()
      ensures Valid() && forwarded == []
      ensures errors == 0 && warnings == 0
    {
      errors, warnings, forwarded := 0, 0, [];
    }

    /**
      Handles one line of output, `line` as received (terminator included).
      `ok` is false where `Integer.parseInt` throws: then nothing changes and
      the line is not passed on.
     */
    method Eol(line: string) returns (ok: bool)
      requires Valid()
      modifies this
      ensures Valid()
      ensures ok <==> Classify(TrimEol(line)) != CountTooLarge
      ensures forwarded == old(forwarded) + (if ok then [line] else [])
      ensures Counts() == Update(old(Counts()), TrimEol(line))
    {
      var text := TrimEol(line);
      var m := CountMatch(text, ErrorSuffix);
      if m.Some? {
        var n := ParseInt(m.value);
        if n.None? {
          return false;
        }
        errors := n.value;
      } else {
        m := CountMatch(text, WarningSuffix);
        if m.Some? {
          var n := ParseInt(m.value);
          if n.None? {
            return false;
          }
          warnings := n.value;
        }
      }
      forwarded := forwarded + [line];
      assert forwarded[..|forwarded| - 1] == old(forwarded);
      ok := true;
    }

    /** The count on the last error summary line passed through, or 0. */
    function GetErrors(): (n: int)
      reads this
      requires Valid()
      ensures n == ScanLines(forwarded).errors
      ensures 0 <= n <= MaxInt
    {
      errors
    }

    /** The count on the last warning summary line passed through, or 0. */
    function GetWarnings(): (n: int)
      reads this
      requires Valid()
      ensures n == ScanLines(forwarded).warnings
      ensures 0 <= n <= MaxInt
    {
      warnings
    }
  }

  // ---------------------------------------------------------------------
  // Recognising the summary lines

  lemma {:induction false} LeadingSpacesOf(n: nat, rest: string)
    requires rest == [] || rest[0] != ' '
    ensures LeadingSpaces(Spaces(n) + rest) == n
  {
    if n > 0 {
      assert (Spaces(n) + rest)[1..] == Spaces(n - 1) + rest;
      LeadingSpacesOf(n - 1, rest);
    } else {
      assert Spaces(n) + rest == rest;
    }
  }

  /** And whatever is there, `CountMatch` finds: a line of spaces, digits and the suffix matches with those digits. */
  lemma CountMatchComplete(n: nat, d: string, suffix: string)
    requires IsDigitRun(d)
    ensures CountMatch(Spaces(n) + d + suffix, suffix) == Some(d)
  {
    var line := Spaces(n) + d + suffix;
    assert line == Spaces(n) + (d + suffix);
    LeadingSpacesOf(n, d + suffix);
    assert line[|line| - |suffix|..] == suffix;
    assert line[n..|line| - |suffix|] == d;
  }

  /** Text after the suffix spoils the match. */
  lemma TrailingTextNoMatch(n: nat, d: string, suffix: string, x: string)
    requires IsDigitRun(d) && suffix != [] && !IsDigit(suffix[0]) && x != []
    ensures CountMatch(Spaces(n) + d + suffix + x, suffix) == None
  {
    var line := Spaces(n) + d + suffix + x;
    assert line == Spaces(n) + (d + suffix + x);
    LeadingSpacesOf(n, d + suffix + x);
    assert line[n + |d|] == suffix[0];
    var mid := line[n..|line| - |suffix|];
    assert |mid| > |d| && mid[|d|] == line[n + |d|];
    assert !IsDigitRun(mid);
  }

  /** A line starting with a tab matches neither pattern. */
  lemma LeadingTabIsOther(text: string)
    requires text != [] && text[0] == '\t'
    ensures Classify(text) == OtherLine
  {
    assert LeadingSpaces(text) == 0;
  }

  /**
    A full error summary line sets the error count to its number, or fails
    when that number does not fit an `int`.
   */
  lemma ErrorLineClassified(n: nat, d: string)
    requires IsDigitRun(d)
    ensures Classify(Spaces(n) + d + ErrorSuffix)
            == if DigitsValue(d) <= MaxInt then ErrorSummary(DigitsValue(d)) else CountTooLarge
  {
    CountMatchComplete(n, d, ErrorSuffix);
  }

  /** Likewise for a full warning summary line. */
  lemma WarningLineClassified(n: nat, d: string)
    requires IsDigitRun(d)
    ensures Classify(Spaces(n) + d + WarningSuffix)
            == if DigitsValue(d) <= MaxInt then WarningSummary(DigitsValue(d)) else CountTooLarge
  {
    CountMatchComplete(n, d, WarningSuffix);
    WarningLineNoError(Spaces(n) + d);
  }

  /** A line ending in ` Warning(s)` does not end in ` Error(s)`. */
  lemma WarningLineNoError(h: string)
    ensures CountMatch(h + WarningSuffix, ErrorSuffix) == None
  {
    var line := h + WarningSuffix;
    assert line[|line| - |ErrorSuffix|] == WarningSuffix[2];
  }

  /** A line that is a summary of either kind is exactly such a line. */
  lemma SummaryLineShape(text: string)
    ensures Classify(text).ErrorSummary? ==>
              var d := CountMatch(text, ErrorSuffix).value;
              IsDigitRun(d) && text == Spaces(LeadingSpaces(text)) + d + ErrorSuffix
              && Classify(text).count == DigitsValue(d)
    ensures Classify(text).WarningSummary? ==>
              var d := CountMatch(text, WarningSuffix).value;
              IsDigitRun(d) && text == Spaces(LeadingSpaces(text)) + d + WarningSuffix
              && Classify(text).count == DigitsValue(d)
  {
  }

  /** `Integer.toString` of a non-negative number: its decimal digits. */
  function Decimal(n: nat): (r: string)
    ensures IsDigitRun(r)
  {
    if n < 10 then ['0' + n as char] else Decimal(n / 10) + ['0' + (n % 10) as char]
  }

  lemma {:induction false} DigitsValueOfDecimal(n: nat)
    ensures DigitsValue(Decimal(n)) == n
  {
    var r := Decimal(n);
    if n >= 10 {
      DigitsValueOfDecimal(n / 10);
      assert r[..|r| - 1] == Decimal(n / 10);
    }
  }

  /** A summary line as MSBuild prints it reads back as the count it reports. */
  lemma SummaryRoundTrip(k: nat, n: nat)
    requires n <= MaxInt
    ensures Classify(Spaces(k) + Decimal(n) + ErrorSuffix) == ErrorSummary(n)
    ensures Classify(Spaces(k) + Decimal(n) + WarningSuffix) == WarningSummary(n)
  {
    DigitsValueOfDecimal(n);
    ErrorLineClassified(k, Decimal(n));
    WarningLineClassified(k, Decimal(n));
  }

  /**
    `Integer.parseInt` undoes `Integer.toString` on the values an `int` can
    hold, and fails on every larger one.
   */
  lemma ParseIntDecimal(n: nat)
    ensures n <= MaxInt ==> ParseInt(Decimal(n)) == Some(n)
    ensures n > MaxInt ==> ParseInt(Decimal(n)) == None
  {
    DigitsValueOfDecimal(n);
  }

  // ---------------------------------------------------------------------
  // The counters over a run of lines

  predicate IsErrorLine(line: string) {
    Classify(TrimEol(line)).ErrorSummary?
  }

  predicate IsWarningLine(line: string) {
    Classify(TrimEol(line)).WarningSummary?
  }

  /**
    Counts are overwritten, not added up: the error count is the one on the
    last error summary line.
   */
  lemma {:induction false} LastErrorLineWins(lines: seq<string>, i: nat)
    requires i < |lines| && IsErrorLine(lines[i])
    requires forall j :: i < j < |lines| ==> !IsErrorLine(lines[j])
    ensures ScanLines(lines).errors == Classify(TrimEol(lines[i])).count
  {
    var init := lines[..|lines| - 1];
    if i < |lines| - 1 {
      assert forall j :: i < j < |init| ==> init[j] == lines[j];
      LastErrorLineWins(init, i);
    }
  }

  /** Without any error summary line the error count stays 0. */
  lemma {:induction false} NoErrorLineZero(lines: seq<string>)
    requires forall j :: 0 <= j < |lines| ==> !IsErrorLine(lines[j])
    ensures ScanLines(lines).errors == 0
  {
    if lines != [] {
      var init := lines[..|lines| - 1];
      assert forall j :: 0 <= j < |init| ==> init[j] == lines[j];
      NoErrorLineZero(init);
    }
  }

  /** The warning count is the one on the last warning summary line. */
  lemma {:induction false} LastWarningLineWins(lines: seq<string>, i: nat)
    requires i < |lines| && IsWarningLine(lines[i])
    requires forall j :: i < j < |lines| ==> !IsWarningLine(lines[j])
    ensures ScanLines(lines).warnings == Classify(TrimEol(lines[i])).count
  {
    var init := lines[..|lines| - 1];
    if i < |lines| - 1 {
      assert forall j :: i < j < |init| ==> init[j] == lines[j];
      LastWarningLineWins(init, i);
    }
  }

  /** Without any warning summary line the warning count stays 0. */
  lemma {:induction false} NoWarningLineZero(lines: seq<string>)
    requires forall j :: 0 <= j < |lines| ==> !IsWarningLine(lines[j])
    ensures ScanLines(lines).warnings == 0
  {
    if lines != [] {
      var init := lines[..|lines| - 1];
      assert forall j :: 0 <= j < |init| ==> init[j] == lines[j];
      NoWarningLineZero(init);
    }
  }
}
