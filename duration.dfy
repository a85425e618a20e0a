/** `formatDuration`: whole seconds shown as `m:ss`, with the decimal
    rendering it relies on and a parser that inverts it. */
module Duration {
  import opened Shared

  predicate IsDigit(c: char) {
    '0' <= c <= '9'
  }

  predicate AllDigits(s: string) {
    forall i :: 0 <= i < |s| ==> IsDigit(s[i])
  }

  function DigitValue(c: char): (d: nat)
    requires IsDigit(c)
    ensures d < 10
  {
    c as int - '0' as int
  }

  function DigitChar(d: nat): (c: char)
    requires d < 10
    ensures IsDigit(c) && DigitValue(c) == d
  {
    (d + '0' as int) as char
  }

  /** The decimal text of a non-negative integer, as `Number.prototype.toString`
      gives it for an integer: at least one digit, no leading zero. */
  function Decimal(n: nat): (s: string)
    ensures |s| >= 1 && AllDigits(s)
    ensures |s| > 1 ==> s[0] != '0'
    ensures |s| == 1 <==> n < 10
    decreases n
  {
    if n < 10 then [DigitChar(n)] else Decimal(n / 10) + [DigitChar(n % 10)]
  }

  /** The value of a string of decimal digits; the empty string reads as 0. */
  function ValueOf(s: string): nat
    requires AllDigits(s)
  {
    if s == [] then 0 else ValueOf(s[..|s| - 1]) * 10 + DigitValue(s[|s| - 1])
  }

  /** Reading back the decimal text of `n` gives `n`. */
  lemma {:induction false} ValueOfDecimal(n: nat)
    ensures ValueOf(Decimal(n)) == n
    decreases n
  {
    if n >= 10 {
      var s := Decimal(n);
      assert s[..|s| - 1] == Decimal(n / 10);
      ValueOfDecimal(n / 10);
    }
  }

  /** `String.prototype.padStart(width, fill)` with a one-character fill. */
  function PadStart(s: string, width: nat, fill: char): (r: string)
    ensures |r| == if |s| >= width then |s| else width
    ensures r[|r| - |s|..] == s
    ensures forall i :: 0 <= i < |r| - |s| ==> r[i] == fill
  {
    if |s| >= width then s else seq(width - |s|, _ => fill) + s
  }

  /** The two-digit seconds field: `secs.toString().padStart(2, '0')`. */
  function SecondsField(secs: nat): (r: string)
    requires secs < 60
    ensures |r| == 2 && AllDigits(r) && ValueOf(r) == secs
  {
    var r := PadStart(Decimal(secs), 2, '0');
    TwoDigitValue(r);
    if secs < 10 then
      assert r == ['0', DigitChar(secs)];
      r
    else
      ValueOfDecimal(secs);
      assert Decimal(secs) == [Decimal(secs / 10)[0], DigitChar(secs % 10)];
      r
  }

  /** The value of a two-digit string, digit by digit. */
  lemma TwoDigitValue(r: string)
    requires |r| == 2 && AllDigits(r)
    ensures ValueOf(r) == DigitValue(r[0]) * 10 + DigitValue(r[1])
  {
    var head := r[..1];
    assert head == [r[0]] && AllDigits(head);
    assert head[..0] == [];
    assert ValueOf(head) == DigitValue(r[0]);
    assert r[..|r| - 1] == head;
  }

  /** `formatDuration(seconds)`: the minutes in plain decimal, a colon, and
      the remaining seconds as exactly two digits. Reading the minutes and
      the seconds back recovers `seconds`. */
  function FormatDuration(seconds: nat): (r: string)
    ensures |r| >= 4 && r[|r| - 3] == ':'
    ensures r[..|r| - 3] == Decimal(seconds / 60)
    ensures AllDigits(r[..|r| - 3]) && ValueOf(r[..|r| - 3]) == seconds / 60
    ensures AllDigits(r[|r| - 2..]) && ValueOf(r[|r| - 2..]) == seconds % 60
  {
    var m := Decimal(seconds / 60);
    var ss := SecondsField(seconds % 60);
    ColonJoin(m, ss);
    ValueOfDecimal(seconds / 60);
    m + ":" + ss
  }

  /** Where the two fields of `m:ss` sit in the joined text. */
  lemma ColonJoin(m: string, ss: string)
    requires |ss| == 2
    ensures var r := m + ":" + ss;
      |r| == |m| + 3 && r[|r| - 3] == ':' && r[..|r| - 3] == m && r[|r| - 2..] == ss
  {
    var r := m + ":" + ss;
    assert r[..|r| - 3] == m;
    assert r[|r| - 2..] == ss;
  }

  /** The inverse reading of `m:ss`: a digit run, a colon, two digits below 60. */
  function ParseDuration(t: string): Option<nat>
  {
    if |t| < 4 || t[|t| - 3] != ':' || !AllDigits(t[..|t| - 3]) || !AllDigits(t[|t| - 2..]) then None
    else
      var mins := ValueOf(t[..|t| - 3]);
      var secs := ValueOf(t[|t| - 2..]);
      if secs >= 60 then None else Some(mins * 60 + secs)
  }

  /** Parsing what `FormatDuration` prints gives back the seconds: the
      minutes times sixty plus the two-digit field is the input. */
  lemma ParseFormatRoundTrip(seconds: nat)
    ensures ParseDuration(FormatDuration(seconds)) == Some(seconds)
  {
    ParseFields(FormatDuration(seconds), seconds / 60, seconds % 60);
    DivMod60(seconds);
  }

  /** `ParseDuration` on text of the shape `m:ss`. */
  lemma ParseFields(t: string, mins: nat, secs: nat)
    requires |t| >= 4 && t[|t| - 3] == ':'
    requires AllDigits(t[..|t| - 3]) && ValueOf(t[..|t| - 3]) == mins
    requires AllDigits(t[|t| - 2..]) && ValueOf(t[|t| - 2..]) == secs
    requires secs < 60
    ensures ParseDuration(t) == Some(mins * 60 + secs)
  {
  }

  lemma DivMod60(n: nat)
    ensures (n / 60) * 60 + n % 60 == n
  {
  }

  /** Different durations are shown differently. */
  lemma FormatDurationInjective(a: nat, b: nat)
    ensures a != b ==> FormatDuration(a) != FormatDuration(b)
  {
    ParseFormatRoundTrip(a);
    ParseFormatRoundTrip(b);
  }
}
