/** `formatTime(hours, minutes)` of utils/time.ts: "HH:MM" with each part left-padded by "0" to two characters. */
module TimeFormat {
  import opened Wrappers
  import opened Decimal

  /** `s.padStart(2, "0")`: strings of two or more characters are kept whole. */
  function PadStart2(s: string): (r: string)
    ensures |r| == if |s| >= 2 then |s| else 2
    ensures r[|r| - |s|..] == s
    ensures forall i :: 0 <= i < |r| - |s| ==> r[i] == '0'
  {
    if |s| >= 2 then s else if |s| == 1 then "0" + s else "00"
  }

  /** The text of one part: `String(v).padStart(2, "0")`. */
  function Part(v: int): string {
    PadStart2(IntToString(v))
  }

  function FormatTime(hours: int, minutes: int): string {
    Part(hours) + ":" + Part(minutes)
  }

  /** Position of the first ':' in `s`, if any. */
  function IndexOfColon(s: string): (r: Option<nat>)
    ensures r.Some? ==> r.value < |s| && s[r.value] == ':' && ':' !in s[..r.value]
    ensures r.None? ==> ':' !in s
  {
    if s == [] then None
    else if s[0] == ':' then Some(0)
    else match IndexOfColon(s[1..])
      case None => None
      case Some(k) => assert s[..k + 1] == [s[0]] + s[1..][..k]; Some(k + 1)
  }

  /** Reads "H:M" back: split at the first ':' and read each side with `Number`. */
  function ParseTime(s: string): Option<(JsNumber, JsNumber)> {
    match IndexOfColon(s)
    case None => None
    case Some(k) => Some((ParseNumber(s[..k]), ParseNumber(s[k + 1..])))
  }

  /** A single digit gets one leading "0". */
  lemma SingleDigitPadded(v: int)
    requires 0 <= v <= 9
    ensures Part(v) == ['0', DigitChar(v)]
  {
  }

  /** Two digits are kept as they are. */
  lemma TwoDigitsKept(v: int)
    requires 10 <= v <= 99
    ensures Part(v) == [DigitChar(v / 10), DigitChar(v % 10)]
  {
    var q := v / 10;
    assert q < 10;
    assert NatToString(v) == NatToString(q) + [DigitChar(v % 10)];
    assert NatToString(q) == [DigitChar(q)];
  }

  /** For hours and minutes below 100 the text is exactly "HH:MM". */
  lemma FixedShape(hours: int, minutes: int)
    requires 0 <= hours <= 99 && 0 <= minutes <= 99
    ensures |FormatTime(hours, minutes)| == 5 && FormatTime(hours, minutes)[2] == ':'
    ensures AllDigits(FormatTime(hours, minutes)[..2]) && AllDigits(FormatTime(hours, minutes)[3..])
  {
    TwoDigitPart(hours);
    TwoDigitPart(minutes);
    var h, m := Part(hours), Part(minutes);
    var t := h + ":" + m;
    assert t[..2] == h;
    assert t[3..] == m;
  }

  /** A value below 100 becomes exactly two digits. */
  lemma TwoDigitPart(v: int)
    requires 0 <= v <= 99
    ensures |Part(v)| == 2 && AllDigits(Part(v))
  {
    if v <= 9 {
      SingleDigitPadded(v);
    } else {
      TwoDigitsKept(v);
    }
  }

  /** Padding only ever adds characters: the full decimal text of the hours leads the result. */
  lemma NeverTruncated(hours: int, minutes: int)
    ensures |Part(hours)| >= |IntToString(hours)|
    ensures hours >= 10 ==> FormatTime(hours, minutes)[..|IntToString(hours)|] == IntToString(hours)
  {
  }

  /** Decimal text of an integer never contains ':'. */
  lemma NoColonInPart(v: int)
    ensures ':' !in Part(v)
  {
    var s := IntToString(v);
    var p := Part(v);
    forall i | 0 <= i < |p|
      ensures p[i] != ':'
    {
      if i >= |p| - |s| {
        var j := i - (|p| - |s|);
        assert p[i] == s[j];
        if v < 0 && j > 0 {
          assert s[j] == s[1..][j - 1];
        }
      }
    }
  }

  /** A part reads back, with `Number`, as the value it was written from. */
  lemma PartRoundTrip(v: int)
    ensures ParseNumber(Part(v)) == Num(v)
  {
    IntRoundTrip(v);
    var s := IntToString(v);
    if |s| == 1 {
      LeadingZeroIgnored(s);
    }
  }

  /** Text with one ':' after a colon-free prefix splits at that colon. */
  lemma SplitAtFirstColon(a: string, b: string)
    requires ':' !in a
    ensures ParseTime(a + ":" + b) == Some((ParseNumber(a), ParseNumber(b)))
  {
    var s := a + ":" + b;
    assert s[|a|] == ':' && s[..|a|] == a && s[|a| + 1..] == b;
  }

  /** Splitting the result at ':' and reading both sides gives back the hours and the minutes. */
  lemma FormatParseRoundTrip(hours: int, minutes: int)
    ensures ParseTime(FormatTime(hours, minutes)) == Some((Num(hours), Num(minutes)))
  {
    NoColonInPart(hours);
    PartRoundTrip(hours);
    PartRoundTrip(minutes);
    SplitAtFirstColon(Part(hours), Part(minutes));
  }
}
