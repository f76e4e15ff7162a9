/**
 * Calendar instants as `datetime.utcnow()` returns them, and their
 * `isoformat()` rendering. The clock itself is not modelled: every reading
 * of it is a parameter of the operation that reads it.
 */
module Clock {
  import opened Text

  datatype RawDateTime = DateTime(year: int, month: int, day: int,
                                  hour: int, minute: int, second: int, microsecond: int)

  /** The field ranges Python's `datetime` enforces (day-of-month lengths not modelled). */
  predicate WellFormed(t: RawDateTime) {
    && 1 <= t.year <= 9999 && 1 <= t.month <= 12 && 1 <= t.day <= 31
    && 0 <= t.hour <= 23 && 0 <= t.minute <= 59 && 0 <= t.second <= 59
    && 0 <= t.microsecond <= 999999
  }

  type DateTime = t: RawDateTime | WellFormed(t) witness DateTime(1970, 1, 1, 0, 0, 0, 0)

  /** Three fields joined by two separators, as `f"{a}{x}{b}{y}{c}"`. */
  function Join3(a: string, x: char, b: string, y: char, c: string): (s: string)
    ensures |s| == |a| + |b| + |c| + 2 && s[|a|] == x && s[|a| + 1 + |b|] == y
  {
    a + [x] + b + [y] + c
  }

  /** The three fields can be read back from their joined form. */
  lemma Join3Parts(a: string, x: char, b: string, y: char, c: string)
    ensures var s := Join3(a, x, b, y, c);
            s[..|a|] == a && s[|a| + 1..|a| + 1 + |b|] == b && s[|a| + 2 + |b|..] == c
  {
    var s := Join3(a, x, b, y, c);
    assert s[..|a|] == a;
    assert s[|a| + 1..|a| + 1 + |b|] == b;
    assert s[|a| + 2 + |b|..] == c;
  }

  /** `YYYY-MM-DD` */
  function DatePart(t: DateTime): (s: string)
    ensures |s| == 10 && s[4] == '-' && s[7] == '-'
  {
    Join3(PaddedDigits(t.year, 4), '-', PaddedDigits(t.month, 2), '-', PaddedDigits(t.day, 2))
  }

  /** The date part is three digit groups holding the year, the month and the day. */
  lemma DatePartDigits(t: DateTime)
    ensures var s := DatePart(t);
            && AllDigits(s[..4]) && AllDigits(s[5..7]) && AllDigits(s[8..])
            && DigitsValue(s[..4]) == t.year && DigitsValue(s[5..7]) == t.month
            && DigitsValue(s[8..]) == t.day
  {
    Join3Parts(PaddedDigits(t.year, 4), '-', PaddedDigits(t.month, 2), '-', PaddedDigits(t.day, 2));
    PaddedDigitsRoundTrip(t.year, 4);
    PaddedDigitsRoundTrip(t.month, 2);
    PaddedDigitsRoundTrip(t.day, 2);
  }

  /** `HH:MM:SS` */
  function TimePart(t: DateTime): (s: string)
    ensures |s| == 8 && s[2] == ':' && s[5] == ':'
  {
    Join3(PaddedDigits(t.hour, 2), ':', PaddedDigits(t.minute, 2), ':', PaddedDigits(t.second, 2))
  }

  /** The time part is three digit groups holding the hour, the minute and the second. */
  lemma TimePartDigits(t: DateTime)
    ensures var s := TimePart(t);
            && AllDigits(s[..2]) && AllDigits(s[3..5]) && AllDigits(s[6..])
            && DigitsValue(s[..2]) == t.hour && DigitsValue(s[3..5]) == t.minute
            && DigitsValue(s[6..]) == t.second
  {
    Join3Parts(PaddedDigits(t.hour, 2), ':', PaddedDigits(t.minute, 2), ':', PaddedDigits(t.second, 2));
    PaddedDigitsRoundTrip(t.hour, 2);
    PaddedDigitsRoundTrip(t.minute, 2);
    PaddedDigitsRoundTrip(t.second, 2);
  }

  /** `.ffffff` when the microsecond is not zero, nothing otherwise. */
  function MicroPart(t: DateTime): (s: string)
    ensures |s| == if t.microsecond == 0 then 0 else 7
    ensures t.microsecond != 0 ==> s[0] == '.'
  {
    if t.microsecond == 0 then "" else "." + PaddedDigits(t.microsecond, 6)
  }

  /** A non-empty microsecond part is six digits holding the microsecond. */
  lemma MicroPartDigits(t: DateTime)
    requires t.microsecond != 0
    ensures AllDigits(MicroPart(t)[1..]) && DigitsValue(MicroPart(t)[1..]) == t.microsecond
  {
    PaddedDigitsRoundTrip(t.microsecond, 6);
    assert MicroPart(t)[1..] == PaddedDigits(t.microsecond, 6);
  }

  /** 19 characters, or 26 when the microsecond part is present. */
  function IsoLength(t: DateTime): nat {
    if t.microsecond == 0 then 19 else 26
  }

  /** Character `i` of the rendering: the date part, `T`, the time part, the microsecond part. */
  function IsoChar(t: DateTime, i: nat): char
    requires i < IsoLength(t)
  {
    if i < 10 then DatePart(t)[i]
    else if i == 10 then 'T'
    else if i < 19 then TimePart(t)[i - 11]
    else MicroPart(t)[i - 19]
  }

  /**
   * `t.isoformat()`: `YYYY-MM-DDTHH:MM:SS`, followed by `.ffffff` only when the
   * microsecond is not zero. Built character by character; `IsoFormatParts`
   * shows it is the concatenation of the three parts.
   */
  function IsoFormat(t: DateTime): (s: string)
    ensures |s| == if t.microsecond == 0 then 19 else 26
    ensures s[10] == 'T'
  {
    seq(IsoLength(t), i requires 0 <= i < IsoLength(t) => IsoChar(t, i))
  }

  /** The rendering is the date part, `T`, the time part and the microsecond part. */
  lemma IsoFormatParts(t: DateTime)
    ensures IsoFormat(t) == DatePart(t) + "T" + TimePart(t) + MicroPart(t)
    ensures var s := IsoFormat(t);
            s[..10] == DatePart(t) && s[11..19] == TimePart(t) && s[19..] == MicroPart(t)
  {
    var s := IsoFormat(t);
    var c := DatePart(t) + "T" + TimePart(t) + MicroPart(t);
    assert |s| == |c|;
    forall i | 0 <= i < |s|
      ensures s[i] == c[i]
    {
      assert s[i] == IsoChar(t, i);
    }
    assert s == c;
    assert s[..10] == DatePart(t);
    assert s[11..19] == TimePart(t);
    assert s[19..] == MicroPart(t);
  }

  /** Two instants with the same rendering are the same instant. */
  lemma IsoFormatInjective(t: DateTime, u: DateTime)
    requires IsoFormat(t) == IsoFormat(u)
    ensures t == u
  {
    IsoFormatParts(t);
    IsoFormatParts(u);
    DatePartDigits(t);
    DatePartDigits(u);
    TimePartDigits(t);
    TimePartDigits(u);
    if t.microsecond != 0 {
      MicroPartDigits(t);
      MicroPartDigits(u);
    }
  }
}
