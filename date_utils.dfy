/** The `YYYYMMDD_HHmmss` timecode the stats API accepts, built from the UTC fields of a
    date (src/utils/date.utils.ts). */
module DateUtils {
  import opened Wrappers
  import opened Text

  /** The UTC fields a JavaScript `Date` reports; `month` is 0-based as `getUTCMonth()`. */
  datatype UtcDateTime = UtcDateTime(year: int, month: int, day: int, hours: int, minutes: int, seconds: int)

  /** The ranges `getUTCMonth()` ... `getUTCSeconds()` stay in. */
  predicate ValidFields(d: UtcDateTime)
  {
    && 0 <= d.month < 12 && 1 <= d.day <= 31
    && 0 <= d.hours < 24 && 0 <= d.minutes < 60 && 0 <= d.seconds < 60
  }

  /** `n.toString().padStart(2, "0")`. */
  function Pad2(n: int): string
  {
    PadStart(IntToString(n), 2, '0')
  }

  /** `date.format.timecode`. */
  function Timecode(d: UtcDateTime): string
  {
    IntToString(d.year) + Pad2(d.month + 1) + Pad2(d.day) + "_"
      + Pad2(d.hours) + Pad2(d.minutes) + Pad2(d.seconds)
  }

  /** Reads a 15-character timecode back into its fields (month back to 0-based). */
  function ParseTimecode(s: string): Option<UtcDateTime>
  {
    if |s| == 15 && s[8] == '_' && AllDigits(s[..8]) && AllDigits(s[9..]) then
      Some(UtcDateTime(ParseNat(s[..4]), ParseNat(s[4..6]) - 1, ParseNat(s[6..8]),
                       ParseNat(s[9..11]), ParseNat(s[11..13]), ParseNat(s[13..15])))
    else None
  }

  /** Every field below 100 prints as exactly two digits that read back as the field. */
  lemma Pad2Digits(n: int)
    requires 0 <= n < 100
    ensures |Pad2(n)| == 2 && AllDigits(Pad2(n)) && ParseNat(Pad2(n)) == n
  {
    NatToStringShort(n);
    ParseNatToString(n);
    var t := NatToString(n);
    if n < 10 {
      assert Pad2(n) == ['0'] + t;
      assert Pad2(n)[..1] == ['0'];
      assert ParseNat(['0']) == 0 by {
        assert ['0'][..0] == [];
      }
      assert t[..0] == [];
      assert ParseNat(t) == DigitValue(t[0]);
    } else {
      assert Pad2(n) == t;
    }
  }

  /** Slicing a concatenation of fixed-width pieces gives the pieces back. */
  lemma FixedWidthSlices(y: string, mo: string, da: string, h: string, mi: string, se: string)
    requires |y| == 4 && |mo| == 2 && |da| == 2 && |h| == 2 && |mi| == 2 && |se| == 2
    ensures var s := y + mo + da + "_" + h + mi + se;
      && |s| == 15 && s[8] == '_'
      && s[..4] == y && s[4..6] == mo && s[6..8] == da
      && s[9..11] == h && s[11..13] == mi && s[13..15] == se
      && s[..8] == y + mo + da && s[9..] == h + mi + se
  {
    var s := y + mo + da + "_" + h + mi + se;
    assert s[..4] == y;
  }

  lemma AllDigitsConcat3(a: string, b: string, c: string)
    requires AllDigits(a) && AllDigits(b) && AllDigits(c)
    ensures AllDigits(a + b + c)
  {
  }

  /** The pieces of a timecode: a four-digit year that reads back, and the timecode split into
      its six fields around `_`. The second clause is the step `TimecodeRoundTrip` starts from;
      proved here on its own, it keeps that proof small. */
  lemma TimecodePieces(d: UtcDateTime)
    requires ValidFields(d) && 1000 <= d.year <= 9999
    ensures var y := IntToString(d.year);
      |y| == 4 && AllDigits(y) && ParseNat(y) == d.year
    ensures Timecode(d) == IntToString(d.year) + Pad2(d.month + 1) + Pad2(d.day) + "_"
      + Pad2(d.hours) + Pad2(d.minutes) + Pad2(d.seconds)
  {
    NatToStringFourDigits(d.year);
    ParseNatToString(d.year);
  }

  /** Fixed-width digit pieces around `_` parse back into the date they encode. */
  lemma ParsePieces(y: string, mo: string, da: string, h: string, mi: string, se: string, d: UtcDateTime)
    requires |y| == 4 && |mo| == 2 && |da| == 2 && |h| == 2 && |mi| == 2 && |se| == 2
    requires AllDigits(y) && AllDigits(mo) && AllDigits(da) && AllDigits(h) && AllDigits(mi) && AllDigits(se)
    requires ParseNat(y) == d.year && ParseNat(mo) == d.month + 1 && ParseNat(da) == d.day
    requires ParseNat(h) == d.hours && ParseNat(mi) == d.minutes && ParseNat(se) == d.seconds
    ensures ParseTimecode(y + mo + da + "_" + h + mi + se) == Some(d)
  {
    var s := y + mo + da + "_" + h + mi + se;
    FixedWidthSlices(y, mo, da, h, mi, se);
    AllDigitsConcat3(y, mo, da);
    AllDigitsConcat3(h, mi, se);
    ParseSlices(s, d);
  }

  /** A 15-character string with `_` at index 8 and digits elsewhere parses field by field. */
  lemma ParseSlices(s: string, d: UtcDateTime)
    requires |s| == 15 && s[8] == '_' && AllDigits(s[..8]) && AllDigits(s[9..])
    requires ParseNat(s[..4]) == d.year && ParseNat(s[4..6]) == d.month + 1 && ParseNat(s[6..8]) == d.day
    requires ParseNat(s[9..11]) == d.hours && ParseNat(s[11..13]) == d.minutes && ParseNat(s[13..15]) == d.seconds
    ensures ParseTimecode(s) == Some(d)
  {
  }

  /** For a four-digit year the timecode is 15 characters, `_` sits at index 8, the month
      is printed 1-based, and every field can be read back. */
  lemma {:induction false} TimecodeRoundTrip(d: UtcDateTime)
    requires ValidFields(d) && 1000 <= d.year <= 9999
    ensures |Timecode(d)| == 15 && Timecode(d)[8] == '_'
    ensures AllDigits(Timecode(d)[4..6]) && ParseNat(Timecode(d)[4..6]) == d.month + 1
    ensures ParseTimecode(Timecode(d)) == Some(d)
  {
    TimecodePieces(d);
    var y, mo, da, h, mi, se := IntToString(d.year), Pad2(d.month + 1), Pad2(d.day), Pad2(d.hours), Pad2(d.minutes), Pad2(d.seconds);
    Pad2Digits(d.month + 1);
    Pad2Digits(d.day);
    Pad2Digits(d.hours);
    Pad2Digits(d.minutes);
    Pad2Digits(d.seconds);
    FixedWidthSlices(y, mo, da, h, mi, se);
    ParsePieces(y, mo, da, h, mi, se, d);
  }
}
