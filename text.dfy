/** The string primitives the source uses: `padStart`/`padEnd` with a one-character filler,
    `Array.prototype.join`, number-to-decimal conversion, ASCII lower-casing, and Discord's
    `bold` wrapper. */
module Text {
  import opened Wrappers

  function Max(a: int, b: int): int {
    if a < b then b else a
  }

  /** `n` copies of `c`; `"".padEnd(n, c)` for a one-character filler. */
  function Repeat(c: char, n: nat): (r: string)
    ensures |r| == n
    ensures forall i :: 0 <= i < n ==> r[i] == c
  {
    if n == 0 then [] else Repeat(c, n - 1) + [c]
  }

  /** `s.padStart(width, fill)`: never truncates, fills on the left up to `width`. */
  function PadStart(s: string, width: int, fill: char): (r: string)
    ensures |r| == Max(|s|, width)
    ensures r[|r| - |s|..] == s
    ensures forall i :: 0 <= i < |r| - |s| ==> r[i] == fill
  {
    if width <= |s| then s else Repeat(fill, width - |s|) + s
  }

  /** `s.padEnd(width, fill)`: never truncates, fills on the right up to `width`. */
  function PadEnd(s: string, width: int, fill: char): (r: string)
    ensures |r| == Max(|s|, width)
    ensures r[..|s|] == s
    ensures forall i :: |s| <= i < |r| ==> r[i] == fill
  {
    if width <= |s| then s else s + Repeat(fill, width - |s|)
  }

  /** `parts.join(sep)`. */
  function Join(parts: seq<string>, sep: string): string
    decreases |parts|
  {
    if |parts| == 0 then ""
    else if |parts| == 1 then parts[0]
    else parts[0] + sep + Join(parts[1..], sep)
  }

  /** Joining one more part puts exactly one separator in front of it. */
  lemma {:induction false} JoinSnoc(parts: seq<string>, x: string, sep: string)
    requires |parts| > 0
    ensures Join(parts + [x], sep) == Join(parts, sep) + sep + x
    decreases |parts|
  {
    if |parts| == 1 {
      assert parts + [x] == [parts[0], x];
      assert Join([x], sep) == x;
    } else {
      assert (parts + [x])[1..] == parts[1..] + [x];
      JoinSnoc(parts[1..], x, sep);
    }
  }

  function Count(s: string, c: char): nat
  {
    if |s| == 0 then 0 else Count(s[..|s| - 1], c) + (if s[|s| - 1] == c then 1 else 0)
  }

  lemma {:induction false} CountConcat(a: string, b: string, c: char)
    ensures Count(a + b, c) == Count(a, c) + Count(b, c)
    decreases |b|
  {
    if |b| == 0 {
      assert a + b == a;
    } else {
      assert (a + b)[..|a + b| - 1] == a + b[..|b| - 1];
      CountConcat(a, b[..|b| - 1], c);
    }
  }

  /** Joining parts that do not contain `c` with the one-character separator `c` puts exactly
      one `c` between consecutive parts, so the result splits back into `|parts|` pieces. */
  lemma {:induction false} JoinSeparatorCount(parts: seq<string>, c: char)
    requires forall i :: 0 <= i < |parts| ==> Count(parts[i], c) == 0
    ensures Count(Join(parts, [c]), c) == if |parts| == 0 then 0 else |parts| - 1
    decreases |parts|
  {
    if |parts| > 1 {
      JoinSeparatorCount(parts[1..], c);
      CountConcat(parts[0], [c], c);
      CountConcat(parts[0] + [c], Join(parts[1..], [c]), c);
      assert Count([c], c) == 1 by {
        assert [c][..0] == [];
      }
    }
  }

  lemma {:induction false} CountZero(s: string, c: char)
    requires forall k :: 0 <= k < |s| ==> s[k] != c
    ensures Count(s, c) == 0
    decreases |s|
  {
    if |s| > 0 {
      CountZero(s[..|s| - 1], c);
    }
  }

  function DigitChar(d: nat): (c: char)
    requires d < 10
    ensures '0' <= c <= '9'
  {
    (48 + d) as char
  }

  predicate IsDigit(c: char) {
    '0' <= c <= '9'
  }

  predicate AllDigits(s: string) {
    forall i :: 0 <= i < |s| ==> IsDigit(s[i])
  }

  function DigitValue(c: char): nat
    requires IsDigit(c)
  {
    c as nat - 48
  }

  /** The decimal text of a non-negative JavaScript number with an integral value. */
  function NatToString(n: nat): (r: string)
    ensures |r| > 0 && AllDigits(r)
    decreases n
  {
    if n < 10 then [DigitChar(n)] else NatToString(n / 10) + [DigitChar(n % 10)]
  }

  /** `${i}` for an integral JavaScript number. */
  function IntToString(i: int): string
  {
    if i < 0 then "-" + NatToString(-i) else NatToString(i)
  }

  /** The value of a string of decimal digits. */
  function ParseNat(s: string): nat
    requires AllDigits(s)
    decreases |s|
  {
    if |s| == 0 then 0 else ParseNat(s[..|s| - 1]) * 10 + DigitValue(s[|s| - 1])
  }

  /** Decimal printing is undone by parsing. */
  lemma {:induction false} ParseNatToString(n: nat)
    ensures ParseNat(NatToString(n)) == n
    decreases n
  {
    var s := NatToString(n);
    if n >= 10 {
      ParseNatToString(n / 10);
      assert s[..|s| - 1] == NatToString(n / 10);
    }
  }

  lemma NatToStringInjective(a: nat, b: nat)
    requires NatToString(a) == NatToString(b)
    ensures a == b
  {
    ParseNatToString(a);
    ParseNatToString(b);
  }

  /** A one- or two-digit number prints with the number of digits it has. */
  lemma NatToStringShort(n: nat)
    requires n < 100
    ensures |NatToString(n)| == if n < 10 then 1 else 2
  {
    if n >= 10 {
      assert NatToString(n / 10) == [DigitChar(n / 10)];
    }
  }

  lemma NatToStringFourDigits(n: nat)
    requires 1000 <= n < 10000
    ensures |NatToString(n)| == 4
  {
    assert NatToString(n / 1000) == [DigitChar(n / 1000)];
    assert NatToString(n / 100) == NatToString(n / 1000) + [DigitChar((n / 100) % 10)];
    assert NatToString(n / 10) == NatToString(n / 100) + [DigitChar((n / 10) % 10)];
  }

  /** Decimal text is made of digits and, for a negative number, a leading minus. */
  lemma IntToStringChars(i: int)
    ensures forall k :: 0 <= k < |IntToString(i)| ==> IsDigit(IntToString(i)[k]) || IntToString(i)[k] == '-'
    ensures |IntToString(i)| > 0 && (IntToString(i)[0] == '-' <==> i < 0)
  {
  }

  lemma {:induction false} IntToStringInjective(a: int, b: int)
    requires IntToString(a) == IntToString(b)
    ensures a == b
  {
    IntToStringChars(a);
    IntToStringChars(b);
    if a < 0 && b < 0 {
      assert NatToString(-a) == IntToString(a)[1..] == IntToString(b)[1..] == NatToString(-b);
      NatToStringInjective(-a, -b);
    } else if a >= 0 && b >= 0 {
      NatToStringInjective(a, b);
    }
  }

  lemma SeparatorAt(a: string, b: string, sep: char)
    ensures (a + [sep] + b)[|a|] == sep
  {
  }

  /** A separator that occurs in neither left part splits two equal concatenations at the
      same place. */
  lemma {:induction false} SplitAtSeparator(a: string, b: string, a': string, b': string, sep: char)
    requires forall k :: 0 <= k < |a| ==> a[k] != sep
    requires forall k :: 0 <= k < |a'| ==> a'[k] != sep
    requires a + [sep] + b == a' + [sep] + b'
    ensures a == a' && b == b'
  {
    var s := a + [sep] + b;
    if |a| < |a'| {
      SeparatorAt(a, b, sep);
      assert false;
    } else if |a'| < |a| {
      SeparatorAt(a', b', sep);
      assert false;
    }
    assert a == s[..|a|] == a';
    assert b == s[|a| + 1..] == b';
  }

  /** A fixed prefix, then a part free of `sep`, then `sep`: equal strings of this shape agree
      on the part and on what follows. */
  lemma PrefixedSplit(p: string, x: string, r: string, x': string, r': string, sep: char)
    requires forall k :: 0 <= k < |x| ==> x[k] != sep
    requires forall k :: 0 <= k < |x'| ==> x'[k] != sep
    requires p + x + [sep] + r == p + x' + [sep] + r'
    ensures x == x' && r == r'
  {
    assert p + (x + [sep] + r) == p + x + [sep] + r;
    assert p + (x' + [sep] + r') == p + x' + [sep] + r';
    DropPrefix(p, x + [sep] + r, x' + [sep] + r');
    SplitAtSeparator(x, r, x', r', sep);
  }

  /** Two equal strings with the same fixed prefix agree after it. */
  lemma DropPrefix(p: string, x: string, y: string)
    requires p + x == p + y
    ensures x == y
  {
    assert x == (p + x)[|p|..];
  }

  function LowerChar(c: char): char
  {
    if 'A' <= c <= 'Z' then (c as int + 32) as char else c
  }

  /** `s.toLowerCase()` restricted to the Latin capitals A-Z. */
  function ToLower(s: string): (r: string)
    ensures |r| == |s|
    ensures forall i :: 0 <= i < |s| ==> r[i] == LowerChar(s[i])
  {
    seq(|s|, i requires 0 <= i < |s| => LowerChar(s[i]))
  }

  /** The length of the longest string, 0 for none. */
  function MaxLen(names: seq<string>): (r: nat)
    ensures forall i :: 0 <= i < |names| ==> |names[i]| <= r
    ensures |names| == 0 ==> r == 0
    decreases |names|
  {
    if |names| == 0 then 0
    else
      var init := names[..|names| - 1];
      var m := MaxLen(init);
      assert forall i :: 0 <= i < |init| ==> init[i] == names[i];
      if m < |names[|names| - 1]| then |names[|names| - 1]| else m
  }

  /** The longest length is the length of one of the strings. */
  lemma {:induction false} MaxLenAttained(names: seq<string>)
    requires |names| > 0
    ensures exists i :: 0 <= i < |names| && |names[i]| == MaxLen(names)
    decreases |names|
  {
    var init := names[..|names| - 1];
    if |init| > 0 && MaxLen(init) >= |names[|names| - 1]| {
      MaxLenAttained(init);
      var i :| 0 <= i < |init| && |init[i]| == MaxLen(init);
      assert names[i] == init[i];
    } else {
      assert |names[|names| - 1]| == MaxLen(names);
    }
  }

  /** The longer of two longest lengths is 0 for no strings, and otherwise the length of one of
      the strings in either list. */
  lemma MaxLenOfTwoAttained(a: seq<string>, b: seq<string>)
    ensures |a| == 0 && |b| == 0 ==> Max(MaxLen(a), MaxLen(b)) == 0
    ensures |a| + |b| > 0 ==>
      || (exists i :: 0 <= i < |a| && |a[i]| == Max(MaxLen(a), MaxLen(b)))
      || (exists i :: 0 <= i < |b| && |b[i]| == Max(MaxLen(a), MaxLen(b)))
  {
    if |a| > 0 {
      MaxLenAttained(a);
    }
    if |b| > 0 {
      MaxLenAttained(b);
    }
  }

  /** One more string raises the longest length to its own length if it is longer. */
  lemma MaxLenSnoc(names: seq<string>, x: string)
    ensures MaxLen(names + [x]) == Max(MaxLen(names), |x|)
  {
    assert (names + [x])[..|names|] == names;
  }

  /** The digits `parseInt` reads before the first non-digit. */
  function LeadingDigits(s: string): (r: string)
    ensures r <= s && AllDigits(r)
    ensures AllDigits(s) ==> r == s
    decreases |s|
  {
    if |s| == 0 || !IsDigit(s[0]) then [] else [s[0]] + LeadingDigits(s[1..])
  }

  /** `parseInt(s)` on text with no sign or leading blanks: the value of the leading digits,
      `None` (NaN) when there are none. */
  function ParseIntText(s: string): (r: Option<int>)
    ensures AllDigits(s) && |s| > 0 ==> r == Some(ParseNat(s))
    ensures |s| == 0 || !IsDigit(s[0]) ==> r.None?
  {
    var d := LeadingDigits(s);
    if |d| == 0 then None else Some(ParseNat(d))
  }

  /** Discord's `bold`: the text between two pairs of asterisks. */
  function Bold(s: string): string
  {
    "**" + s + "**"
  }
}
