/** The JavaScript string built-ins the service relies on: `String.prototype.split`
    with a one-character separator, `String(n)` for integers and
    `String.prototype.padStart`. Each is given a value-level definition and the
    properties the service needs, proved once here. */
module Text {

  import opened Wrappers

  // ---------------------------------------------------------------------------
  // split / join
  // ---------------------------------------------------------------------------

  /** The separator-joined concatenation of `parts`; the inverse of `Split`. */
  function Join(parts: seq<string>, sep: char): string
    requires |parts| >= 1
  {
    if |parts| == 1 then parts[0] else parts[0] + [sep] + Join(parts[1..], sep)
  }

  /** `s.split(sep)` for a one-character separator: the maximal separator-free
      pieces of `s`, in order, including empty ones at the ends and between
      adjacent separators. */
  function Split(s: string, sep: char): (parts: seq<string>)
    ensures |parts| >= 1
    ensures forall k :: 0 <= k < |parts| ==> sep !in parts[k]
    ensures Join(parts, sep) == s
    decreases |s|
  {
    if |s| == 0 then [""]
    else
      var rest := Split(s[1..], sep);
      if s[0] == sep then
        assert s == [sep] + s[1..];
        [""] + rest
      else
        JoinExtendFirst(s[0], rest, sep);
        assert s == [s[0]] + s[1..];
        [[s[0]] + rest[0]] + rest[1..]
  }

  /** Prepending a character to the first piece prepends it to the joined string. */
  lemma {:induction false} JoinExtendFirst(c: char, parts: seq<string>, sep: char)
    requires |parts| >= 1
    ensures Join([[c] + parts[0]] + parts[1..], sep) == [c] + Join(parts, sep)
  {
    var q := [[c] + parts[0]] + parts[1..];
    assert q[0] == [c] + parts[0] && q[1..] == parts[1..];
    if |parts| > 1 {
      assert Join(q, sep) == q[0] + [sep] + Join(q[1..], sep);
    }
  }

  /** Splitting a separator-free prefix `p` followed by `t` glues `p` onto the
      first piece of `t`. */
  lemma {:induction false} SplitSeparatorFreePrefix(p: string, t: string, sep: char)
    requires sep !in p
    ensures Split(p + t, sep) == [p + Split(t, sep)[0]] + Split(t, sep)[1..]
    decreases |p|
  {
    var st := Split(t, sep);
    if |p| == 0 {
      assert p + t == t;
      assert p + st[0] == st[0];
      assert [st[0]] + st[1..] == st;
    } else {
      var p' := p[1..];
      assert (p + t)[1..] == p' + t;
      assert (p + t)[0] == p[0];
      SplitSeparatorFreePrefix(p', t, sep);
      var r := Split(p' + t, sep);
      assert r[0] == p' + st[0] && r[1..] == st[1..];
      assert [p[0]] + (p' + st[0]) == p + st[0];
    }
  }

  /** Splitting a joined list of separator-free pieces gives the pieces back:
      `Split` and `Join` are inverse bijections. */
  lemma {:induction false} SplitJoin(parts: seq<string>, sep: char)
    requires |parts| >= 1
    requires forall k :: 0 <= k < |parts| ==> sep !in parts[k]
    ensures Split(Join(parts, sep), sep) == parts
    decreases |parts|
  {
    if |parts| == 1 {
      SplitSeparatorFreePrefix(parts[0], "", sep);
      assert parts[0] + "" == parts[0];
    } else {
      var j := Join(parts[1..], sep);
      SplitJoin(parts[1..], sep);
      assert Join(parts, sep) == parts[0] + ([sep] + j);
      SplitSeparatorFreePrefix(parts[0], [sep] + j, sep);
      assert ([sep] + j)[1..] == j;
      assert Split([sep] + j, sep) == [""] + parts[1..];
      assert parts[0] + "" == parts[0];
      assert [parts[0]] + parts[1..] == parts;
    }
  }

  /** `array[i]` on the result of a split: JavaScript yields `undefined` past the end. */
  function PieceAt(parts: seq<string>, i: nat): (r: Option<string>)
    ensures r.Some? <==> i < |parts|
    ensures r.Some? ==> r.value == parts[i]
  {
    if i < |parts| then Some(parts[i]) else None
  }

  // ---------------------------------------------------------------------------
  // decimal digits
  // ---------------------------------------------------------------------------

  predicate IsDigit(c: char) { '0' <= c <= '9' }

  predicate AllDigits(s: string) { forall k :: 0 <= k < |s| ==> IsDigit(s[k]) }

  function DigitChar(d: int): (c: char)
    requires 0 <= d < 10
    ensures IsDigit(c) && c as int - '0' as int == d
  {
    ('0' as int + d) as char
  }

  /** The number a decimal digit string denotes (most significant digit first). */
  function DigitsValue(s: string): int
  {
    if |s| == 0 then 0 else DigitsValue(s[..|s| - 1]) * 10 + (s[|s| - 1] as int - '0' as int)
  }

  function Pow10(k: nat): (r: nat)
    ensures r >= 1
  {
    if k == 0 then 1 else 10 * Pow10(k - 1)
  }

  lemma {:induction false} Pow10Monotone(i: nat, j: nat)
    requires i <= j
    ensures Pow10(i) <= Pow10(j)
    decreases j
  {
    if i < j {
      Pow10Monotone(i, j - 1);
    }
  }

  /** `String(n)` for a non-negative integer: its decimal digits, with no leading zero. */
  function NatToString(n: nat): (s: string)
    ensures |s| >= 1 && AllDigits(s)
    ensures DigitsValue(s) == n
    ensures s[0] == '0' ==> n == 0
  {
    if n < 10 then [DigitChar(n)]
    else
      var s := NatToString(n / 10) + [DigitChar(n % 10)];
      assert s[..|s| - 1] == NatToString(n / 10);
      s
  }

  /** `String(i)` for an integer: a minus sign before the magnitude's digits. */
  function IntToString(i: int): string
  {
    if i < 0 then "-" + NatToString(-i) else NatToString(i)
  }

  /** `String(i)` denotes `i`: a non-negative number is a digit string with no
      leading zero; a negative one is '-' before the digits of its magnitude,
      which do not start with '0'. */
  lemma IntToStringDigits(i: int)
    ensures var s := IntToString(i);
      i >= 0 ==> |s| >= 1 && AllDigits(s) && DigitsValue(s) == i && (s[0] == '0' ==> i == 0)
    ensures var s := IntToString(i);
      i < 0 ==> |s| >= 2 && s[0] == '-' && AllDigits(s[1..]) && DigitsValue(s[1..]) == -i && s[1] != '0'
  {
    if i < 0 {
      assert IntToString(i)[1..] == NatToString(-i);
    }
  }

  /** A digit string of length k denotes a number below 10^k, and at least
      10^(k-1) when it does not start with '0'. */
  lemma {:induction false} DigitsValueBounds(s: string)
    requires AllDigits(s)
    ensures 0 <= DigitsValue(s) < Pow10(|s|)
    ensures |s| >= 1 && s[0] != '0' ==> DigitsValue(s) >= Pow10(|s| - 1)
    decreases |s|
  {
    if |s| > 0 {
      var s' := s[..|s| - 1];
      DigitsValueBounds(s');
      if |s| >= 2 {
        assert s'[0] == s[0];
      }
    }
  }

  /** The decimal form of n has at most k digits exactly when n < 10^k. */
  lemma NatToStringWidth(n: nat, k: nat)
    requires k >= 1
    ensures |NatToString(n)| <= k <==> n < Pow10(k)
  {
    var s := NatToString(n);
    DigitsValueBounds(s);
    if |s| <= k {
      Pow10Monotone(|s|, k);
    } else if n != 0 {
      Pow10Monotone(k, |s| - 1);
    }
  }

  /** The decimal form of n has exactly k digits when 10^(k-1) <= n < 10^k. */
  lemma NatToStringLength(n: nat, k: nat)
    requires 1 <= k && Pow10(k - 1) <= n < Pow10(k)
    ensures |NatToString(n)| == k
  {
    NatToStringWidth(n, k);
    if k > 1 {
      NatToStringWidth(n, k - 1);
    }
  }

  // ---------------------------------------------------------------------------
  // padStart
  // ---------------------------------------------------------------------------

  function Repeat(c: char, n: nat): (r: string)
    ensures |r| == n && forall k :: 0 <= k < n ==> r[k] == c
  {
    if n == 0 then "" else Repeat(c, n - 1) + [c]
  }

  /** `s.padStart(width, fill)` with a one-character fill: `s` itself when it
      is already `width` long, otherwise `s` preceded by enough copies of `fill`. */
  function PadStart(s: string, width: nat, fill: char): (r: string)
    ensures |r| == if |s| >= width then |s| else width
    ensures r[|r| - |s|..] == s
    ensures forall k :: 0 <= k < |r| - |s| ==> r[k] == fill
  {
    if |s| >= width then s else Repeat(fill, width - |s|) + s
  }

  /** Zero-padding a number below 100 to two places gives exactly two characters. */
  lemma TwoDigitWidth(v: nat)
    requires v < 100
    ensures |PadStart(NatToString(v), 2, '0')| == 2
  {
    NatToStringWidth(v, 2);
  }

  /** Zero-padding a number below 100 to two places gives two digits that
      still denote that number. */
  lemma TwoDigits(v: nat)
    requires v < 100
    ensures var p := PadStart(NatToString(v), 2, '0');
            |p| == 2 && AllDigits(p) && DigitsValue(p) == v
  {
    var s := NatToString(v);
    if v < 10 {
      var c := DigitChar(v);
      assert s == [c];
      assert PadStart(s, 2, '0') == ['0', c];
      LeadingZero(c);
    } else {
      NatToStringLength(v, 2);
    }
  }

  /** A '0' in front of a digit leaves its value unchanged. */
  lemma LeadingZero(c: char)
    requires IsDigit(c)
    ensures DigitsValue(['0', c]) == c as int - '0' as int
  {
    assert ['0', c][..1] == ['0'];
    assert ['0'][..0] == [];
  }

  // ---------------------------------------------------------------------------
  // character classes
  // ---------------------------------------------------------------------------

  predicate DigitsOrDashes(s: string)
  {
    forall k :: 0 <= k < |s| ==> IsDigit(s[k]) || s[k] == '-'
  }

  lemma DigitsOrDashesConcat(a: string, b: string)
    requires DigitsOrDashes(a) && DigitsOrDashes(b)
    ensures DigitsOrDashes(a + b)
  {
  }

  lemma IntToStringChars(i: int)
    ensures DigitsOrDashes(IntToString(i))
  {
  }

  lemma PaddedChars(s: string)
    requires DigitsOrDashes(s)
    ensures DigitsOrDashes(PadStart(s, 2, '0'))
  {
  }

  lemma DigitsOrDashesQuerySafe(s: string)
    requires DigitsOrDashes(s)
    ensures '?' !in s && '&' !in s && '=' !in s
  {
  }
}
