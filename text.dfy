/**
 * The string helpers the diagnostics are built from: decimal rendering of
 * numbers (Python's `str(int)`), `str.split` / `str.join` on one separator,
 * counting a character, and ASCII case folding.
 */
module Text {

  function DigitChar(d: nat): (c: char)
    requires d < 10
    ensures '0' <= c <= '9' && (c as int) - ('0' as int) == d
  {
    "0123456789"[d]
  }

  predicate IsDigits(s: string) {
    forall i :: 0 <= i < |s| ==> '0' <= s[i] <= '9'
  }

  /** Decimal rendering of a natural number, as Python's `str(n)` prints it. */
  function NatToString(n: nat): (s: string)
    ensures |s| >= 1 && IsDigits(s)
    ensures |s| > 1 ==> s[0] != '0'
    decreases n
  {
    if n < 10 then [DigitChar(n)] else NatToString(n / 10) + [DigitChar(n % 10)]
  }

  /** The number a string of decimal digits denotes (most significant first). */
  function DigitsValue(s: string): nat
    requires IsDigits(s)
  {
    if s == [] then 0
    else DigitsValue(s[..|s| - 1]) * 10 + ((s[|s| - 1] as int) - ('0' as int))
  }

  /** Rendering a number and reading it back gives the number: a line number
      printed into a message is recoverable from it. */
  lemma {:induction false} NatToStringRoundTrip(n: nat)
    ensures DigitsValue(NatToString(n)) == n
    decreases n
  {
    if n >= 10 {
      var s := NatToString(n);
      assert s[..|s| - 1] == NatToString(n / 10);
      NatToStringRoundTrip(n / 10);
    }
  }

  /** Rendering is injective: distinct numbers print differently. */
  lemma NatToStringInjective(m: nat, n: nat)
    requires NatToString(m) == NatToString(n)
    ensures m == n
  {
    NatToStringRoundTrip(m);
    NatToStringRoundTrip(n);
  }

  /** The longest prefix of `s` made of decimal digits. */
  function TakeDigits(s: string): (d: string)
    ensures IsDigits(d) && d <= s
  {
    if s != [] && '0' <= s[0] <= '9' then [s[0]] + TakeDigits(s[1..]) else []
  }

  /** Reading the digit prefix of digits followed by a non-digit gives the digits back. */
  lemma {:induction false} TakeDigitsOfDigits(d: string, rest: string)
    requires IsDigits(d)
    requires rest == [] || !('0' <= rest[0] <= '9')
    ensures TakeDigits(d + rest) == d
  {
    if d == [] {
      assert d + rest == rest;
    } else {
      assert (d + rest)[1..] == d[1..] + rest;
      TakeDigitsOfDigits(d[1..], rest);
    }
  }

  /** `n` zero digits. */
  function Zeros(n: nat): (z: string)
    ensures |z| == n && IsDigits(z)
  {
    seq(n, _ => '0')
  }

  /** A leading zero does not change the number a digit string denotes. */
  lemma {:induction false} DigitsValueLeadingZero(t: string)
    requires IsDigits(t)
    ensures IsDigits(['0'] + t) && DigitsValue(['0'] + t) == DigitsValue(t)
    decreases |t|
  {
    var s := ['0'] + t;
    if t == [] {
      assert s[..|s| - 1] == [];
    } else {
      assert s[..|s| - 1] == ['0'] + t[..|t| - 1];
      DigitsValueLeadingZero(t[..|t| - 1]);
    }
  }

  /** The integer part of a float as Python prints it: the digits without
      their leading zeros, and "0" when no other digit is left. */
  function IntegerDigits(s: string): (r: string)
    requires IsDigits(s)
    ensures |r| >= 1 && IsDigits(r)
    ensures |r| > 1 ==> r[0] != '0'
    ensures DigitsValue(r) == DigitsValue(s)
  {
    if s == [] then "0"
    else if s[0] == '0' then
      assert s == ['0'] + s[1..];
      DigitsValueLeadingZero(s[1..]);
      IntegerDigits(s[1..])
    else s
  }

  /** The fractional part of a float as Python prints it: the digits without
      their trailing zeros, and "0" when no other digit is left. Padding
      both with zeros gives the same digits, so the fraction is the same. */
  function FractionDigits(s: string): (r: string)
    requires IsDigits(s)
    ensures |r| >= 1 && IsDigits(r) && |r| <= |s| + 1
    ensures |r| > 1 ==> r[|r| - 1] != '0'
    ensures s + "0" == r + Zeros(|s| + 1 - |r|)
    decreases |s|
  {
    if s == [] then "0"
    else if s[|s| - 1] == '0' then
      var r := FractionDigits(s[..|s| - 1]);
      assert s == s[..|s| - 1] + "0";
      assert Zeros(|s| - |r|) + "0" == Zeros(|s| + 1 - |r|);
      r
    else s
  }

  /** Python's `str(i)` for any integer: a leading '-' for negatives. */
  function IntToString(i: int): (s: string)
    ensures |s| >= 1
    ensures (s[0] == '-') <==> i < 0
  {
    if i < 0 then "-" + NatToString(-i) else NatToString(i)
  }

  /** What `str(i)` prints: after the sign, the decimal digits of the
      magnitude with no leading zero, which read back as the magnitude. */
  lemma IntToStringValue(i: int)
    ensures var s := IntToString(i);
            i >= 0 ==> IsDigits(s) && DigitsValue(s) == i && (|s| > 1 ==> s[0] != '0')
    ensures var s := IntToString(i);
            i < 0 ==> |s| >= 2 && IsDigits(s[1..]) && DigitsValue(s[1..]) == -i && (|s| > 2 ==> s[1] != '0')
  {
    var s := IntToString(i);
    if i < 0 {
      var d := NatToString(-i);
      NatToStringRoundTrip(-i);
      assert s == "-" + d;
      assert s[1..] == d;
    } else {
      NatToStringRoundTrip(i);
      assert s == NatToString(i);
    }
  }

  /** Number of occurrences of `c` in `s`. */
  function Count(s: string, c: char): nat
  {
    if s == [] then 0 else (if s[0] == c then 1 else 0) + Count(s[1..], c)
  }

  /** `c in s` exactly when `c` occurs at least once. */
  lemma {:induction false} CountPositive(s: string, c: char)
    ensures Count(s, c) > 0 <==> c in s
  {
    if s != [] {
      CountPositive(s[1..], c);
      assert s == [s[0]] + s[1..];
    }
  }

  /** Python's `s.split(c)` for a one-character separator: the pieces between
      the separators, so there is always at least one piece. */
  function Split(s: string, c: char): (pieces: seq<string>)
    ensures |pieces| >= 1
    ensures forall k :: 0 <= k < |pieces| ==> c !in pieces[k]
  {
    if s == [] then [""]
    else
      var rest := Split(s[1..], c);
      if s[0] == c then [""] + rest
      else [[s[0]] + rest[0]] + rest[1..]
  }

  /** Python's `sep.join(items)`. */
  function Join(items: seq<string>, sep: string): string
  {
    if items == [] then ""
    else if |items| == 1 then items[0]
    else items[0] + sep + Join(items[1..], sep)
  }

  /** `s.split(c)` has exactly one more piece than `s` has occurrences of `c`. */
  lemma {:induction false} SplitCount(s: string, c: char)
    ensures |Split(s, c)| == Count(s, c) + 1
  {
    if s != [] {
      SplitCount(s[1..], c);
    }
  }

  /** Joining the pieces of a split with the separator rebuilds the string. */
  lemma {:induction false} JoinSplit(s: string, c: char)
    ensures Join(Split(s, c), [c]) == s
  {
    if s != [] {
      var rest := Split(s[1..], c);
      JoinSplit(s[1..], c);
      if s[0] == c {
        assert Split(s, c) == [""] + rest;
        assert Split(s, c)[1..] == rest;
      } else {
        var pieces := Split(s, c);
        assert pieces[1..] == rest[1..];
        if |rest| == 1 {
          assert Join(rest, [c]) == rest[0];
        } else {
          assert Join(rest, [c]) == rest[0] + [c] + Join(rest[1..], [c]);
        }
      }
    }
  }

  /** ASCII case folding of one character (non-letters are unchanged). */
  function LowerChar(ch: char): char
  {
    if 'A' <= ch <= 'Z' then ((ch as int) - ('A' as int) + ('a' as int)) as char else ch
  }

  /** `s.lower()`, restricted to ASCII letters. */
  function Lower(s: string): (r: string)
    ensures |r| == |s|
    ensures forall i :: 0 <= i < |s| ==> r[i] == LowerChar(s[i])
  {
    if s == [] then [] else [LowerChar(s[0])] + Lower(s[1..])
  }
}
