/** String helpers with the meaning JavaScript gives them: the decimal text of an
    integer in a template literal, ASCII case mapping, `Array.prototype.join`,
    and the text of `${v}` when `v` may be `undefined`. */
module Text {
  import opened Wrappers

  predicate IsDigit(c: char) {
    '0' <= c <= '9'
  }

  predicate IsDigits(s: string) {
    forall i :: 0 <= i < |s| ==> IsDigit(s[i])
  }

  function DigitChar(d: nat): (c: char)
    requires d < 10
    ensures IsDigit(c)
  {
    (('0' as int) + d) as char
  }

  function DigitValue(c: char): (d: nat)
    requires IsDigit(c)
    ensures d < 10 && DigitChar(d) == c
  {
    (c as int) - ('0' as int)
  }

  /** The numeral a template literal prints for a non-negative integer:
      at least one digit, only digits, and no leading zero. */
  function NatToDecimal(n: nat): (s: string)
    ensures |s| >= 1 && IsDigits(s)
    ensures s[0] == '0' ==> n == 0
    decreases n
  {
    if n < 10 then [DigitChar(n)] else NatToDecimal(n / 10) + [DigitChar(n % 10)]
  }

  /** Reads a string of digits back as a number (the partner of NatToDecimal). */
  function DecimalValue(s: string): nat
    requires IsDigits(s)
    decreases |s|
  {
    if s == [] then 0 else DecimalValue(s[..|s| - 1]) * 10 + DigitValue(s[|s| - 1])
  }

  lemma {:induction false} DecimalRoundTrip(n: nat)
    ensures DecimalValue(NatToDecimal(n)) == n
    decreases n
  {
    if n >= 10 {
      var s := NatToDecimal(n / 10);
      var t := s + [DigitChar(n % 10)];
      DecimalRoundTrip(n / 10);
      assert t[..|t| - 1] == s;
      assert DigitValue(t[|t| - 1]) == n % 10;
    }
  }

  /** Distinct numbers print as distinct numerals. */
  lemma NatToDecimalInjective(a: nat, b: nat)
    requires NatToDecimal(a) == NatToDecimal(b)
    ensures a == b
  {
    DecimalRoundTrip(a);
    DecimalRoundTrip(b);
  }

  /** The numeral a template literal prints for any integer. */
  function IntToDecimal(i: int): (s: string)
    ensures |s| >= 1
    ensures s[0] == '-' <==> i < 0
    ensures i >= 0 ==> IsDigits(s) && DecimalValue(s) == i
    ensures i < 0 ==> IsDigits(s[1..]) && DecimalValue(s[1..]) == -i
  {
    DecimalRoundTrip(if i < 0 then -i else i);
    if i < 0 then "-" + NatToDecimal(-i) else NatToDecimal(i)
  }

  /** A run of digits followed by a non-digit is determined by the text it starts. */
  lemma DigitRunUnique(d1: string, r1: string, d2: string, r2: string)
    requires IsDigits(d1) && IsDigits(d2)
    requires |r1| > 0 && |r2| > 0 && !IsDigit(r1[0]) && !IsDigit(r2[0])
    requires d1 + r1 == d2 + r2
    ensures d1 == d2
  {
    assert d1 == (d1 + r1)[..|d1|];
    assert d2 == (d2 + r2)[..|d2|];
  }

  function LowerChar(c: char): char {
    if 'A' <= c <= 'Z' then ((c as int) + 32) as char else c
  }

  function UpperChar(c: char): char {
    if 'a' <= c <= 'z' then ((c as int) - 32) as char else c
  }

  /** `String.prototype.toLowerCase`, on ASCII letters: each capital becomes
      its small letter, and every other character stays as it was. */
  function Lower(s: string): (r: string)
    ensures |r| == |s|
    ensures forall i :: 0 <= i < |s| ==> !('A' <= r[i] <= 'Z')
    ensures forall i :: 0 <= i < |s| && !('A' <= s[i] <= 'Z') ==> r[i] == s[i]
    ensures forall i :: 0 <= i < |s| && 'A' <= s[i] <= 'Z' ==> r[i] as int == s[i] as int + 32
  {
    seq(|s|, i requires 0 <= i < |s| => LowerChar(s[i]))
  }

  /** `String.prototype.toUpperCase`, on ASCII letters: each small letter
      becomes its capital, and every other character stays as it was. */
  function Upper(s: string): (r: string)
    ensures |r| == |s|
    ensures forall i :: 0 <= i < |s| ==> !('a' <= r[i] <= 'z')
    ensures forall i :: 0 <= i < |s| && !('a' <= s[i] <= 'z') ==> r[i] == s[i]
    ensures forall i :: 0 <= i < |s| && 'a' <= s[i] <= 'z' ==> r[i] as int == s[i] as int - 32
  {
    seq(|s|, i requires 0 <= i < |s| => UpperChar(s[i]))
  }

  /** Lower-casing twice changes nothing more: it yields a normal form. */
  lemma LowerIdempotent(s: string)
    ensures Lower(Lower(s)) == Lower(s)
  {
  }

  /** A string and its upper-cased form have the same lower-cased form, so they
      compare equal case-insensitively. */
  lemma LowerOfUpper(s: string)
    ensures Lower(Upper(s)) == Lower(s)
  {
  }

  /** Appending two pieces one after the other, as two `+=` do, is appending
      them joined. */
  lemma AppendAssoc(a: string, b: string, c: string)
    ensures a + b + c == a + (b + c)
  {
  }

  /** In `a + (b + sep) + c`, `a` leads, `b` follows it, and `c` closes the text. */
  lemma Layout(a: string, b: string, sep: string, c: string)
    ensures var d := a + (b + sep) + c;
      a <= d && |a| + |b| <= |d| && d[|a|..|a| + |b|] == b && |c| <= |d| && d[|d| - |c|..] == c
  {
    var d := a + (b + sep) + c;
    assert d[|a|..] == (b + sep) + c;
    SliceOfTail(d, |a|, (b + sep) + c, 0, |b|);
  }

  /** A slice of a string's tail is the same slice of that tail. */
  lemma SliceOfTail(d: string, k: nat, tail: string, lo: nat, hi: nat)
    requires k <= |d| && d[k..] == tail && lo <= hi <= |tail|
    ensures d[k + lo..k + hi] == tail[lo..hi]
  {
    assert forall i :: k + lo <= i < k + hi ==> d[i] == tail[i - k];
  }

  /** `parts.join(sep)`: empty for no parts, and otherwise opening with the
      first part. */
  function Join(parts: seq<string>, sep: string): (r: string)
    ensures parts == [] ==> r == ""
    ensures |parts| > 0 ==> parts[0] <= r
    decreases |parts|
  {
    if parts == [] then "" else if |parts| == 1 then parts[0] else parts[0] + sep + Join(parts[1..], sep)
  }

  /** Joining splits at any inner boundary into the two joined halves. */
  lemma {:induction false} JoinSplit(parts: seq<string>, sep: string, i: nat)
    requires 0 < i < |parts|
    ensures Join(parts, sep) == Join(parts[..i], sep) + sep + Join(parts[i..], sep)
    decreases i
  {
    if i > 1 {
      JoinSplit(parts[1..], sep, i - 1);
      assert parts[1..][..i - 1] == parts[..i][1..];
      assert parts[1..][i - 1..] == parts[i..];
    } else {
      assert parts[..1] == [parts[0]];
    }
  }

  /** Part `i` of a join stands between the parts before it and the parts after
      it, with one separator on each side that has parts. */
  lemma JoinAt(parts: seq<string>, sep: string, i: nat)
    requires i < |parts|
    ensures Join(parts, sep) ==
      Join(parts[..i], sep) + (if i > 0 then sep else "") + parts[i]
      + (if i + 1 < |parts| then sep + Join(parts[i + 1..], sep) else "")
  {
    var tail := parts[i..];
    assert tail[1..] == parts[i + 1..];
    assert Join(tail, sep) == parts[i] + (if i + 1 < |parts| then sep + Join(parts[i + 1..], sep) else "");
    if i > 0 {
      JoinSplit(parts, sep, i);
    } else {
      assert parts[..0] == [] && parts[0..] == parts;
    }
  }

  /** What `${v}` prints for a string argument that may be `undefined`. */
  function Interpolate(v: Option<string>): string {
    match v
    case Some(s) => s
    case None => "undefined"
  }
}
