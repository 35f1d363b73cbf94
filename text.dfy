/** String and sequence helpers shared by the models: path joining, `rstrip`, `strip`, integer formatting. */
module Text {

  /** `Path(dir) / name`, without normalisation. */
  function Join(dir: string, name: string): string {
    dir + "/" + name
  }

  /** Concatenation is associative; stated once so that long chains of `+` need not be re-derived. */
  lemma ConcatAssoc<T>(a: seq<T>, b: seq<T>, c: seq<T>)
    ensures (a + b) + c == a + (b + c)
  {
  }

  /** The last path component: everything after the last '/'. */
  function Basename(path: string): (r: string)
    ensures '/' !in r
    ensures |r| <= |path| && path[|path| - |r|..] == r
  {
    if |path| == 0 then ""
    else if path[|path| - 1] == '/' then ""
    else
      var init := path[..|path| - 1];
      var r := Basename(init) + [path[|path| - 1]];
      assert path[|path| - |r|..] == init[|init| - |r| + 1..] + [path[|path| - 1]];
      r
  }

  /** `s.rstrip(c)`: `s` without its trailing run of `c`. */
  function RStrip(s: string, c: char): (r: string)
    ensures |r| <= |s| && s[..|r|] == r
    ensures r == [] || r[|r| - 1] != c
    ensures forall k :: |r| <= k < |s| ==> s[k] == c
  {
    if |s| > 0 && s[|s| - 1] == c then RStrip(s[..|s| - 1], c) else s
  }

  /** The characters Python's `str.isspace` accepts. */
  predicate IsSpace(c: char) {
    ('\t' <= c <= '\r') || ('\U{1c}' <= c <= ' ') || c == '\U{85}' || c == '\U{a0}'
    || c == '\U{1680}' || ('\U{2000}' <= c <= '\U{200a}') || c == '\U{2028}' || c == '\U{2029}'
    || c == '\U{202f}' || c == '\U{205f}' || c == '\U{3000}'
  }

  function LStripSpace(s: string): (r: string)
    ensures |r| <= |s| && s[|s| - |r|..] == r
    ensures r == [] || !IsSpace(r[0])
    ensures forall k :: 0 <= k < |s| - |r| ==> IsSpace(s[k])
  {
    if |s| > 0 && IsSpace(s[0]) then LStripSpace(s[1..]) else s
  }

  function RStripSpace(s: string): (r: string)
    ensures |r| <= |s| && s[..|r|] == r
    ensures r == [] || !IsSpace(r[|r| - 1])
    ensures forall k :: |r| <= k < |s| ==> IsSpace(s[k])
  {
    if |s| > 0 && IsSpace(s[|s| - 1]) then RStripSpace(s[..|s| - 1]) else s
  }

  /** `r` sits at offset `i` of `s` and everything around it is whitespace. */
  predicate TrimmedAt(s: string, i: nat, r: string) {
    i + |r| <= |s| && s[i..i + |r|] == r
    && (forall k :: 0 <= k < i ==> IsSpace(s[k]))
    && (forall k :: i + |r| <= k < |s| ==> IsSpace(s[k]))
  }

  /** `s.strip()`: `s` without leading and trailing whitespace. */
  function Strip(s: string): (r: string)
    ensures r == [] || (!IsSpace(r[0]) && !IsSpace(r[|r| - 1]))
    ensures exists i: nat :: TrimmedAt(s, i, r)
  {
    var t := RStripSpace(s);
    StripsAround(s, t, LStripSpace(t));
    LStripSpace(t)
  }

  /** Stripping the right end and then the left end leaves `r` inside `s` with only whitespace around it. */
  lemma StripsAround(s: string, t: string, r: string)
    requires t == RStripSpace(s) && r == LStripSpace(t)
    ensures TrimmedAt(s, |t| - |r|, r)
  {
    var i := |t| - |r|;
    assert s[i..i + |r|] == t[i..] == r;
    forall k | 0 <= k < i
      ensures IsSpace(s[k])
    {
      assert s[k] == t[k];
    }
  }

  /** A string with no surrounding whitespace is its own strip. */
  lemma {:induction false} StripFixesTrimmed(s: string)
    requires s == [] || (!IsSpace(s[0]) && !IsSpace(s[|s| - 1]))
    ensures Strip(s) == s
  {
  }

  /** Stripping twice is stripping once. */
  lemma StripIdempotent(s: string)
    ensures Strip(Strip(s)) == Strip(s)
  {
    StripFixesTrimmed(Strip(s));
  }

  function DigitChar(d: nat): char
    requires d < 10
  {
    "0123456789"[d]
  }

  function DigitValue(c: char): nat {
    if '0' <= c <= '9' then (c as int - '0' as int) as nat else 0
  }

  /** Decimal digits of `n` as `str(n)` writes them. */
  function NatToString(n: nat): (r: string)
    ensures |r| > 0 && forall k :: 0 <= k < |r| ==> '0' <= r[k] <= '9'
  {
    if n < 10 then [DigitChar(n)] else NatToString(n / 10) + [DigitChar(n % 10)]
  }

  /** `str(i)` for an integer: a minus sign before the digits of a negative number. */
  function IntToString(i: int): string {
    if i < 0 then "-" + NatToString(-i) else NatToString(i)
  }

  /** Reads a string of decimal digits back. */
  function ParseNat(s: string): nat {
    if |s| == 0 then 0 else ParseNat(s[..|s| - 1]) * 10 + DigitValue(s[|s| - 1])
  }

  /** Formatting then parsing is the identity, so `NatToString` loses no information. */
  lemma {:induction false} ParseNatToString(n: nat)
    ensures ParseNat(NatToString(n)) == n
  {
    var s := NatToString(n);
    if n >= 10 {
      ParseNatToString(n / 10);
      assert s[..|s| - 1] == NatToString(n / 10);
    }
  }

  /** Reads `IntToString`'s output back: an optional minus sign, then decimal digits. */
  function ParseInt(s: string): int {
    if |s| > 0 && s[0] == '-' then -(ParseNat(s[1..]) as int) else ParseNat(s)
  }

  /** `IntToString` loses no information, negative numbers included. */
  lemma ParseIntToString(i: int)
    ensures ParseInt(IntToString(i)) == i
  {
    var digits := NatToString(if i < 0 then -i else i);
    ParseNatToString(if i < 0 then -i else i);
    if i < 0 {
      var s := "-" + digits;
      assert s[1..] == digits;
      assert ParseInt(s) == -(ParseNat(digits) as int);
    } else {
      assert digits[0] != '-';
    }
  }
}
