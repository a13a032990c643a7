/**
 * Python string operations on `seq<char>`: substring search, ASCII case mapping, whitespace
 * stripping and splitting, and the decimal numerals the modelled parsers read.
 */
module Text {
  import opened Wrappers

  /** `p` occurs in `s` starting at index `i`. */
  predicate OccursAt(s: string, p: string, i: int)
  {
    0 <= i && i + |p| <= |s| && s[i..i + |p|] == p
  }

  /** Python's `p in s`. */
  predicate Contains(s: string, p: string)
  {
    exists i :: 0 <= i <= |s| - |p| && OccursAt(s, p, i)
  }

  predicate StartsWith(s: string, p: string)
  {
    OccursAt(s, p, 0)
  }

  /** The first position at or after `from` where `p` occurs (Python's `s.find(p, from)`). */
  function FindFrom(s: string, p: string, from: nat): (r: Option<nat>)
    ensures r.Some? ==> from <= r.value && OccursAt(s, p, r.value)
    ensures r.Some? ==> forall j :: from <= j < r.value ==> !OccursAt(s, p, j)
    ensures r.None? ==> forall j :: from <= j ==> !OccursAt(s, p, j)
    decreases |s| - from
  {
    if from + |p| > |s| then None
    else if s[from..from + |p|] == p then Some(from)
    else FindFrom(s, p, from + 1)
  }

  function Find(s: string, p: string): (r: Option<nat>)
    ensures r.Some? <==> Contains(s, p)
    ensures r.Some? ==> OccursAt(s, p, r.value) && forall j :: 0 <= j < r.value ==> !OccursAt(s, p, j)
  {
    FindFrom(s, p, 0)
  }

  /**
   * `s.split(sep)[1]`: the text between the first and the second occurrence of `sep`, or up to
   * the end when there is no second one; None where Python raises IndexError.
   */
  function SecondField(s: string, sep: string): (r: Option<string>)
    requires |sep| > 0
    ensures r.Some? <==> Contains(s, sep)
    ensures r.Some? ==> !Contains(r.value, sep)
    ensures r.Some? ==> StartsWith(s[Find(s, sep).value + |sep|..], r.value)
  {
    match Find(s, sep)
    case None => None
    case Some(i) =>
      var rest := s[i + |sep|..];
      match Find(rest, sep)
      case None => Some(rest)
      case Some(j) =>
        PrefixBeforeFirst(rest, sep, j);
        Some(rest[..j])
  }

  lemma PrefixBeforeFirst(s: string, sep: string, j: nat)
    requires |sep| > 0
    requires OccursAt(s, sep, j) && forall k :: 0 <= k < j ==> !OccursAt(s, sep, k)
    ensures !Contains(s[..j], sep)
  {
    if Contains(s[..j], sep) {
      var k :| 0 <= k <= j - |sep| && OccursAt(s[..j], sep, k);
      assert s[..j][k..k + |sep|] == s[k..k + |sep|];
      assert k < j && OccursAt(s, sep, k);
      assert false;
    }
  }

  function LowerChar(c: char): char
  {
    if 'A' <= c <= 'Z' then (c as int + 32) as char else c
  }

  /** `s.lower()` on ASCII letters. */
  function Lower(s: string): (r: string)
    ensures |r| == |s| && forall i :: 0 <= i < |s| ==> r[i] == LowerChar(s[i])
  {
    seq(|s|, i requires 0 <= i < |s| => LowerChar(s[i]))
  }

  /** The characters `str.isspace` accepts below U+0100. */
  predicate IsSpace(c: char)
  {
    c == ' ' || 9 <= c as int <= 13 || 28 <= c as int <= 31 || c as int == 0x85 || c as int == 0xA0
  }

  predicate IsDigit(c: char) { '0' <= c <= '9' }

  /** Characters of the regular-expression class `\w` below U+0080. */
  predicate IsWordChar(c: char)
  {
    IsDigit(c) || 'a' <= c <= 'z' || 'A' <= c <= 'Z' || c == '_'
  }

  function TrimStart(s: string): (r: string)
    ensures |r| <= |s| && r == s[|s| - |r|..]
    ensures r == [] || !IsSpace(r[0])
    ensures forall i :: 0 <= i < |s| - |r| ==> IsSpace(s[i])
    decreases |s|
  {
    if |s| > 0 && IsSpace(s[0]) then TrimStart(s[1..]) else s
  }

  function TrimEnd(s: string): (r: string)
    ensures |r| <= |s| && r == s[..|r|]
    ensures r == [] || !IsSpace(r[|r| - 1])
    ensures forall i :: |r| <= i < |s| ==> IsSpace(s[i])
    decreases |s|
  {
    if |s| > 0 && IsSpace(s[|s| - 1]) then TrimEnd(s[..|s| - 1]) else s
  }

  /** `s.strip()`. */
  function Strip(s: string): (r: string)
    ensures r == [] || (!IsSpace(r[0]) && !IsSpace(r[|r| - 1]))
  {
    TrimEnd(TrimStart(s))
  }

  /** The stripped text is the slice of the text that starts after the leading whitespace. */
  lemma StripIsSlice(s: string)
    ensures var off := |s| - |TrimStart(s)|;
      off + |Strip(s)| <= |s| && forall k :: 0 <= k < |Strip(s)| ==> Strip(s)[k] == s[off + k]
  {
    var t := TrimStart(s);
    var off := |s| - |t|;
    var r := TrimEnd(t);
    assert t == s[off..] && r == t[..|r|];
  }

  /** `s.rstrip(c)`. */
  function RStripChar(s: string, c: char): (r: string)
    ensures |r| <= |s| && r == s[..|r|]
    ensures r == [] || r[|r| - 1] != c
    ensures forall i :: |r| <= i < |s| ==> s[i] == c
    decreases |s|
  {
    if |s| > 0 && s[|s| - 1] == c then RStripChar(s[..|s| - 1], c) else s
  }

  /** Length of the longest prefix of `s` whose characters all satisfy `p`. */
  function RunLength(s: string, p: char -> bool): (n: nat)
    ensures n <= |s|
    ensures forall i :: 0 <= i < n ==> p(s[i])
    ensures n == |s| || !p(s[n])
    decreases |s|
  {
    if |s| > 0 && p(s[0]) then 1 + RunLength(s[1..], p) else 0
  }

  /** Where a run of characters satisfying `p` that starts at j ends. */
  function RunEnd(s: string, j: nat, p: char -> bool): (e: nat)
    requires j <= |s|
    ensures j <= e <= |s|
    ensures forall k :: j <= k < e ==> p(s[k])
    ensures e == |s| || !p(s[e])
  {
    var n := RunLength(s[j..], p);
    assert forall k :: j <= k < j + n ==> s[k] == s[j..][k - j];
    j + n
  }

  /** `s.split()[0]`: the first whitespace-delimited word; None where Python raises IndexError. */
  function FirstWord(s: string): (r: Option<string>)
    ensures r.Some? ==> |r.value| > 0 && forall i :: 0 <= i < |r.value| ==> !IsSpace(r.value[i])
    ensures r.None? <==> forall i :: 0 <= i < |s| ==> IsSpace(s[i])
  {
    var t := TrimStart(s);
    if |t| == 0 then None
    else Some(t[..RunLength(t, c => !IsSpace(c))])
  }

  /** `sep.join(parts)`. */
  function Join(parts: seq<string>, sep: string): string
    decreases |parts|
  {
    if |parts| == 0 then ""
    else if |parts| == 1 then parts[0]
    else Join(parts[..|parts| - 1], sep) + sep + parts[|parts| - 1]
  }

  /** `s` with every character of `drop` removed (`re.sub('[...]', '', s)`). */
  function RemoveChars(s: string, drop: set<char>): (r: string)
    ensures forall i :: 0 <= i < |r| ==> r[i] !in drop
    ensures |r| <= |s|
    decreases |s|
  {
    if |s| == 0 then ""
    else (if s[0] in drop then "" else [s[0]]) + RemoveChars(s[1..], drop)
  }

  predicate AllDigits(s: string)
  {
    forall i :: 0 <= i < |s| ==> IsDigit(s[i])
  }

  function DigitValue(c: char): nat
    requires IsDigit(c)
  {
    c as int - '0' as int
  }

  function Pow10(k: nat): (r: nat)
    ensures r >= 1
  {
    if k == 0 then 1 else 10 * Pow10(k - 1)
  }

  /** The value of a string of decimal digits. */
  function DigitsValue(s: string): (v: nat)
    requires AllDigits(s)
    ensures v < Pow10(|s|)
    decreases |s|
  {
    if |s| == 0 then 0 else 10 * DigitsValue(s[..|s| - 1]) + DigitValue(s[|s| - 1])
  }

  /** The value of the numeral `whole.frac`. */
  function DecimalValue(whole: string, frac: string): (v: real)
    requires AllDigits(whole) && AllDigits(frac)
    ensures DigitsValue(whole) as real <= v < DigitsValue(whole) as real + 1.0
  {
    FractionBelowOne(DigitsValue(frac), Pow10(|frac|));
    DigitsValue(whole) as real + DigitsValue(frac) as real / Pow10(|frac|) as real
  }

  lemma FractionBelowOne(x: nat, y: nat)
    requires x < y
    ensures 0.0 <= x as real / y as real < 1.0
  {
  }

  /**
   * `float(s)` for numerals made of an optional sign, digits and at most one point, with at least
   * one digit, between optional whitespace; None where Python raises ValueError.
   */
  function ParseFloat(s: string): (r: Option<real>)
  {
    var t := Strip(s);
    var neg := |t| > 0 && t[0] == '-';
    var u := if |t| > 0 && (t[0] == '-' || t[0] == '+') then t[1..] else t;
    var w := RunLength(u, IsDigit);
    var rest := u[w..];
    if rest == [] then
      (if w == 0 then None else Some(Signed(neg, DecimalValue(u, ""))))
    else if rest[0] != '.' then None
    else
      var frac := rest[1..];
      if !AllDigits(frac) || (w == 0 && |frac| == 0) then None
      else Some(Signed(neg, DecimalValue(u[..w], frac)))
  }

  /** A numeral without a leading minus sign converts to a non-negative value. */
  lemma UnsignedNonNegative(s: string)
    requires ParseFloat(s).Some?
    requires |Strip(s)| == 0 || Strip(s)[0] != '-'
    ensures ParseFloat(s).value >= 0.0
  {
  }

  function Signed(neg: bool, v: real): real
  {
    if neg then -v else v
  }
}
