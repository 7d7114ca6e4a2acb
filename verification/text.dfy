/**
 * The pieces of the C and C++ string libraries that the server's scanners rely on,
 * written out: `isspace` in the "C" locale, `std::string::find`, `std::getline`,
 * `operator>>` on strings, `std::to_string` and `std::stoul`.
 */
module Text {
  import opened Wrappers

  /** `std::isspace` in the "C" locale: space, \t, \n, \v, \f, \r. */
  predicate IsSpace(c: char) {
    c == ' ' || c == '\t' || c == '\n' || c == '\U{000B}' || c == '\U{000C}' || c == '\r'
  }

  predicate IsDigit(c: char) {
    '0' <= c <= '9'
  }

  predicate AllDigits(s: string) {
    forall i :: 0 <= i < |s| ==> IsDigit(s[i])
  }

  predicate StartsWith(s: string, prefix: string) {
    |prefix| <= |s| && s[..|prefix|] == prefix
  }

  predicate EndsWith(s: string, suffix: string) {
    |suffix| <= |s| && s[|s| - |suffix|..] == suffix
  }

  /** `s.find(c)`: the position of the first `c`, or None for `npos`. */
  function FindChar(s: string, c: char): (r: Option<nat>)
    ensures r.Some? ==> r.value < |s| && s[r.value] == c && c !in s[..r.value]
    ensures r.None? <==> c !in s
  {
    if s == [] then None
    else if s[0] == c then Some(0)
    else match FindChar(s[1..], c)
      case None => None
      case Some(i) =>
        assert s[1..][..i] == s[1..i + 1];
        Some(i + 1)
  }

  /** Where the first `c` is known, FindChar finds exactly it. */
  lemma FindCharAt(a: string, c: char, b: string)
    requires c !in a
    ensures FindChar(a + [c] + b, c) == Some(|a|)
  {
    var s := a + [c] + b;
    assert s[..|a|] == a;
    assert s[|a|] == c;
  }

  /** `t` occurs in `s` starting at position `j`. */
  predicate OccursAt(s: string, t: string, j: nat) {
    j + |t| <= |s| && s[j..j + |t|] == t
  }

  /** `s.find(t, from)`: the first position at or after `from` where `t` occurs, or None for `npos`. */
  function FindText(s: string, t: string, from: nat := 0): (r: Option<nat>)
    ensures r.Some? ==> from <= r.value && OccursAt(s, t, r.value)
    ensures r.Some? ==> forall j: nat :: from <= j < r.value ==> !OccursAt(s, t, j)
    ensures r.None? ==> forall j: nat :: from <= j ==> !OccursAt(s, t, j)
    decreases |s| - from
  {
    if from + |t| > |s| then None
    else if s[from..from + |t|] == t then Some(from)
    else FindText(s, t, from + 1)
  }

  /**
   * One call of `std::getline(stream, line, delim)` on the unread text `s`: None when the
   * stream is at its end (no character extracted, the call fails); otherwise the line
   * (without the delimiter) and what is left unread. The delimiter is consumed.
   */
  function Getline(s: string, delim: char): (r: Option<(string, string)>)
    ensures r.None? <==> s == []
    ensures r.Some? ==> delim !in r.value.0 && |r.value.1| < |s|
    ensures r.Some? ==> s == r.value.0 + [delim] + r.value.1 || (s == r.value.0 && r.value.1 == [])
  {
    if s == [] then None
    else match FindChar(s, delim)
      case None => Some((s, []))
      case Some(i) =>
        assert s == s[..i] + [delim] + s[i + 1..];
        Some((s[..i], s[i + 1..]))
  }

  /** A line free of the delimiter is read back whole, and the delimiter is consumed. */
  lemma GetlineAt(a: string, delim: char, b: string)
    requires delim !in a
    ensures Getline(a + [delim] + b, delim) == Some((a, b))
  {
    var s := a + [delim] + b;
    FindCharAt(a, delim, b);
    assert s[..|a|] == a;
    assert s[|a| + 1..] == b;
  }

  /** The lines a `while (std::getline(stream, line, delim))` loop sees, in order. */
  function Pieces(s: string, delim: char): (r: seq<string>)
    ensures forall i :: 0 <= i < |r| ==> delim !in r[i]
    decreases |s|
  {
    match Getline(s, delim)
    case None => []
    case Some((line, rest)) => [line] + Pieces(rest, delim)
  }

  /** Erase leading whitespace: `value.erase(begin, find_if(..., !isspace))`. */
  function TrimLeft(s: string): (r: string)
    ensures |r| <= |s| && r == s[|s| - |r|..]
    ensures forall i :: 0 <= i < |s| - |r| ==> IsSpace(s[i])
    ensures r == [] || !IsSpace(r[0])
  {
    if s != [] && IsSpace(s[0]) then TrimLeft(s[1..]) else s
  }

  /** Drop one trailing carriage return, as `if (line.back() == '\r') line.pop_back()`. */
  function DropCR(s: string): (r: string)
    ensures s == r || s == r + ['\r']
    ensures s != [] && s[|s| - 1] == '\r' ==> |r| == |s| - 1
  {
    if s != [] && s[|s| - 1] == '\r' then s[..|s| - 1] else s
  }

  /** The longest prefix of `s` without whitespace. */
  function Word(s: string): (r: string)
    ensures |r| <= |s| && r == s[..|r|]
    ensures forall i :: 0 <= i < |r| ==> !IsSpace(s[i])
    ensures |r| < |s| ==> IsSpace(s[|r|])
  {
    if s == [] || IsSpace(s[0]) then [] else [s[0]] + Word(s[1..])
  }

  /** A non-empty run of non-whitespace characters. */
  predicate IsWord(w: string) {
    w != [] && forall k :: 0 <= k < |w| ==> !IsSpace(w[k])
  }

  /** A word followed by whitespace (or nothing) is read whole. */
  lemma {:induction false} WordOfWord(w: string, rest: string)
    requires IsWord(w)
    requires rest == [] || IsSpace(rest[0])
    ensures Word(w + rest) == w
    decreases |w|
  {
    var s := w + rest;
    assert s[0] == w[0] && s[1..] == w[1..] + rest;
    if |w| > 1 {
      WordOfWord(w[1..], rest);
      assert [w[0]] + w[1..] == w;
    } else {
      assert w[1..] + rest == rest;
    }
  }

  /** Text that starts with a non-whitespace character starts with a word. */
  lemma WordOfNonSpace(t: string)
    requires t != [] && !IsSpace(t[0])
    ensures IsWord(Word(t))
  {
    assert Word(t) == [t[0]] + Word(t[1..]);
  }

  /**
   * The words successive `stream >> word` extractions deliver: each skips whitespace and
   * then reads up to the next whitespace character.
   */
  function Tokens(s: string): seq<string>
    decreases |s|
  {
    var t := TrimLeft(s);
    if t == [] then [] else
      var w := Word(t);
      WordOfNonSpace(t);
      [w] + Tokens(t[|w|..])
  }

  /** Every token is a non-empty run of non-whitespace characters. */
  lemma {:induction false} TokensAreWords(s: string)
    ensures forall i :: 0 <= i < |Tokens(s)| ==> IsWord(Tokens(s)[i])
    decreases |s|
  {
    var t := TrimLeft(s);
    if t != [] {
      var w := Word(t);
      WordOfNonSpace(t);
      TokensAreWords(t[|w|..]);
      var rest := Tokens(t[|w|..]);
      assert Tokens(s) == [w] + rest;
      assert forall i :: 0 < i < |rest| + 1 ==> ([w] + rest)[i] == rest[i - 1];
    }
  }

  /** The `k`-th word, or "" when `stream >> word` fails and leaves the target empty. */
  function TokenAt(words: seq<string>, k: nat): string {
    if k < |words| then words[k] else ""
  }

  function DigitChar(d: nat): (c: char)
    requires d < 10
    ensures IsDigit(c)
  {
    "0123456789"[d]
  }

  function DigitValue(c: char): (d: nat)
    requires IsDigit(c)
    ensures d < 10
  {
    (c as int - '0' as int) as nat
  }

  /** `std::to_string` of a non-negative number: decimal digits, no leading zeros. */
  function NatToString(n: nat): (s: string)
    ensures s != [] && AllDigits(s)
    ensures s[0] == '0' ==> n == 0
  {
    if n < 10 then [DigitChar(n)] else NatToString(n / 10) + [DigitChar(n % 10)]
  }

  /** `std::to_string` / `operator<<` of an int. */
  function IntToString(i: int): (s: string)
    ensures s != []
  {
    if i < 0 then "-" + NatToString(-i) else NatToString(i)
  }

  /** The number a string of decimal digits denotes. */
  function DigitsValue(s: string): nat
    requires AllDigits(s)
  {
    if s == [] then 0 else DigitsValue(s[..|s| - 1]) * 10 + DigitValue(s[|s| - 1])
  }

  lemma {:induction false} DigitsValueOfNatToString(n: nat)
    ensures DigitsValue(NatToString(n)) == n
  {
    if n >= 10 {
      var s := NatToString(n);
      assert s[..|s| - 1] == NatToString(n / 10);
      DigitsValueOfNatToString(n / 10);
    }
  }

  /** The longest prefix of `s` made of decimal digits. */
  function LeadingDigits(s: string): (r: string)
    ensures |r| <= |s| && r == s[..|r|] && AllDigits(r)
    ensures |r| < |s| ==> !IsDigit(s[|r|])
  {
    if s != [] && IsDigit(s[0]) then [s[0]] + LeadingDigits(s[1..]) else []
  }

  const ULongMax: nat := 0xFFFF_FFFF_FFFF_FFFF

  /**
   * `std::stoul(s)` (base 10): skip leading whitespace, accept one optional sign, then read
   * the longest run of digits; anything after it is ignored. None stands for the two
   * exceptions it throws: `invalid_argument` when there is no digit, `out_of_range` when the
   * digits exceed `ULONG_MAX`. A minus sign negates modulo 2^64, as `strtoul` does.
   */
  function Stoul(s: string): (r: Option<nat>)
    ensures r.Some? ==> r.value <= ULongMax
    ensures r.None? <==> var t := TrimLeft(s);
      var u := if t != [] && (t[0] == '+' || t[0] == '-') then t[1..] else t;
      LeadingDigits(u) == [] || DigitsValue(LeadingDigits(u)) > ULongMax
  {
    var t := TrimLeft(s);
    var negative := t != [] && t[0] == '-';
    var u := if t != [] && (t[0] == '+' || t[0] == '-') then t[1..] else t;
    var digits := LeadingDigits(u);
    if digits == [] || DigitsValue(digits) > ULongMax then None
    else if negative then Some((ULongMax + 1 - DigitsValue(digits)) % (ULongMax + 1))
    else Some(DigitsValue(digits))
  }

  /** A number written with `to_string` is read back unchanged by `stoul`. */
  lemma StoulOfNatToString(n: nat)
    requires n <= ULongMax
    ensures Stoul(NatToString(n)) == Some(n)
  {
    var s := NatToString(n);
    assert !IsSpace(s[0]) && s[0] != '+' && s[0] != '-';
    assert TrimLeft(s) == s;
    LeadingDigitsOfDigits(s);
    DigitsValueOfNatToString(n);
  }

  lemma {:induction false} LeadingDigitsOfDigits(s: string)
    requires AllDigits(s)
    ensures LeadingDigits(s) == s
  {
    if s != [] {
      LeadingDigitsOfDigits(s[1..]);
    }
  }

  /**
   * `fs::path(dir) / name` on POSIX for a relative `name`: a separator is inserted unless
   * `dir` is empty or already ends with one.
   */
  function JoinPath(dir: string, name: string): (p: string)
    ensures EndsWith(p, name)
  {
    if dir == [] || dir[|dir| - 1] == '/' then dir + name else dir + "/" + name
  }
}
