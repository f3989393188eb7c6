/**
 * The string operations the client (C++ std::string) and the server (Java String) rely on:
 * searching, line splitting, trimming, integer rendering and parsing, and the
 * lexicographic order of std::string.
 */
module Strings {
  import opened Wrappers

  const Int32Min: int := -0x8000_0000
  const Int32Max: int := 0x7FFF_FFFF

  // ---------------------------------------------------------------------------
  // Decimal rendering (std::to_string, Java string concatenation of an int)
  // ---------------------------------------------------------------------------

  predicate IsDigit(c: char) { '0' <= c <= '9' }

  predicate AllDigits(s: string) { forall i :: 0 <= i < |s| ==> IsDigit(s[i]) }

  function DigitValue(c: char): nat
    requires IsDigit(c)
  {
    (c as int) - ('0' as int)
  }

  function DigitChar(d: nat): (c: char)
    requires d < 10
    ensures IsDigit(c) && DigitValue(c) == d
  {
    (('0' as int) + d) as char
  }

  /** The decimal digits of `n`, most significant first, without leading zeros. */
  function NatToString(n: nat): (s: string)
    ensures |s| >= 1 && AllDigits(s)
    ensures n >= 10 ==> s[0] != '0'
    decreases n
  {
    if n < 10 then [DigitChar(n)] else NatToString(n / 10) + [DigitChar(n % 10)]
  }

  /** std::to_string / Java's int-to-String: a minus sign for negative values. */
  function IntToString(n: int): string
  {
    if n < 0 then "-" + NatToString(-n) else NatToString(n)
  }

  /** The value of a string of decimal digits. */
  function DigitsValue(s: string): nat
    requires AllDigits(s)
  {
    if s == [] then 0 else DigitsValue(s[..|s| - 1]) * 10 + DigitValue(s[|s| - 1])
  }

  lemma {:induction false} DigitsValueOfNatToString(n: nat)
    ensures DigitsValue(NatToString(n)) == n
    decreases n
  {
    if n >= 10 {
      var s := NatToString(n);
      DigitsValueOfNatToString(n / 10);
      assert s[..|s| - 1] == NatToString(n / 10);
    }
  }

  lemma {:induction false} NatToStringInjective(m: nat, n: nat)
    requires NatToString(m) == NatToString(n)
    ensures m == n
  {
    DigitsValueOfNatToString(m);
    DigitsValueOfNatToString(n);
  }

  /** Distinct integers are rendered as distinct strings. */
  lemma IntToStringInjective(m: int, n: int)
    requires IntToString(m) == IntToString(n)
    ensures m == n
  {
    var a, b := IntToString(m), IntToString(n);
    assert (m < 0) == (a[0] == '-') && (n < 0) == (b[0] == '-');
    if m < 0 {
      assert a[1..] == NatToString(-m) && b[1..] == NatToString(-n);
      NatToStringInjective(-m, -n);
    } else {
      NatToStringInjective(m, n);
    }
  }

  // ---------------------------------------------------------------------------
  // std::stoi
  // ---------------------------------------------------------------------------

  /** White space as std::isspace sees it in the "C" locale. */
  predicate IsCSpace(c: char)
  {
    c == ' ' || c == '\t' || c == '\n' || c == '\U{000B}' || c == '\U{000C}' || c == '\r'
  }

  function DropLeadingCSpace(s: string): (r: string)
    ensures |r| <= |s| && r == s[|s| - |r|..]
    ensures r != [] ==> !IsCSpace(r[0])
  {
    if s != [] && IsCSpace(s[0]) then DropLeadingCSpace(s[1..]) else s
  }

  /** The longest prefix of `s` made of decimal digits. */
  function DigitPrefix(s: string): (r: string)
    ensures r <= s && AllDigits(r)
    ensures |r| < |s| ==> !IsDigit(s[|r|])
  {
    if s != [] && IsDigit(s[0]) then [s[0]] + DigitPrefix(s[1..]) else []
  }

  /** The value of the longest digit prefix of `u`, if there is at least one digit. */
  function LeadingDigitsValue(u: string): Option<nat>
  {
    var digits := DigitPrefix(u);
    if digits == [] then None else Some(DigitsValue(digits))
  }

  /** An optional sign followed by digits. */
  function SignedValue(t: string): Option<int>
  {
    if t != [] && t[0] == '-' then
      match LeadingDigitsValue(t[1..])
      case None => None
      case Some(v) => Some(0 - v)
    else if t != [] && t[0] == '+' then
      match LeadingDigitsValue(t[1..])
      case None => None
      case Some(v) => Some(v)
    else
      match LeadingDigitsValue(t)
      case None => None
      case Some(v) => Some(v)
  }

  /**
   * std::stoi in base 10: leading white space is skipped, one optional sign is read, then
   * the longest run of digits; whatever follows is ignored. `None` where stoi throws:
   * no digits (std::invalid_argument) or a value outside 32-bit int (std::out_of_range).
   */
  function Stoi(s: string): (r: Option<int>)
    ensures r.Some? ==> Int32Min <= r.value <= Int32Max
  {
    match SignedValue(DropLeadingCSpace(s))
    case None => None
    case Some(v) => if Int32Min <= v <= Int32Max then Some(v) else None
  }

  lemma {:induction false} DigitPrefixOfDigits(s: string)
    requires AllDigits(s)
    ensures DigitPrefix(s) == s
  {
    if s != [] { DigitPrefixOfDigits(s[1..]); }
  }

  lemma LeadingDigitsOfNatToString(m: nat)
    ensures LeadingDigitsValue(NatToString(m)) == Some(m)
  {
    DigitsValueOfNatToString(m);
    DigitPrefixOfDigits(NatToString(m));
  }

  lemma SignedValueOfIntToString(n: int)
    ensures SignedValue(IntToString(n)) == Some(n)
  {
    var s := IntToString(n);
    if n < 0 {
      LeadingDigitsOfNatToString(-n);
      assert s[1..] == NatToString(-n);
    } else {
      LeadingDigitsOfNatToString(n);
    }
  }

  /** Parsing what to_string printed gives the number back, for every 32-bit int. */
  lemma StoiOfIntToString(n: int)
    requires Int32Min <= n <= Int32Max
    ensures Stoi(IntToString(n)) == Some(n)
  {
    var s := IntToString(n);
    assert DropLeadingCSpace(s) == s;
    SignedValueOfIntToString(n);
  }

  // ---------------------------------------------------------------------------
  // Searching
  // ---------------------------------------------------------------------------

  /** `pat` occurs in `s` starting at index `i`. */
  predicate OccursAt(s: string, pat: string, i: nat)
  {
    i + |pat| <= |s| && s[i..i + |pat|] == pat
  }

  /** std::string::find(pat, from) and Java's indexOf: the first occurrence at or after `from`. */
  function FindFrom(s: string, pat: string, from: nat): (r: Option<nat>)
    ensures r.Some? ==> from <= r.value && OccursAt(s, pat, r.value)
    ensures forall i :: from <= i && (r.None? || i < r.value) ==> !OccursAt(s, pat, i)
    decreases |s| - from
  {
    if from + |pat| > |s| then None
    else if OccursAt(s, pat, from) then Some(from)
    else FindFrom(s, pat, from + 1)
  }

  lemma OccursAtChar(s: string, c: char, i: nat)
    requires i < |s|
    ensures OccursAt(s, [c], i) <==> s[i] == c
  {
    assert s[i..i + 1] == [s[i]];
  }

  /** The first occurrence of the character `c` in `s` (std::string::find(c), Java's indexOf(c)). */
  function IndexOf(s: string, c: char): (r: Option<nat>)
    ensures r.Some? ==> r.value < |s| && s[r.value] == c
    ensures r.Some? ==> forall k :: 0 <= k < r.value ==> s[k] != c
    ensures r.None? ==> forall k :: 0 <= k < |s| ==> s[k] != c
  {
    var r := FindFrom(s, [c], 0);
    if r.Some? then
      OccursAtChar(s, c, r.value);
      assert forall k :: 0 <= k < r.value ==> s[k] != c by {
        forall k | 0 <= k < r.value ensures s[k] != c { OccursAtChar(s, c, k); }
      }
      r
    else
      assert forall k :: 0 <= k < |s| ==> s[k] != c by {
        forall k | 0 <= k < |s| ensures s[k] != c { OccursAtChar(s, c, k); }
      }
      r
  }

  /** The first '\n' in `s`, if any. */
  function FindNewline(s: string): (r: Option<nat>)
    ensures r.Some? ==> r.value < |s| && s[r.value] == '\n'
    ensures r.Some? ==> forall k :: 0 <= k < r.value ==> s[k] != '\n'
    ensures r.None? ==> forall k :: 0 <= k < |s| ==> s[k] != '\n'
  {
    IndexOf(s, '\n')
  }

  // ---------------------------------------------------------------------------
  // Lines
  // ---------------------------------------------------------------------------

  /**
   * The lines `while (std::getline(stream, line))` reads from `s`: pieces between '\n's;
   * a piece after the last '\n' is a line only when it is not empty.
   */
  function GetLines(s: string): (r: seq<string>)
    ensures forall i :: 0 <= i < |r| ==> '\n' !in r[i]
    decreases |s|
  {
    if s == [] then []
    else
      match FindNewline(s)
      case None => [s]
      case Some(i) => [s[..i]] + GetLines(s[i + 1..])
  }

  /** The pieces of `s` between '\n's, all of them, empty ones included. */
  function Pieces(s: string): (r: seq<string>)
    ensures |r| >= 1
    decreases |s|
  {
    match FindNewline(s)
    case None => [s]
    case Some(i) => [s[..i]] + Pieces(s[i + 1..])
  }

  function DropTrailingEmpty(p: seq<string>): (r: seq<string>)
    ensures r <= p
    ensures r == [] || r[|r| - 1] != ""
  {
    if p != [] && p[|p| - 1] == "" then DropTrailingEmpty(p[..|p| - 1]) else p
  }

  /**
   * Java's `s.split("\n")`: the pieces with trailing empty strings removed, except that a
   * string without any '\n' (the empty string included) yields itself alone.
   */
  function JavaSplit(s: string): seq<string>
  {
    if s == "" then [""] else DropTrailingEmpty(Pieces(s))
  }

  lemma FirstNewlineAt(s: string, i: nat)
    requires i < |s| && s[i] == '\n'
    requires forall k :: 0 <= k < i ==> s[k] != '\n'
    ensures FindNewline(s) == Some(i)
  {
  }

  /** Text without '\n', followed by '\n': the text, then an empty piece. */
  lemma PiecesOfLastLine(x: string)
    requires FindNewline(x).None?
    ensures Pieces(x + "\n") == [x, ""]
  {
    var s := x + "\n";
    assert forall k :: 0 <= k < |x| ==> s[k] == x[k];
    FirstNewlineAt(s, |x|);
    assert s[..|x|] == x;
    assert s[|x| + 1..] == "";
  }

  /** Appending '\n' moves neither the first '\n' nor the text before it. */
  lemma FirstNewlineKept(x: string, i: nat)
    requires FindNewline(x) == Some(i)
    ensures FindNewline(x + "\n") == Some(i)
    ensures (x + "\n")[..i] == x[..i]
    ensures (x + "\n")[i + 1..] == x[i + 1..] + "\n"
  {
    var s := x + "\n";
    assert forall k :: 0 <= k <= i ==> s[k] == x[k];
    FirstNewlineAt(s, i);
  }

  /** Appending a '\n' adds one empty piece at the end. */
  lemma {:induction false} PiecesOfNewlineTerminated(x: string)
    ensures Pieces(x + "\n") == Pieces(x) + [""]
    decreases |x|
  {
    match FindNewline(x)
    case None =>
      PiecesOfLastLine(x);
    case Some(i) =>
      FirstNewlineKept(x, i);
      PiecesOfNewlineTerminated(x[i + 1..]);
      assert [x[..i]] + (Pieces(x[i + 1..]) + [""]) == [x[..i]] + Pieces(x[i + 1..]) + [""];
  }

  /** A first line without '\n' followed by '\n' is the first piece and the first getline line. */
  lemma LineThenRest(a: string, rest: string)
    requires '\n' !in a
    ensures Pieces(a + "\n" + rest) == [a] + Pieces(rest)
    ensures GetLines(a + "\n" + rest) == [a] + GetLines(rest)
  {
    var s := a + "\n" + rest;
    FirstNewlineAt(s, |a|);
    assert s[..|a|] == a;
    assert s[|a| + 1..] == rest;
  }

  /** Text without '\n' is a single piece, and a single line when it is not empty. */
  lemma SingleLine(b: string)
    requires '\n' !in b
    ensures Pieces(b) == [b]
    ensures b != "" ==> GetLines(b) == [b]
  {
  }

  /** Java's split ignores one final '\n' of a non-empty string. */
  lemma JavaSplitIgnoresFinalNewline(x: string)
    requires x != ""
    ensures JavaSplit(x + "\n") == JavaSplit(x)
  {
    PiecesOfNewlineTerminated(x);
    var p := Pieces(x);
    assert (p + [""])[..|p|] == p;
  }

  // ---------------------------------------------------------------------------
  // Trimming
  // ---------------------------------------------------------------------------

  /** Java's String.trim(): removes every leading and trailing character up to U+0020. */
  predicate IsJavaBlank(c: char) { c <= ' ' }

  /** The blanks of the C++ idiom `erase(find_first_not_of(" \t"))`. */
  predicate IsSpaceOrTab(c: char) { c == ' ' || c == '\t' }

  function TrimLeading(s: string, blank: char -> bool): (r: string)
    ensures |r| <= |s| && r == s[|s| - |r|..]
    ensures r != [] ==> !blank(r[0])
    ensures forall i :: 0 <= i < |s| - |r| ==> blank(s[i])
  {
    if s != [] && blank(s[0]) then TrimLeading(s[1..], blank) else s
  }

  function TrimTrailing(s: string, blank: char -> bool): (r: string)
    ensures r <= s
    ensures r != [] ==> !blank(r[|r| - 1])
    ensures forall i :: |r| <= i < |s| ==> blank(s[i])
  {
    if s != [] && blank(s[|s| - 1]) then TrimTrailing(s[..|s| - 1], blank) else s
  }

  function Trim(s: string, blank: char -> bool): string
  {
    TrimTrailing(TrimLeading(s, blank), blank)
  }

  function JavaTrim(s: string): string { Trim(s, IsJavaBlank) }

  function TrimSpacesTabs(s: string): string { Trim(s, IsSpaceOrTab) }

  /** A string that neither starts nor ends with a blank is its own trim. */
  lemma TrimOfTrimmed(s: string, blank: char -> bool)
    requires s != [] ==> !blank(s[0]) && !blank(s[|s| - 1])
    ensures Trim(s, blank) == s
  {
  }

  // ---------------------------------------------------------------------------
  // Lexicographic order of std::string (operator<)
  // ---------------------------------------------------------------------------

  predicate StrLess(a: string, b: string)
  {
    if a == [] then b != []
    else if b == [] then false
    else if a[0] == b[0] then StrLess(a[1..], b[1..])
    else a[0] < b[0]
  }

  lemma {:induction false} StrLessIrreflexive(a: string)
    ensures !StrLess(a, a)
  {
    if a != [] { StrLessIrreflexive(a[1..]); }
  }

  lemma {:induction false} StrLessTransitive(a: string, b: string, c: string)
    requires StrLess(a, b) && StrLess(b, c)
    ensures StrLess(a, c)
  {
    if a != [] && b != [] && c != [] && a[0] == b[0] && b[0] == c[0] {
      StrLessTransitive(a[1..], b[1..], c[1..]);
    }
  }

  lemma {:induction false} StrLessTotal(a: string, b: string)
    requires a != b
    ensures StrLess(a, b) || StrLess(b, a)
  {
    if a != [] && b != [] && a[0] == b[0] {
      assert a == [a[0]] + a[1..] && b == [b[0]] + b[1..];
      StrLessTotal(a[1..], b[1..]);
    }
  }

  lemma {:induction false} StrLessAsymmetric(a: string, b: string)
    requires StrLess(a, b)
    ensures !StrLess(b, a)
  {
    if StrLess(b, a) {
      StrLessTransitive(a, b, a);
      StrLessIrreflexive(a);
    }
  }
}
