/**
 * The small part of java.lang the generator relies on: String.trim,
 * String.toUpperCase, String.contains, String.replaceAll with a literal
 * pattern, String.split("\t"), String.equalsIgnoreCase, String.compareTo,
 * the decimal integer parsers behind Byte/Short/Integer.parseX, and the
 * decimal rendering of a byte in string concatenation.
 */
module JavaLang {

  datatype Option<T> = None | Some(value: T)

  const BYTE_MIN: int := -128
  const BYTE_MAX: int := 127
  const SHORT_MIN: int := -32768
  const SHORT_MAX: int := 32767
  const INT_MIN: int := -2147483648
  const INT_MAX: int := 2147483647

  predicate InByteRange(v: int) { BYTE_MIN <= v <= BYTE_MAX }

  // ---------------------------------------------------------------------
  // trim, isEmpty

  /** String.trim() strips every leading and trailing character <= ' '. */
  predicate IsBlank(s: string) {
    forall i :: 0 <= i < |s| ==> s[i] <= ' '
  }

  function TrimLeft(s: string): (r: string)
    ensures |r| <= |s| && r == s[|s| - |r|..]
    ensures r == [] || r[0] > ' '
    ensures IsBlank(s[..|s| - |r|])
    decreases |s|
  {
    if |s| > 0 && s[0] <= ' ' then TrimLeft(s[1..]) else s
  }

  function TrimRight(s: string): (r: string)
    ensures |r| <= |s| && r == s[..|r|]
    ensures r == [] || r[|r| - 1] > ' '
    ensures IsBlank(s[|r|..])
    decreases |s|
  {
    if |s| > 0 && s[|s| - 1] <= ' ' then TrimRight(s[..|s| - 1]) else s
  }

  function Trim(s: string): string {
    TrimRight(TrimLeft(s))
  }

  /** s.trim().isEmpty() holds exactly when every character of s is <= ' '. */
  lemma TrimEmptyIffBlank(s: string)
    ensures Trim(s) == [] <==> IsBlank(s)
  {
    var l := TrimLeft(s);
    if Trim(s) == [] {
      assert IsBlank(l[0..]);
      assert s == s[..|s| - |l|] + l;
    }
  }

  // ---------------------------------------------------------------------
  // toUpperCase (ASCII letters)

  predicate IsLower(c: char) { 'a' <= c <= 'z' }

  /** No character of s is a lower-case ASCII letter. */
  predicate NoLower(s: string) {
    forall i :: 0 <= i < |s| ==> !IsLower(s[i])
  }

  function UpperChar(c: char): (u: char)
    ensures !IsLower(u)
    ensures IsLower(c) ==> u as int == c as int - 32
    ensures !IsLower(c) ==> u == c
  {
    if IsLower(c) then (c as int - 32) as char else c
  }

  /**
   * toUpperCase on ASCII letters: no lower-case letter is left, every
   * lower-case letter moves to its capital, and nothing else changes.
   */
  function ToUpper(s: string): (r: string)
    ensures |r| == |s|
    ensures forall i :: 0 <= i < |r| ==> !IsLower(r[i])
    ensures forall i :: 0 <= i < |s| && IsLower(s[i]) ==> r[i] as int == s[i] as int - 32
    ensures forall i :: 0 <= i < |s| && !IsLower(s[i]) ==> r[i] == s[i]
  {
    seq(|s|, i requires 0 <= i < |s| => UpperChar(s[i]))
  }

  // ---------------------------------------------------------------------
  // contains, replaceAll

  /** Upper-casing a text without lower-case letters changes nothing. */
  lemma ToUpperUnchanged(s: string)
    requires forall i :: 0 <= i < |s| ==> !IsLower(s[i])
    ensures ToUpper(s) == s
  {
  }

  predicate StartsWith(s: string, p: string) {
    |p| <= |s| && s[..|p|] == p
  }

  predicate EndsWith(s: string, p: string) {
    |p| <= |s| && s[|s| - |p|..] == p
  }

  predicate Contains(s: string, p: string) {
    exists i :: 0 <= i <= |s| - |p| && StartsWith(s[i..], p)
  }

  /**
   * String.replaceAll(p, r) for a pattern p without regular-expression
   * metacharacters and a replacement without '$' or '\': occurrences are
   * found left to right and do not overlap.
   */
  function ReplaceAll(s: string, p: string, r: string): string
    requires |p| > 0
    decreases |s|
  {
    if |s| < |p| then s
    else if s[..|p|] == p then r + ReplaceAll(s[|p|..], p, r)
    else [s[0]] + ReplaceAll(s[1..], p, r)
  }

  /** Replacing a pattern that does not occur changes nothing. */
  lemma {:induction false} ReplaceAllAbsent(s: string, p: string, r: string)
    requires |p| > 0
    requires !Contains(s, p)
    ensures ReplaceAll(s, p, r) == s
    decreases |s|
  {
    if |s| >= |p| {
      assert s[0..] == s;
      assert !StartsWith(s[0..], p);
      forall i | 0 <= i <= |s[1..]| - |p| ensures !StartsWith(s[1..][i..], p) {
        assert s[1..][i..] == s[i + 1..];
      }
      ReplaceAllAbsent(s[1..], p, r);
    }
  }

  /** A text lacking one of the pattern's characters does not contain it. */
  lemma MissingCharNotContained(s: string, p: string, c: char)
    requires c in p && c !in s
    ensures !Contains(s, p)
  {
    var k :| 0 <= k < |p| && p[k] == c;
    forall i | 0 <= i <= |s| - |p| ensures !StartsWith(s[i..], p) {
      assert s[i..][..|p|][k] == s[i + k] != c;
    }
  }

  /** A prefix that holds no first character of the pattern is copied unchanged. */
  lemma {:induction false} ReplaceAllSkip(x: string, y: string, p: string, r: string)
    requires |p| > 0 && p[0] !in x
    ensures ReplaceAll(x + y, p, r) == x + ReplaceAll(y, p, r)
    decreases |x|
  {
    if |x| > 0 {
      var s := x + y;
      assert s[1..] == x[1..] + y;
      ReplaceAllSkip(x[1..], y, p, r);
      if |s| >= |p| { assert s[..|p|][0] == x[0]; }
      assert s == [x[0]] + (x[1..] + y);
      assert x == [x[0]] + x[1..];
    } else {
      assert x + y == y;
    }
  }

  /** A text that does not start with the pattern keeps its first character. */
  lemma ReplaceAllStep(s: string, p: string, r: string)
    requires |p| > 0 && |s| > 0 && !StartsWith(s, p)
    ensures ReplaceAll(s, p, r) == [s[0]] + ReplaceAll(s[1..], p, r)
  {
    if |s| < |p| {
      assert ReplaceAll(s[1..], p, r) == s[1..];
      assert s == [s[0]] + s[1..];
    }
  }

  /** A leading occurrence of the pattern is replaced and the rest is rewritten. */
  lemma ReplaceAllMatch(y: string, p: string, r: string)
    requires |p| > 0
    ensures ReplaceAll(p + y, p, r) == r + ReplaceAll(y, p, r)
  {
    var s := p + y;
    assert s[..|p|] == p && s[|p|..] == y;
  }

  /** One occurrence after a prefix that cannot start a match. */
  lemma ReplaceAt(x: string, p: string, r: string, y: string)
    requires |p| > 0 && p[0] !in x
    ensures ReplaceAll(x + p + y, p, r) == x + r + ReplaceAll(y, p, r)
  {
    assert x + p + y == x + (p + y);
    ReplaceAllSkip(x, p + y, p, r);
    ReplaceAllMatch(y, p, r);
  }

  /** A match at the start of a text that holds no other. */
  lemma ReplaceLeading(p: string, y: string, r: string)
    requires |p| > 0 && !Contains(y, p)
    ensures ReplaceAll(p + y, p, r) == r + y
  {
    ReplaceAllAbsent(y, p, r);
    ReplaceAllMatch(y, p, r);
  }

  /** Two occurrences, each after a part that cannot start a match. */
  lemma ReplaceBetween(a: string, b: string, c: string, p: string, r: string)
    requires |p| > 0 && p[0] !in a && p[0] !in b && !Contains(c, p)
    ensures ReplaceAll(a + p + b + p + c, p, r) == a + r + b + r + c
  {
    ReplaceAllAbsent(c, p, r);
    ReplaceAt(b, p, r, c);
    assert a + p + b + p + c == a + p + (b + p + c);
    ReplaceAt(a, p, r, b + p + c);
  }

  /** Replacing by a text with no lower-case letter keeps a text free of them. */
  lemma {:induction false} ReplaceAllKeepsUpper(s: string, p: string, r: string)
    requires |p| > 0
    requires forall i :: 0 <= i < |s| ==> !IsLower(s[i])
    requires forall i :: 0 <= i < |r| ==> !IsLower(r[i])
    ensures forall i :: 0 <= i < |ReplaceAll(s, p, r)| ==> !IsLower(ReplaceAll(s, p, r)[i])
    decreases |s|
  {
    if |s| >= |p| {
      if s[..|p|] == p {
        ReplaceAllKeepsUpper(s[|p|..], p, r);
      } else {
        ReplaceAllKeepsUpper(s[1..], p, r);
      }
    }
  }

  /** Trimming a padded text whose ends are not blank removes the padding only. */
  lemma TrimPadded(x: string)
    requires |x| > 0 && x[0] > ' ' && x[|x| - 1] > ' '
    ensures Trim(x + " ") == x
  {
    var s := x + " ";
    var l := TrimLeft(s);
    assert s[0] == x[0];
    assert l == s;
    var r := TrimRight(l);
    assert s[|x|] == ' ' && s[|x| - 1] == x[|x| - 1];
    assert r == s[..|x|] == x;
  }

  // ---------------------------------------------------------------------
  // split

  /** Every piece of s between separators d, trailing empty pieces kept. */
  function Pieces(s: string, d: char): (r: seq<string>)
    ensures |r| >= 1
    decreases |s|
  {
    if |s| == 0 then [""]
    else
      var rest := Pieces(s[1..], d);
      if s[0] == d then [""] + rest
      else [[s[0]] + rest[0]] + rest[1..]
  }

  /** The inverse of Pieces: the pieces glued back with d between them. */
  function Join(xs: seq<string>, d: char): string
    decreases |xs|
  {
    if |xs| == 0 then ""
    else if |xs| == 1 then xs[0]
    else xs[0] + [d] + Join(xs[1..], d)
  }

  lemma {:induction false} PiecesHaveNoSeparator(s: string, d: char)
    ensures forall k, j :: 0 <= k < |Pieces(s, d)| && 0 <= j < |Pieces(s, d)[k]| ==> Pieces(s, d)[k][j] != d
    decreases |s|
  {
    if |s| > 0 {
      PiecesHaveNoSeparator(s[1..], d);
      var rest := Pieces(s[1..], d);
      if s[0] != d {
        forall j | 0 <= j < |[s[0]] + rest[0]| ensures ([s[0]] + rest[0])[j] != d {
          if j > 0 { assert ([s[0]] + rest[0])[j] == rest[0][j - 1]; }
        }
      }
    }
  }

  /** Every character of a piece is a character of the text. */
  lemma {:induction false} PiecesChars(s: string, d: char)
    ensures forall k, j :: 0 <= k < |Pieces(s, d)| && 0 <= j < |Pieces(s, d)[k]| ==> Pieces(s, d)[k][j] in s
    decreases |s|
  {
    if |s| > 0 {
      PiecesChars(s[1..], d);
      var rest := Pieces(s[1..], d);
      assert forall c :: c in s[1..] ==> c in s;
      if s[0] != d {
        forall j | 0 <= j < |[s[0]] + rest[0]| ensures ([s[0]] + rest[0])[j] in s {
          if j > 0 { assert ([s[0]] + rest[0])[j] == rest[0][j - 1]; }
        }
      }
    }
  }

  /** Splitting and joining again gives back the original text. */
  lemma {:induction false} JoinPieces(s: string, d: char)
    ensures Join(Pieces(s, d), d) == s
    decreases |s|
  {
    if |s| > 0 {
      JoinPieces(s[1..], d);
      var rest := Pieces(s[1..], d);
      if s[0] == d {
        assert Pieces(s, d) == [""] + rest;
        assert Join([""] + rest, d) == "" + [d] + Join(rest, d);
      } else {
        var xs := [[s[0]] + rest[0]] + rest[1..];
        if |rest| == 1 {
          assert rest == [rest[0]];
        } else {
          assert xs[1..] == rest[1..];
          assert Join(rest, d) == rest[0] + [d] + Join(rest[1..], d);
        }
      }
    }
  }

  /** A separator-free text is one piece. */
  lemma {:induction false} PiecesNoSeparator(x: string, d: char)
    requires d !in x
    ensures Pieces(x, d) == [x]
    decreases |x|
  {
    if |x| > 0 {
      PiecesNoSeparator(x[1..], d);
      assert x == [x[0]] + x[1..];
    }
  }

  /** A separator-free prefix followed by a separator is the first piece. */
  lemma {:induction false} PiecesCons(x: string, y: string, d: char)
    requires d !in x
    ensures Pieces(x + [d] + y, d) == [x] + Pieces(y, d)
    decreases |x|
  {
    var s := x + [d] + y;
    if |x| == 0 {
      assert s[1..] == y;
    } else {
      assert s[1..] == x[1..] + [d] + y;
      PiecesCons(x[1..], y, d);
      assert x == [x[0]] + x[1..];
    }
  }

  function DropTrailingEmpty(xs: seq<string>): (r: seq<string>)
    ensures |r| <= |xs| && r == xs[..|r|]
    ensures |r| == 0 || r[|r| - 1] != ""
    ensures forall k :: |r| <= k < |xs| ==> xs[k] == ""
    decreases |xs|
  {
    if |xs| > 0 && xs[|xs| - 1] == "" then DropTrailingEmpty(xs[..|xs| - 1]) else xs
  }

  /**
   * String.split with a one-character literal separator and limit 0: with no
   * separator in s the result is [s]; otherwise the pieces, with trailing
   * empty pieces removed.
   */
  function JavaSplit(s: string, d: char): (r: seq<string>)
    ensures d !in s ==> r == [s]
    ensures d in s ==> |r| <= |Pieces(s, d)| && r == Pieces(s, d)[..|r|]
    ensures d in s ==> forall k :: |r| <= k < |Pieces(s, d)| ==> Pieces(s, d)[k] == ""
  {
    if d !in s then [s] else DropTrailingEmpty(Pieces(s, d))
  }

  /** Splitting the names joined by a separator none of them holds gives them back. */
  lemma {:induction false} PiecesJoin(xs: seq<string>, d: char)
    requires |xs| >= 1
    requires forall k, j :: 0 <= k < |xs| && 0 <= j < |xs[k]| ==> xs[k][j] != d
    ensures Pieces(Join(xs, d), d) == xs
    decreases |xs|
  {
    if |xs| == 1 {
      PiecesNoSeparator(xs[0], d);
    } else {
      PiecesJoin(xs[1..], d);
      PiecesCons(xs[0], Join(xs[1..], d), d);
      assert xs == [xs[0]] + xs[1..];
    }
  }

  /**
   * split(d) inverts joining with d when no name holds d and the last name
   * is not empty (split drops trailing empty strings).
   */
  lemma SplitJoin(xs: seq<string>, d: char)
    requires |xs| >= 1 && xs[|xs| - 1] != ""
    requires forall k, j :: 0 <= k < |xs| && 0 <= j < |xs[k]| ==> xs[k][j] != d
    ensures JavaSplit(Join(xs, d), d) == xs
  {
    PiecesJoin(xs, d);
    if |xs| == 1 {
      assert d !in xs[0];
    } else {
      assert Join(xs, d)[|xs[0]|] == d;
    }
  }

  /** Three names without the separator, the last non-empty, split back apart. */
  lemma SplitThree(a: string, b: string, c: string, d: char)
    requires d !in a && d !in b && d !in c && c != ""
    ensures JavaSplit(a + [d] + b + [d] + c, d) == [a, b, c]
  {
    var xs := [a, b, c];
    assert xs[1..] == [b, c] && xs[1..][1..] == [c];
    assert Join([c], d) == c;
    assert Join([b, c], d) == b + [d] + c;
    assert Join(xs, d) == a + [d] + (b + [d] + c) == a + [d] + b + [d] + c;
    SplitJoin(xs, d);
  }

  // ---------------------------------------------------------------------
  // decimal integers

  predicate IsDigit(c: char) { '0' <= c <= '9' }

  predicate AllDigits(s: string) {
    forall i :: 0 <= i < |s| ==> IsDigit(s[i])
  }

  /** Value of a string of ASCII digits, most significant first. */
  function DigitsValue(s: string): (v: nat)
    requires AllDigits(s)
    decreases |s|
  {
    if |s| == 0 then 0
    else DigitsValue(s[..|s| - 1]) * 10 + (s[|s| - 1] as int - '0' as int)
  }

  /**
   * Integer.parseInt(s, 10): an optional '+' or '-' then at least one digit;
   * a value outside the 32-bit range is refused like any malformed text.
   */
  function ParseDecimal(s: string): (r: Option<int>)
    ensures r.Some? ==> INT_MIN <= r.value <= INT_MAX
  {
    var neg := |s| > 0 && s[0] == '-';
    var body := if |s| > 0 && (s[0] == '-' || s[0] == '+') then s[1..] else s;
    if |body| == 0 || !AllDigits(body) then None
    else
      var d: int := DigitsValue(body);
      var v := if neg then -d else d;
      if INT_MIN <= v <= INT_MAX then Some(v) else None
  }

  /** Byte.parseByte succeeds. */
  predicate IsByte(s: string) {
    var p := ParseDecimal(s); p.Some? && BYTE_MIN <= p.value <= BYTE_MAX
  }

  /** Short.parseShort succeeds. */
  predicate IsShort(s: string) {
    var p := ParseDecimal(s); p.Some? && SHORT_MIN <= p.value <= SHORT_MAX
  }

  /** Integer.parseInt succeeds. */
  predicate IsInt(s: string) {
    ParseDecimal(s).Some?
  }

  /** Byte.valueOf(s) for a string that parses as a byte. */
  function ByteValue(s: string): (b: int)
    requires IsByte(s)
    ensures InByteRange(b)
  {
    ParseDecimal(s).value
  }

  lemma ByteIsShortIsInt(s: string)
    ensures IsByte(s) ==> IsShort(s)
    ensures IsShort(s) ==> IsInt(s)
  {
  }

  function DigitChar(d: nat): (c: char)
    requires d < 10
    ensures IsDigit(c) && c as int - '0' as int == d
  {
    ('0' as int + d) as char
  }

  /** Decimal digits of n, no leading zero. */
  function NatText(n: nat): (s: string)
    ensures |s| > 0 && AllDigits(s)
    decreases n
  {
    if n < 10 then [DigitChar(n)] else NatText(n / 10) + [DigitChar(n % 10)]
  }

  /** Integer.toString(n), as used when a byte is concatenated to a String. */
  function DecimalText(n: int): string {
    if n < 0 then "-" + NatText(-n) else NatText(n)
  }

  lemma {:induction false} NatTextValue(n: nat)
    ensures DigitsValue(NatText(n)) == n
    decreases n
  {
    if n >= 10 {
      NatTextValue(n / 10);
      var s := NatText(n);
      assert s[..|s| - 1] == NatText(n / 10);
    }
  }

  /** Parsing the printed value gives the value back. */
  lemma DecimalRoundTrip(n: int)
    requires INT_MIN <= n <= INT_MAX
    ensures ParseDecimal(DecimalText(n)) == Some(n)
  {
    var t := DecimalText(n);
    if n < 0 {
      NatTextValue(-n);
      assert t == "-" + NatText(-n);
      assert t[1..] == NatText(-n);
      assert |t| > 0 && t[0] == '-';
    } else {
      NatTextValue(n);
      assert t == NatText(n);
      assert t[0] != '-' && t[0] != '+';
    }
  }

  /** Different values print differently. */
  lemma DecimalTextInjective(a: int, b: int)
    requires DecimalText(a) == DecimalText(b)
    ensures a == b
  {
    var t := DecimalText(a);
    assert t[0] == '-' <==> a < 0;
    assert t[0] == '-' <==> b < 0;
    if a < 0 {
      NatTextValue(-a);
      NatTextValue(-b);
      assert t[1..] == NatText(-a) && t[1..] == NatText(-b);
    } else {
      NatTextValue(a);
      NatTextValue(b);
    }
  }

  // ---------------------------------------------------------------------
  // equalsIgnoreCase, compareTo

  /** String.equalsIgnoreCase, for ASCII letters. */
  predicate EqualsIgnoreCase(a: string, b: string) {
    |a| == |b| && forall i :: 0 <= i < |a| ==> UpperChar(a[i]) == UpperChar(b[i])
  }

  /** Texts without lower-case ASCII letters are equal ignoring case only when equal. */
  lemma EqualsIgnoreCaseOnUpper(a: string, b: string)
    requires forall i :: 0 <= i < |a| ==> !IsLower(a[i])
    requires forall i :: 0 <= i < |b| ==> !IsLower(b[i])
    ensures EqualsIgnoreCase(a, b) <==> a == b
  {
    if EqualsIgnoreCase(a, b) {
      assert forall i :: 0 <= i < |a| ==> a[i] == UpperChar(a[i]) == UpperChar(b[i]) == b[i];
    }
  }

  /** a.compareTo(b) < 0: lexicographic order by character, a proper prefix first. */
  predicate StrLess(a: string, b: string)
    decreases |a|
  {
    if |a| == 0 then |b| > 0
    else if |b| == 0 then false
    else if a[0] != b[0] then a[0] < b[0]
    else StrLess(a[1..], b[1..])
  }

  lemma {:induction false} StrLessIrreflexive(a: string)
    ensures !StrLess(a, a)
    decreases |a|
  {
    if |a| > 0 { StrLessIrreflexive(a[1..]); }
  }

  lemma {:induction false} StrLessTotal(a: string, b: string)
    ensures a == b || StrLess(a, b) || StrLess(b, a)
    decreases |a|
  {
    if |a| > 0 && |b| > 0 && a[0] == b[0] {
      StrLessTotal(a[1..], b[1..]);
      if a[1..] == b[1..] { assert a == [a[0]] + a[1..] && b == [b[0]] + b[1..]; }
    }
  }

  lemma {:induction false} StrLessTransitive(a: string, b: string, c: string)
    requires StrLess(a, b) && StrLess(b, c)
    ensures StrLess(a, c)
    decreases |a|
  {
    if |a| > 0 && a[0] == b[0] && b[0] == c[0] {
      StrLessTransitive(a[1..], b[1..], c[1..]);
    }
  }
}
