/** The JavaScript string operations the pipeline relies on:
    String.prototype.trim, String.prototype.split with a one-character
    separator, the decimal rendering of a non-negative integer, and the
    "array index" test that decides the order of an object's keys. */
module Text {

  /** The WhiteSpace and LineTerminator code points of ECMAScript, which
      String.prototype.trim removes from both ends. */
  predicate IsWhitespace(c: char) {
    || c == ' ' || c == '\t' || c == '\n' || c == '\r'
    || c == '\U{000B}' || c == '\U{000C}' || c == '\U{00A0}' || c == '\U{1680}'
    || ('\U{2000}' <= c <= '\U{200A}')
    || c == '\U{2028}' || c == '\U{2029}' || c == '\U{202F}' || c == '\U{205F}'
    || c == '\U{3000}' || c == '\U{FEFF}'
  }

  /** The length of the run of whitespace that starts `s`. */
  function LeadingSpace(s: string): (n: nat)
    ensures n <= |s|
  {
    if |s| > 0 && IsWhitespace(s[0]) then 1 + LeadingSpace(s[1..]) else 0
  }

  /** The run counted by LeadingSpace is whitespace and is maximal. */
  lemma {:induction false} LeadingSpaceShape(s: string)
    ensures forall i :: 0 <= i < LeadingSpace(s) ==> IsWhitespace(s[i])
    ensures LeadingSpace(s) < |s| ==> !IsWhitespace(s[LeadingSpace(s)])
  {
    if |s| > 0 && IsWhitespace(s[0]) {
      LeadingSpaceShape(s[1..]);
    }
  }

  /** The length of the run of whitespace that ends `s`. */
  function TrailingSpace(s: string): (n: nat)
    ensures n <= |s|
  {
    if |s| > 0 && IsWhitespace(s[|s| - 1]) then 1 + TrailingSpace(s[..|s| - 1]) else 0
  }

  /** The run counted by TrailingSpace is whitespace and is maximal. */
  lemma {:induction false} TrailingSpaceShape(s: string)
    ensures forall i :: |s| - TrailingSpace(s) <= i < |s| ==> IsWhitespace(s[i])
    ensures TrailingSpace(s) < |s| ==> !IsWhitespace(s[|s| - 1 - TrailingSpace(s)])
  {
    if |s| > 0 && IsWhitespace(s[|s| - 1]) {
      TrailingSpaceShape(s[..|s| - 1]);
    }
  }

  /** String.prototype.trim: `s` without its leading and trailing whitespace. */
  function Trim(s: string): string {
    var t := s[LeadingSpace(s)..];
    t[..|t| - TrailingSpace(t)]
  }

  /** What trimming keeps: the part of `s` after its leading whitespace, with
      only whitespace cut off after it, and neither starting nor ending with
      whitespace. */
  lemma TrimShape(s: string)
    ensures |Trim(s)| <= |s|
    ensures LeadingSpace(s) + |Trim(s)| <= |s| && Trim(s) == s[LeadingSpace(s)..LeadingSpace(s) + |Trim(s)|]
    ensures forall i :: LeadingSpace(s) + |Trim(s)| <= i < |s| ==> IsWhitespace(s[i])
    ensures Trim(s) == [] || (!IsWhitespace(Trim(s)[0]) && !IsWhitespace(Trim(s)[|Trim(s)| - 1]))
  {
    LeadingSpaceShape(s);
    TrailingSpaceShape(s[LeadingSpace(s)..]);
  }

  /** Trimming twice is trimming once. */
  lemma TrimIdempotent(s: string)
    ensures Trim(Trim(s)) == Trim(s)
  {
    var r := Trim(s);
    TrimShape(s);
    LeadingSpaceShape(r);
    TrailingSpaceShape(r);
    assert LeadingSpace(r) == 0;
    assert TrailingSpace(r[LeadingSpace(r)..]) == 0;
    assert r[LeadingSpace(r)..] == r;
  }

  /** Array.prototype.join with a one-character separator. */
  function Join(parts: seq<string>, sep: char): string
    requires |parts| > 0
  {
    if |parts| == 1 then parts[0]
    else Join(parts[..|parts| - 1], sep) + [sep] + parts[|parts| - 1]
  }

  /** String.prototype.split with a one-character separator: the pieces of
      `s` between the occurrences of `sep`. There is one more piece than
      there are separators (so "" splits into [""]), no piece holds the
      separator, and joining the pieces gives back `s`. */
  function Split(s: string, sep: char): (parts: seq<string>)
    ensures |parts| == multiset(s)[sep] + 1
    ensures forall i :: 0 <= i < |parts| ==> sep !in parts[i]
    ensures Join(parts, sep) == s
  {
    if s == [] then [""]
    else
      var init := Split(s[..|s| - 1], sep);
      SplitStep(s, sep, init);
      SplitNext(init, s[|s| - 1], sep)
  }

  /** The pieces once one more character is read: a separator opens a new
      empty piece, any other character extends the last one. */
  function SplitNext(init: seq<string>, c: char, sep: char): seq<string>
    requires |init| > 0
  {
    if c == sep then init + [""] else ExtendLast(init, c)
  }

  /** Reading one more character keeps the promises of `Split`. */
  lemma SplitStep(s: string, sep: char, init: seq<string>)
    requires |s| > 0
    requires |init| == multiset(s[..|s| - 1])[sep] + 1
    requires forall i :: 0 <= i < |init| ==> sep !in init[i]
    requires Join(init, sep) == s[..|s| - 1]
    ensures var r := SplitNext(init, s[|s| - 1], sep);
      && |r| == multiset(s)[sep] + 1
      && (forall i :: 0 <= i < |r| ==> sep !in r[i])
      && Join(r, sep) == s
  {
    var c := s[|s| - 1];
    assert s == s[..|s| - 1] + [c];
    if c != sep {
      ExtendLastKeeps(init, sep, c);
    }
  }

  /** `parts` with `c` appended to the last piece. */
  function ExtendLast(parts: seq<string>, c: char): seq<string>
    requires |parts| > 0
  {
    parts[..|parts| - 1] + [parts[|parts| - 1] + [c]]
  }

  /** Appending a character other than the separator to the last piece
      keeps the pieces free of it and appends it to the joined string. */
  lemma ExtendLastKeeps(parts: seq<string>, sep: char, c: char)
    requires |parts| > 0 && c != sep
    requires forall i :: 0 <= i < |parts| ==> sep !in parts[i]
    ensures |ExtendLast(parts, c)| == |parts|
    ensures forall i :: 0 <= i < |parts| ==> sep !in ExtendLast(parts, c)[i]
    ensures Join(ExtendLast(parts, c), sep) == Join(parts, sep) + [c]
  {
    JoinExtendLast(parts, sep, c);
    var r := ExtendLast(parts, c);
    forall i | 0 <= i < |parts| ensures sep !in r[i] {
      if i < |parts| - 1 {
        assert r[i] == parts[i];
      }
    }
  }

  /** Appending a character to the last piece appends it to the joined string. */
  lemma JoinExtendLast(parts: seq<string>, sep: char, c: char)
    requires |parts| > 0
    ensures Join(ExtendLast(parts, c), sep) == Join(parts, sep) + [c]
  {
    var r := ExtendLast(parts, c);
    assert r[..|r| - 1] == parts[..|parts| - 1];
  }

  /** A piece without the separator splits into itself. */
  lemma {:induction false} SplitPiece(p: string, sep: char)
    requires sep !in p
    ensures Split(p, sep) == [p]
  {
    if p != [] {
      SplitPiece(p[..|p| - 1], sep);
    }
  }

  lemma {:induction false} SplitAfterSeparator(a: string, sep: char, b: string)
    requires sep !in b
    ensures Split(a + [sep] + b, sep) == Split(a, sep) + [b]
  {
    if b == [] {
      assert (a + [sep] + b)[..|a + [sep] + b| - 1] == a;
    } else {
      var b' := b[..|b| - 1];
      assert (a + [sep] + b)[..|a + [sep] + b| - 1] == a + [sep] + b';
      assert b == b' + [b[|b| - 1]];
      SplitAfterSeparator(a, sep, b');
    }
  }

  /** Splitting undoes joining pieces that do not hold the separator. */
  lemma {:induction false} SplitJoin(parts: seq<string>, sep: char)
    requires |parts| > 0
    requires forall i :: 0 <= i < |parts| ==> sep !in parts[i]
    ensures Split(Join(parts, sep), sep) == parts
  {
    if |parts| == 1 {
      SplitPiece(parts[0], sep);
    } else {
      var init := parts[..|parts| - 1];
      SplitJoin(init, sep);
      SplitAfterSeparator(Join(init, sep), sep, parts[|parts| - 1]);
      FrontAndLast(parts);
    }
  }

  lemma FrontAndLast<T>(s: seq<T>)
    requires |s| > 0
    ensures s[..|s| - 1] + [s[|s| - 1]] == s
  {
  }

  predicate IsDigit(c: char) {
    '0' <= c <= '9'
  }

  predicate IsDigits(s: string) {
    forall i :: 0 <= i < |s| ==> IsDigit(s[i])
  }

  function DigitChar(d: nat): (c: char)
    requires d < 10
    ensures IsDigit(c) && c as int - '0' as int == d
  {
    ('0' as int + d) as char
  }

  /** The number a string of decimal digits denotes. */
  function DigitsValue(s: string): nat
    requires IsDigits(s)
  {
    if s == [] then 0
    else 10 * DigitsValue(s[..|s| - 1]) + (s[|s| - 1] as int - '0' as int)
  }

  /** A decimal numeral as JavaScript prints one: digits only, and no
      leading zero unless the numeral is "0". */
  predicate IsCanonicalDecimal(s: string) {
    |s| > 0 && IsDigits(s) && (s[0] == '0' ==> |s| == 1)
  }

  /** The decimal numeral of `n`, as `${n}` prints it. */
  function Decimal(n: nat): (s: string)
    ensures IsCanonicalDecimal(s)
  {
    if n < 10 then [DigitChar(n)]
    else
      var s := Decimal(n / 10) + [DigitChar(n % 10)];
      assert s[0] == Decimal(n / 10)[0];
      s
  }

  /** Reading back a printed numeral gives the number. */
  lemma {:induction false} DecimalValue(n: nat)
    ensures DigitsValue(Decimal(n)) == n
  {
    if n >= 10 {
      DecimalValue(n / 10);
      var s := Decimal(n);
      assert s[..|s| - 1] == Decimal(n / 10);
    }
  }

  lemma {:induction false} ZeroValueAllZeros(s: string)
    requires IsDigits(s) && DigitsValue(s) == 0
    ensures forall i :: 0 <= i < |s| ==> s[i] == '0'
  {
    if s != [] {
      ZeroValueAllZeros(s[..|s| - 1]);
    }
  }

  /** Printing the number a canonical numeral denotes gives the numeral. */
  lemma {:induction false} ValueDecimal(s: string)
    requires IsCanonicalDecimal(s)
    ensures Decimal(DigitsValue(s)) == s
  {
    if |s| > 1 {
      var init := s[..|s| - 1];
      var v := DigitsValue(init);
      if v == 0 {
        ZeroValueAllZeros(init);
        assert false;
      }
      ValueDecimal(init);
      assert s == init + [s[|s| - 1]];
    }
  }

  /** Distinct numbers print as distinct numerals. */
  lemma DecimalInjective(m: nat, n: nat)
    requires Decimal(m) == Decimal(n)
    ensures m == n
  {
    DecimalValue(m);
    DecimalValue(n);
  }

  /** An "array index" key of ECMAScript: the canonical numeral of an
      integer in [0, 2^32 - 2]. An object lists such keys first, in
      ascending numeric order. */
  predicate IsArrayIndex(k: string) {
    IsCanonicalDecimal(k) && DigitsValue(k) < 0xFFFF_FFFF
  }

  predicate IsOtherKey(k: string) {
    !IsArrayIndex(k)
  }

  /** The numeric order among array-index keys. */
  function IndexValue(k: string): real {
    if IsArrayIndex(k) then DigitsValue(k) as real else 0.0
  }
}
