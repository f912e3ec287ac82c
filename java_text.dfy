/**
 * The few java.lang.String operations the command handlers depend on: lower-casing,
 * equalsIgnoreCase, split (with Java's rules for empty strings), replace of one character,
 * and the decimal syntax accepted by Long.valueOf / Integer.valueOf.
 */
module JavaText {

  // ---------------------------------------------------------------------------
  // Case

  /** Lower-case mapping of one character (ASCII letters only). */
  function LowerChar(c: char): char {
    if 'A' <= c <= 'Z' then (c as int + 32) as char else c
  }

  /** `s.toLowerCase()`, character by character. */
  function Lower(s: string): (r: string)
    ensures |r| == |s|
    ensures forall i :: 0 <= i < |s| ==> r[i] == LowerChar(s[i])
  {
    seq(|s|, i requires 0 <= i < |s| => LowerChar(s[i]))
  }

  /** Lower-casing a lower-cased key changes nothing, so a stored alias key is its own lookup key. */
  lemma LowerIdempotent(s: string)
    ensures Lower(Lower(s)) == Lower(s)
  {
  }

  /** `a.equalsIgnoreCase(b)`. */
  predicate EqualsIgnoreCase(a: string, b: string) {
    Lower(a) == Lower(b)
  }

  // ---------------------------------------------------------------------------
  // Split

  /**
   * The three separators used with String.split in the handlers:
   * `"\\."` (permissions), `" "` (single space), and `"[\\s&&[^\\n]]++"` (runs of
   * whitespace other than a newline).
   */
  datatype Separator = Dot | Space | WhitespaceRun

  /** The characters a separator matches; Java's `\s` is space, \t, \n, \x0B, \f and \r. */
  predicate IsDelimiter(sep: Separator, c: char) {
    match sep
    case Dot => c == '.'
    case Space => c == ' '
    case WhitespaceRun => c == ' ' || c == '\t' || c == '\U{0B}' || c == '\U{0C}' || c == '\r'
  }

  predicate AllDelimiters(sep: Separator, s: string) {
    forall i :: 0 <= i < |s| ==> IsDelimiter(sep, s[i])
  }

  predicate NoDelimiter(sep: Separator, s: string) {
    forall i :: 0 <= i < |s| ==> !IsDelimiter(sep, s[i])
  }

  /** Drops the maximal run of delimiters at the front of `s`. */
  function SkipRun(sep: Separator, s: string): (r: string)
    ensures |r| <= |s| && r == s[|s| - |r|..]
    ensures AllDelimiters(sep, s[..|s| - |r|])
    ensures r == [] || !IsDelimiter(sep, r[0])
    ensures s != [] && IsDelimiter(sep, s[0]) ==> |r| < |s|
  {
    if s != [] && IsDelimiter(sep, s[0]) then
      var r := SkipRun(sep, s[1..]);
      assert s[..|s| - |r|] == [s[0]] + s[1..][..|s[1..]| - |r|];
      r
    else s
  }

  /** Where the next piece starts after a delimiter at the front of `s`. */
  function AfterDelimiter(sep: Separator, s: string): (r: string)
    requires s != [] && IsDelimiter(sep, s[0])
    ensures |r| < |s| && r == s[|s| - |r|..]
    ensures AllDelimiters(sep, s[..|s| - |r|])
  {
    if sep == WhitespaceRun then SkipRun(sep, s) else s[1..]
  }

  /**
   * The substrings between successive matches of the separator (every match for a single
   * character, every maximal run for WhitespaceRun), before Java drops trailing empty strings.
   */
  function Pieces(sep: Separator, s: string): (r: seq<string>)
    ensures |r| >= 1
    decreases |s|
  {
    if s == [] then [""]
    else if IsDelimiter(sep, s[0]) then
      [""] + Pieces(sep, AfterDelimiter(sep, s))
    else
      var rest := Pieces(sep, s[1..]);
      [[s[0]] + rest[0]] + rest[1..]
  }

  /** Removes the empty strings at the end of a piece list (String.split with limit 0). */
  function DropTrailingEmpty(ps: seq<string>): (r: seq<string>)
    ensures |r| <= |ps| && r == ps[..|r|]
    ensures r == [] || r[|r| - 1] != ""
    ensures forall i :: |r| <= i < |ps| ==> ps[i] == ""
  {
    if ps == [] then []
    else if ps[|ps| - 1] == "" then DropTrailingEmpty(ps[..|ps| - 1])
    else ps
  }

  /**
   * `s.split(regex)`: a string without any match yields itself (so "" yields [""]);
   * otherwise the pieces with trailing empty strings removed.
   */
  function JavaSplit(sep: Separator, s: string): seq<string> {
    if s == "" then [""] else DropTrailingEmpty(Pieces(sep, s))
  }

  lemma {:induction false} PiecesHaveNoDelimiter(sep: Separator, s: string)
    ensures forall k :: 0 <= k < |Pieces(sep, s)| ==> NoDelimiter(sep, Pieces(sep, s)[k])
    decreases |s|
  {
    if s == [] {
    } else if IsDelimiter(sep, s[0]) {
      PiecesHaveNoDelimiter(sep, AfterDelimiter(sep, s));
    } else {
      PiecesHaveNoDelimiter(sep, s[1..]);
    }
  }

  /** No token produced by split contains a delimiter. */
  lemma SplitTokensHaveNoDelimiter(sep: Separator, s: string)
    ensures forall k :: 0 <= k < |JavaSplit(sep, s)| ==> NoDelimiter(sep, JavaSplit(sep, s)[k])
  {
    if s != "" {
      PiecesHaveNoDelimiter(sep, s);
    }
  }

  predicate AllEmpty(ps: seq<string>) {
    forall k :: 0 <= k < |ps| ==> ps[k] == ""
  }

  lemma AllDelimitersAppend(sep: Separator, a: string, b: string)
    ensures AllDelimiters(sep, a + b) <==> AllDelimiters(sep, a) && AllDelimiters(sep, b)
  {
    if AllDelimiters(sep, a) && AllDelimiters(sep, b) {
      forall i | 0 <= i < |a + b| ensures IsDelimiter(sep, (a + b)[i]) {
        if i >= |a| { assert (a + b)[i] == b[i - |a|]; }
      }
    }
    if AllDelimiters(sep, a + b) {
      forall i | 0 <= i < |a| ensures IsDelimiter(sep, a[i]) {
        assert (a + b)[i] == a[i];
      }
      forall i | 0 <= i < |b| ensures IsDelimiter(sep, b[i]) {
        assert (a + b)[|a| + i] == b[i];
      }
    }
  }

  lemma AllEmptyCons(ps: seq<string>)
    ensures AllEmpty([""] + ps) <==> AllEmpty(ps)
  {
    if AllEmpty(ps) {
      forall k | 0 <= k < |[""] + ps| ensures ([""] + ps)[k] == "" {
        if k > 0 { assert ([""] + ps)[k] == ps[k - 1]; }
      }
    }
    if AllEmpty([""] + ps) {
      forall k | 0 <= k < |ps| ensures ps[k] == "" {
        assert ([""] + ps)[k + 1] == ps[k];
      }
    }
  }

  lemma {:induction false} PiecesAllEmpty(sep: Separator, s: string)
    ensures AllEmpty(Pieces(sep, s)) <==> AllDelimiters(sep, s)
    decreases |s|
  {
    if s == [] {
    } else if IsDelimiter(sep, s[0]) {
      var next := AfterDelimiter(sep, s);
      PiecesAllEmpty(sep, next);
      AllEmptyCons(Pieces(sep, next));
      assert s == s[..|s| - |next|] + next;
      AllDelimitersAppend(sep, s[..|s| - |next|], next);
    } else {
      assert Pieces(sep, s)[0] != "";
    }
  }

  /**
   * A message made only of delimiters (and not empty) splits into NO tokens at all, so the
   * handlers' `splitMessage[0]` throws; every other message yields at least one token.
   */
  lemma SplitEmptyIff(sep: Separator, s: string)
    ensures JavaSplit(sep, s) == [] <==> s != "" && AllDelimiters(sep, s)
  {
    if s != "" {
      var ps := Pieces(sep, s);
      PiecesAllEmpty(sep, s);
      var r := DropTrailingEmpty(ps);
      if r != [] {
        assert ps[|r| - 1] == r[|r| - 1] != "";
      }
    }
  }

  lemma {:induction false} RunPiecesInteriorNonEmpty(s: string)
    ensures s != [] && !IsDelimiter(WhitespaceRun, s[0]) ==> Pieces(WhitespaceRun, s)[0] != ""
    ensures forall k :: 1 <= k < |Pieces(WhitespaceRun, s)| - 1 ==> Pieces(WhitespaceRun, s)[k] != ""
    decreases |s|
  {
    if s == [] {
    } else if IsDelimiter(WhitespaceRun, s[0]) {
      var t := AfterDelimiter(WhitespaceRun, s);
      RunPiecesInteriorNonEmpty(t);
    } else {
      RunPiecesInteriorNonEmpty(s[1..]);
    }
  }

  /**
   * With the whitespace-run separator every token after the first is non-empty; only the
   * first token can be empty (a message that starts with whitespace).
   */
  lemma RunSplitArgumentsNonEmpty(s: string)
    ensures forall k :: 1 <= k < |JavaSplit(WhitespaceRun, s)| ==> JavaSplit(WhitespaceRun, s)[k] != ""
  {
    if s != "" {
      RunPiecesInteriorNonEmpty(s);
    }
  }

  /** Pieces of a string that starts with a non-delimiter: that character joins the first piece. */
  lemma PiecesOfLetter(sep: Separator, c: char, t: string)
    requires !IsDelimiter(sep, c)
    ensures Pieces(sep, [c] + t) == [[c] + Pieces(sep, t)[0]] + Pieces(sep, t)[1..]
  {
    assert ([c] + t)[1..] == t;
  }

  /** With the single-space separator two adjacent spaces produce an empty token. */
  lemma SpaceSplitKeepsEmptyTokens()
    ensures JavaSplit(Space, "a  b") == ["a", "", "b"]
    ensures JavaSplit(WhitespaceRun, "a  b") == ["a", "b"]
  {
    PiecesOfLetter(Space, 'b', "");
    assert Pieces(Space, "") == [""];
    assert "b" == ['b'] + "";
    assert Pieces(Space, "b") == ["b"];
    assert " b"[1..] == "b";
    assert Pieces(Space, " b") == ["", "b"];
    assert "  b"[1..] == " b";
    assert Pieces(Space, "  b") == ["", "", "b"];
    PiecesOfLetter(Space, 'a', "  b");
    assert "a  b" == ['a'] + "  b";
    assert ['a'] + "" == "a";
    assert Pieces(Space, "a  b") == ["a", "", "b"];

    PiecesOfLetter(WhitespaceRun, 'b', "");
    assert Pieces(WhitespaceRun, "") == [""];
    assert Pieces(WhitespaceRun, "b") == ["b"];
    assert " b"[1..] == "b";
    assert SkipRun(WhitespaceRun, "b") == "b";
    assert SkipRun(WhitespaceRun, " b") == "b";
    assert SkipRun(WhitespaceRun, "  b") == "b";
    assert AfterDelimiter(WhitespaceRun, "  b") == "b";
    assert Pieces(WhitespaceRun, "  b") == ["", "b"];
    PiecesOfLetter(WhitespaceRun, 'a', "  b");
    assert Pieces(WhitespaceRun, "a  b") == [['a'] + ""] + ["b"];
    assert Pieces(WhitespaceRun, "a  b") == ["a", "b"];
  }

  /** The one character a single-character separator matches. */
  function DelimiterChar(sep: Separator): (d: char)
    requires sep != WhitespaceRun
    ensures IsDelimiter(sep, d)
  {
    if sep == Dot then '.' else ' '
  }

  /** `String.join` with a single-character separator. */
  function Join(sep: Separator, segs: seq<string>): string
    requires sep != WhitespaceRun
  {
    if segs == [] then ""
    else if |segs| == 1 then segs[0]
    else segs[0] + ([DelimiterChar(sep)] + Join(sep, segs[1..]))
  }

  lemma {:induction false} PiecesOfPlain(sep: Separator, a: string, t: string)
    requires NoDelimiter(sep, a)
    ensures Pieces(sep, a + t) == [a + Pieces(sep, t)[0]] + Pieces(sep, t)[1..]
    decreases |a|
  {
    if a != [] {
      assert a + t == [a[0]] + (a[1..] + t);
      PiecesOfLetter(sep, a[0], a[1..] + t);
      assert NoDelimiter(sep, a[1..]) by {
        forall i | 0 <= i < |a[1..]| ensures !IsDelimiter(sep, a[1..][i]) {
          assert a[1..][i] == a[i + 1];
        }
      }
      PiecesOfPlain(sep, a[1..], t);
      var rest := Pieces(sep, a[1..] + t);
      assert rest[0] == a[1..] + Pieces(sep, t)[0];
      assert rest[1..] == Pieces(sep, t)[1..];
      assert [a[0]] + (a[1..] + Pieces(sep, t)[0]) == a + Pieces(sep, t)[0];
    } else {
      assert a + t == t && a + Pieces(sep, t)[0] == Pieces(sep, t)[0];
    }
  }

  lemma {:induction false} PiecesOfJoin(sep: Separator, segs: seq<string>)
    requires sep != WhitespaceRun && segs != []
    requires forall k :: 0 <= k < |segs| ==> NoDelimiter(sep, segs[k])
    ensures Pieces(sep, Join(sep, segs)) == segs
    decreases |segs|
  {
    var d := DelimiterChar(sep);
    if |segs| == 1 {
      PiecesOfPlain(sep, segs[0], "");
      assert segs[0] + "" == segs[0];
    } else {
      var tail := [d] + Join(sep, segs[1..]);
      PiecesOfJoin(sep, segs[1..]);
      assert tail[1..] == Join(sep, segs[1..]);
      assert Pieces(sep, tail) == [""] + segs[1..];
      PiecesOfPlain(sep, segs[0], tail);
      assert segs[0] + "" == segs[0];
    }
  }

  /**
   * Splitting a join gives back the segments, provided no segment contains the separator and
   * the last one is not empty (split drops trailing empty strings).
   */
  lemma SplitOfJoin(sep: Separator, segs: seq<string>)
    requires sep != WhitespaceRun && segs != [] && segs[|segs| - 1] != ""
    requires forall k :: 0 <= k < |segs| ==> NoDelimiter(sep, segs[k])
    ensures JavaSplit(sep, Join(sep, segs)) == segs
  {
    PiecesOfJoin(sep, segs);
    if Join(sep, segs) == "" {
      assert Pieces(sep, "") == [""];
    }
  }

  // ---------------------------------------------------------------------------
  // replace("!", "")

  /** `s.replace(c, "")`: every occurrence of `c` removed. */
  function RemoveAll(s: string, c: char): (r: string)
    ensures |r| <= |s|
    ensures forall i :: 0 <= i < |r| ==> r[i] != c
    ensures c !in s ==> r == s
  {
    if s == [] then []
    else if s[0] == c then RemoveAll(s[1..], c)
    else [s[0]] + RemoveAll(s[1..], c)
  }

  // ---------------------------------------------------------------------------
  // Digits and mention tags

  lemma {:induction false} RemoveAllAppend(a: string, b: string, c: char)
    ensures RemoveAll(a + b, c) == RemoveAll(a, c) + RemoveAll(b, c)
    decreases |a|
  {
    if a == [] {
      assert a + b == b;
    } else {
      assert (a + b)[0] == a[0];
      assert (a + b)[1..] == a[1..] + b;
      RemoveAllAppend(a[1..], b, c);
    }
  }

  /** Removing the only occurrences of `c`, here a single one between `a` and `b`. */
  lemma RemoveSingle(a: string, b: string, c: char)
    requires c !in a && c !in b
    ensures RemoveAll(a + [c] + b, c) == a + b
  {
    assert RemoveAll([c], c) == [] by { assert [c][1..] == []; }
    RemoveAllAppend(a, [c], c);
    assert RemoveAll(a + [c], c) == a by { assert RemoveAll(a, c) == a; }
    RemoveAllAppend(a + [c], b, c);
    assert RemoveAll(b, c) == b;
  }

  predicate IsDigit(c: char) {
    '0' <= c <= '9'
  }

  predicate AllDigits(s: string) {
    forall i :: 0 <= i < |s| ==> IsDigit(s[i])
  }

  predicate IsDigits(s: string) {
    |s| > 0 && AllDigits(s)
  }

  /** `s.matches("<" + marker + "([0-9]*)>")`, for marker '@' (user) or '#' (channel). */
  predicate IsTag(s: string, marker: char) {
    |s| >= 3 && s[0] == '<' && s[1] == marker && s[|s| - 1] == '>' && AllDigits(s[2..|s| - 1])
  }

  /** `s.substring(2, s.length() - 1)`: the id between `<@` or `<#` and `>`. */
  function TagId(s: string): (id: string)
    requires |s| >= 3
    ensures |id| == |s| - 3
    ensures s == s[..2] + id + s[|s| - 1..]
  {
    s[2..|s| - 1]
  }

  // ---------------------------------------------------------------------------
  // Decimal numbers

  /** The syntax Long.valueOf and Integer.valueOf accept: an optional sign and decimal digits. */
  predicate IsJavaIntegerSyntax(s: string) {
    IsDigits(s) || (|s| >= 2 && (s[0] == '-' || s[0] == '+') && IsDigits(s[1..]))
  }

  /** The regular expression `^-?\d+$`. */
  predicate IsMinusDigits(s: string) {
    IsDigits(s) || (|s| >= 2 && s[0] == '-' && IsDigits(s[1..]))
  }

  lemma MinusDigitsIsJavaInteger(s: string)
    ensures IsMinusDigits(s) ==> IsJavaIntegerSyntax(s)
  {
  }

  function DigitValue(c: char): nat
    requires IsDigit(c)
  {
    c as int - '0' as int
  }

  function DigitsValue(s: string): nat
    requires AllDigits(s)
  {
    if s == [] then 0 else DigitsValue(s[..|s| - 1]) * 10 + DigitValue(s[|s| - 1])
  }

  /** The number a string in Java integer syntax denotes. */
  function IntegerValue(s: string): int
    requires IsJavaIntegerSyntax(s)
  {
    if IsDigits(s) then DigitsValue(s)
    else if s[0] == '-' then -(DigitsValue(s[1..]) as int)
    else DigitsValue(s[1..])
  }

  function DigitChar(d: nat): char
    requires d < 10
  {
    ('0' as int + d) as char
  }

  /** Decimal rendering of a natural number, without leading zeros. */
  function DigitsOf(n: nat): string
  {
    if n < 10 then [DigitChar(n)] else DigitsOf(n / 10) + [DigitChar(n % 10)]
  }

  /** `String.valueOf(n)` for an integer. */
  function Decimal(n: int): string {
    if n < 0 then "-" + DigitsOf(-n) else DigitsOf(n)
  }

  lemma {:induction false} DigitsRoundTrip(n: nat)
    ensures IsDigits(DigitsOf(n)) && DigitsValue(DigitsOf(n)) == n
  {
    if n >= 10 {
      DigitsRoundTrip(n / 10);
      var s := DigitsOf(n);
      assert s[..|s| - 1] == DigitsOf(n / 10);
    }
  }

  /** Parsing the rendering of any number gives that number back, under both syntaxes. */
  lemma DecimalRoundTrip(n: int)
    ensures IsMinusDigits(Decimal(n)) && IsJavaIntegerSyntax(Decimal(n))
    ensures IntegerValue(Decimal(n)) == n
  {
    if n < 0 {
      DigitsRoundTrip(-n);
      assert Decimal(n)[1..] == DigitsOf(-n);
    } else {
      DigitsRoundTrip(n);
    }
  }
}
