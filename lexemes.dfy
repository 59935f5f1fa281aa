/**
 * Recognizers for the token patterns of the TOML lexer that are small regular languages
 * (packages/lexer/lib/tokens.js). For each one there is
 *   - a language predicate (`InLanguage`), transcribed from the regular expression as written, and
 *   - a matcher (`StickyMatch`) giving the length of the match a JavaScript regular expression
 *     finds when it is anchored at the start of the input (first match, greedy quantifiers,
 *     alternatives tried left to right), or None.
 * The lemmas prove that, for every pattern except Newline, this first match is the LONGEST prefix
 * of the input that lies in the language. Characters are UTF-16 code units of the BMP.
 */
module Lexemes {
  import opened Wrappers

  /** The character classes the patterns use. */
  datatype CharClass =
    | Digit          // \d
    | UpperHexDigit  // [0-9A-F]
    | HexDigit       // [0-9a-fA-F]
    | OctDigit       // [0-7]
    | BinDigit       // [0-1]
    | LiteralChar    // [^'\r\n]
    | KeyChar        // [A-Za-z0-9_-]
    | Blank          // [ \t]

  predicate InClass(c: char, k: CharClass) {
    match k
    case Digit => '0' <= c <= '9'
    case UpperHexDigit => '0' <= c <= '9' || 'A' <= c <= 'F'
    case HexDigit => '0' <= c <= '9' || 'A' <= c <= 'F' || 'a' <= c <= 'f'
    case OctDigit => '0' <= c <= '7'
    case BinDigit => '0' <= c <= '1'
    case LiteralChar => c != '\'' && c != '\r' && c != '\n'
    case KeyChar => 'A' <= c <= 'Z' || 'a' <= c <= 'z' || '0' <= c <= '9' || c == '_' || c == '-'
    case Blank => c == ' ' || c == '\t'
  }

  /** The digit classes used with `(?:_?D)*`; none of them contains `_`. */
  predicate IsDigitClass(k: CharClass) {
    k == Digit || k == UpperHexDigit || k == OctDigit || k == BinDigit
  }

  predicate AllIn(t: string, k: CharClass) {
    forall i | 0 <= i < |t| :: InClass(t[i], k)
  }

  /** The first `n` characters of `t` exist and all are in class `k`. */
  predicate RunPrefix(t: string, n: nat, k: CharClass) {
    n <= |t| && AllIn(t[..n], k)
  }

  /** The length of the longest prefix of `t` made of characters of class `k` (a greedy `k*`). */
  function RunLength(t: string, k: CharClass): (n: nat)
    ensures RunPrefix(t, n, k)
    ensures n == |t| || !InClass(t[n], k)
  {
    if t != [] && InClass(t[0], k) then
      var n := 1 + RunLength(t[1..], k);
      assert t[..n] == [t[0]] + t[1..][..n - 1];
      n
    else
      0
  }

  /** A prefix all of whose characters are in `k` is no longer than the greedy run. */
  lemma RunLengthIsLongest(t: string, k: CharClass, m: nat)
    requires m <= |t| && AllIn(t[..m], k)
    ensures m <= RunLength(t, k)
  {
  }

  // ----- The separated digit run (?:_?D)* -----

  /** The language of `(?:_?D)*`, one regex iteration per disjunct. */
  ghost predicate Grouped(t: string, k: CharClass)
    decreases |t|
  {
    || t == []
    || (InClass(t[0], k) && Grouped(t[1..], k))
    || (|t| >= 2 && t[0] == '_' && InClass(t[1], k) && Grouped(t[2..], k))
  }

  /** Each character of a grouped run is a digit, or an `_` immediately followed by a digit. */
  ghost predicate UnderscoresBeforeDigits(t: string, k: CharClass) {
    forall i | 0 <= i < |t| :: InClass(t[i], k) || (t[i] == '_' && i + 1 < |t| && InClass(t[i + 1], k))
  }

  lemma {:induction false} GroupedIff(t: string, k: CharClass)
    requires IsDigitClass(k)
    ensures Grouped(t, k) <==> UnderscoresBeforeDigits(t, k)
    decreases |t|
  {
    if t == [] {
    } else if InClass(t[0], k) {
      GroupedIff(t[1..], k);
      if UnderscoresBeforeDigits(t, k) {
        forall i | 0 <= i < |t[1..]|
          ensures InClass(t[1..][i], k) || (t[1..][i] == '_' && i + 1 < |t[1..]| && InClass(t[1..][i + 1], k))
        {
          assert t[1..][i] == t[i + 1];
        }
      }
      if Grouped(t[1..], k) {
        forall i | 0 <= i < |t|
          ensures InClass(t[i], k) || (t[i] == '_' && i + 1 < |t| && InClass(t[i + 1], k))
        {
          if i > 0 {
            assert t[i] == t[1..][i - 1];
          }
        }
      }
    } else if t[0] == '_' && |t| >= 2 && InClass(t[1], k) {
      GroupedIff(t[2..], k);
      if UnderscoresBeforeDigits(t, k) {
        forall i | 0 <= i < |t[2..]|
          ensures InClass(t[2..][i], k) || (t[2..][i] == '_' && i + 1 < |t[2..]| && InClass(t[2..][i + 1], k))
        {
          assert t[2..][i] == t[i + 2];
        }
      }
      if Grouped(t[2..], k) {
        forall i | 0 <= i < |t|
          ensures InClass(t[i], k) || (t[i] == '_' && i + 1 < |t| && InClass(t[i + 1], k))
        {
          if i > 1 {
            assert t[i] == t[2..][i - 2];
          }
        }
      }
    } else {
      assert !UnderscoresBeforeDigits(t, k) by {
        assert !(InClass(t[0], k) || (t[0] == '_' && 1 < |t| && InClass(t[1], k)));
      }
    }
  }

  /** The first `n` characters of `t` exist and form a word of `(?:_?D)*`. */
  ghost predicate GroupedPrefix(t: string, n: nat, k: CharClass) {
    n <= |t| && Grouped(t[..n], k)
  }

  /** The length a greedy `(?:_?D)*` consumes: one digit, or `_` and a digit, per iteration. */
  function GroupedLength(t: string, k: CharClass): (n: nat)
    requires IsDigitClass(k)
    ensures GroupedPrefix(t, n, k)
  {
    if t != [] && InClass(t[0], k) then
      var n := 1 + GroupedLength(t[1..], k);
      assert t[..n][1..] == t[1..][..n - 1];
      n
    else if |t| >= 2 && t[0] == '_' && InClass(t[1], k) then
      var n := 2 + GroupedLength(t[2..], k);
      assert t[..n][2..] == t[2..][..n - 2];
      n
    else
      assert Grouped(t[..0], k);
      0
  }

  /** No prefix longer than the greedy iteration is in the language of `(?:_?D)*`. */
  lemma {:induction false} GroupedLengthIsLongest(t: string, k: CharClass, m: nat)
    requires IsDigitClass(k)
    requires GroupedLength(t, k) < m <= |t|
    ensures !Grouped(t[..m], k)
    decreases |t|
  {
    var u := t[..m];
    if t != [] && InClass(t[0], k) {
      assert u[1..] == t[1..][..m - 1];
      GroupedLengthIsLongest(t[1..], k, m - 1);
    } else if |t| >= 2 && t[0] == '_' && InClass(t[1], k) {
      assert u[1..] == t[1..][..m - 1];
      assert u[2..] == t[2..][..m - 2];
      GroupedLengthIsLongest(t[2..], k, m - 2);
    } else {
      assert u[0] == t[0];
      assert |u| >= 2 ==> u[1] == t[1];
    }
  }

  /** A grouped run holds only digits and `_`. */
  lemma GroupedChars(t: string, k: CharClass, i: nat)
    requires IsDigitClass(k) && Grouped(t, k) && i < |t|
    ensures InClass(t[i], k) || t[i] == '_'
  {
    GroupedIff(t, k);
  }

  // ----- The token languages -----

  /** 1 when `s` starts with `+` or `-`, else 0 (the greedy `[+-]?`). */
  function SignLength(s: string): (n: nat)
    ensures n <= |s|
  {
    if |s| > 0 && (s[0] == '+' || s[0] == '-') then 1 else 0
  }

  /** DecimalInt, `[+-]?(?:0|[1-9](?:_?\d)*)`. */
  ghost predicate IsDecimalInt(s: string) {
    var b := s[SignLength(s)..];
    b == "0" || (|b| > 0 && '1' <= b[0] <= '9' && Grouped(b[1..], Digit))
  }

  /** HexInt, OctInt and BinInt: `0` `x`/`o`/`b`, one digit, then `(?:_?D)*`. */
  ghost predicate IsPrefixedInt(s: string, marker: char, k: CharClass) {
    |s| >= 3 && s[0] == '0' && s[1] == marker && InClass(s[2], k) && Grouped(s[3..], k)
  }

  /** The first `n` characters of `s` exist and form a HexInt, OctInt or BinInt word. */
  ghost predicate PrefixedIntPrefix(s: string, n: nat, marker: char, k: CharClass) {
    n <= |s| && IsPrefixedInt(s[..n], marker, k)
  }

  /** The `escaped` fragment: a backslash, then one of `b t n f r`, a double quote or a backslash,
      or `u` and four or eight hex digits. */
  ghost predicate IsEscape(s: string) {
    && |s| >= 2 && s[0] == '\\'
    && (|| (|s| == 2 && s[1] in "btnfr\"\\")
        || (s[1] == 'u' && (|s| == 6 || |s| == 10) && AllIn(s[2..], HexDigit)))
  }

  /** The patterns modelled here, named after their token (Escaped is a fragment). */
  datatype Lexeme =
    | Newline        // /|\n|\r\n/
    | Whitespace     // /[ \t]+/
    | LiteralString  // /'(?:[^'\r\n])*'/
    | True           // /true/
    | False          // /false/
    | DecimalInt     // /[+-]?(?:0|[1-9](?:_?\d)*)/
    | HexInt         // /0x[0-9A-F](?:_?[0-9A-F])*/
    | OctInt         // /0o[0-7](?:_?[0-7])*/
    | BinInt         // /0b[0-1](?:_?[0-1])*/
    | SpecialFloat   // /[+-](?:inf|nan)/
    | UnquotedKey    // /[A-Za-z0-9_-]+/
    | Escaped        // the `escaped` fragment

  /** The set of strings each pattern describes. */
  ghost predicate InLanguage(x: Lexeme, s: string) {
    match x
    case Newline => s == "" || s == "\n" || s == "\r\n"
    case Whitespace => |s| > 0 && AllIn(s, Blank)
    case LiteralString => |s| >= 2 && s[0] == '\'' && s[|s| - 1] == '\'' && AllIn(s[1..|s| - 1], LiteralChar)
    case True => s == "true"
    case False => s == "false"
    case DecimalInt => IsDecimalInt(s)
    case HexInt => IsPrefixedInt(s, 'x', UpperHexDigit)
    case OctInt => IsPrefixedInt(s, 'o', OctDigit)
    case BinInt => IsPrefixedInt(s, 'b', BinDigit)
    case SpecialFloat => s == "+inf" || s == "-inf" || s == "+nan" || s == "-nan"
    case UnquotedKey => |s| > 0 && AllIn(s, KeyChar)
    case Escaped => IsEscape(s)
  }

  /** The first `n` characters of `s` exist and form a word of the language of `x`. */
  ghost predicate PrefixIn(x: Lexeme, s: string, n: nat) {
    n <= |s| && InLanguage(x, s[..n])
  }

  // ----- The matchers -----

  function MatchDecimalInt(s: string): (r: Option<nat>)
    ensures r.Some? ==> PrefixIn(DecimalInt, s, r.value)
  {
    var k := SignLength(s);
    if k < |s| && s[k] == '0' then
      assert s[..k + 1][SignLength(s[..k + 1])..] == "0";
      Some(k + 1)
    else if k < |s| && '1' <= s[k] <= '9' then
      var g := GroupedLength(s[k + 1..], Digit);
      var n := k + 1 + g;
      assert s[..n][SignLength(s[..n])..][1..] == s[k + 1..][..g];
      Some(n)
    else
      None
  }

  function MatchPrefixedInt(s: string, marker: char, k: CharClass): (r: Option<nat>)
    requires IsDigitClass(k)
    ensures r.Some? ==> PrefixedIntPrefix(s, r.value, marker, k)
  {
    if |s| >= 3 && s[0] == '0' && s[1] == marker && InClass(s[2], k) then
      var g := GroupedLength(s[3..], k);
      assert s[..3 + g][3..] == s[3..][..g];
      Some(3 + g)
    else
      None
  }

  function MatchLiteralString(s: string): (r: Option<nat>)
    ensures r.Some? ==> PrefixIn(LiteralString, s, r.value)
  {
    if |s| > 0 && s[0] == '\'' then
      var body := RunLength(s[1..], LiteralChar);
      if 1 + body < |s| && s[1 + body] == '\'' then
        assert s[..body + 2][1..body + 1] == s[1..][..body];
        Some(body + 2)
      else
        None
    else
      None
  }

  function MatchEscaped(s: string): (r: Option<nat>)
    ensures r.Some? ==> PrefixIn(Escaped, s, r.value)
  {
    if |s| >= 2 && s[0] == '\\' && s[1] in "btnfr\"\\" then
      Some(2)
    else if |s| >= 6 && s[0] == '\\' && s[1] == 'u' && AllIn(s[2..6], HexDigit) then
      if |s| >= 10 && AllIn(s[6..10], HexDigit) then
        assert s[..10][2..] == s[2..6] + s[6..10];
        Some(10)
      else
        assert s[..6][2..] == s[2..6];
        Some(6)
    else
      None
  }

  /** A regular expression with no special characters, such as /true/, matches only the word itself. */
  function MatchWord(s: string, word: string): (r: Option<nat>)
    ensures r.Some? ==> r.value == |word| && word <= s
  {
    if |word| <= |s| && s[..|word|] == word then Some(|word|) else None
  }

  /** A one-or-more repetition of a character class: the greedy run, when it is not empty. */
  function MatchRun(s: string, k: CharClass): (r: Option<nat>)
    ensures r.Some? ==> r.value > 0 && RunPrefix(s, r.value, k)
  {
    if RunLength(s, k) > 0 then Some(RunLength(s, k)) else None
  }

  function MatchSpecialFloat(s: string): (r: Option<nat>)
    ensures r.Some? ==> PrefixIn(SpecialFloat, s, r.value)
  {
    if |s| >= 4 && (s[0] == '+' || s[0] == '-') && (s[1..4] == "inf" || s[1..4] == "nan") then
      assert s[..4] == [s[0]] + s[1..4];
      Some(4)
    else
      None
  }

  /** The length of the match of each pattern anchored at the start of `s`. */
  function StickyMatch(x: Lexeme, s: string): Option<nat> {
    match x
    // The empty first alternative of /|\n|\r\n/ always succeeds first.
    case Newline => Some(0)
    case Whitespace => MatchRun(s, Blank)
    case LiteralString => MatchLiteralString(s)
    case True => MatchWord(s, "true")
    case False => MatchWord(s, "false")
    case DecimalInt => MatchDecimalInt(s)
    case HexInt => MatchPrefixedInt(s, 'x', UpperHexDigit)
    case OctInt => MatchPrefixedInt(s, 'o', OctDigit)
    case BinInt => MatchPrefixedInt(s, 'b', BinDigit)
    case SpecialFloat => MatchSpecialFloat(s)
    case UnquotedKey => MatchRun(s, KeyChar)
    case Escaped => MatchEscaped(s)
  }

  /** `r` is the length of the longest prefix of `s` in the language of `x`, or None if there is none. */
  ghost predicate IsLongestMatch(x: Lexeme, s: string, r: Option<nat>) {
    match r
    case Some(n) => n <= |s| && InLanguage(x, s[..n]) && forall m | n < m <= |s| :: !InLanguage(x, s[..m])
    case None => forall m | 0 <= m <= |s| :: !InLanguage(x, s[..m])
  }

  /** A matcher whose result is in the language and bounds every prefix in the language is longest. */
  lemma LongestFromBound(x: Lexeme, s: string, r: Option<nat>)
    requires r.Some? ==> r.value <= |s| && InLanguage(x, s[..r.value])
    requires forall m | 0 <= m <= |s| && InLanguage(x, s[..m]) :: r.Some? && m <= r.value
    ensures IsLongestMatch(x, s, r)
  {
  }

  /** Every prefix of `s` that is a DecimalInt is within the greedy match. */
  lemma DecimalIntWithinMatch(s: string, m: nat)
    requires m <= |s| && InLanguage(DecimalInt, s[..m])
    ensures MatchDecimalInt(s).Some? && m <= MatchDecimalInt(s).value
  {
    var k, u := SignLength(s), s[..m];
    assert m > 0 ==> u[0] == s[0];
    assert SignLength(u) == k;
    var b := u[k..];
    if b != "0" {
      var t := s[k + 1..];
      assert b[0] == s[k];
      assert b[1..] == t[..m - k - 1];
      if GroupedLength(t, Digit) < m - k - 1 {
        GroupedLengthIsLongest(t, Digit, m - k - 1);
      }
    }
  }

  lemma DecimalIntMatchIsLongest(s: string)
    ensures IsLongestMatch(DecimalInt, s, MatchDecimalInt(s))
  {
    forall m | 0 <= m <= |s| && InLanguage(DecimalInt, s[..m])
      ensures MatchDecimalInt(s).Some? && m <= MatchDecimalInt(s).value
    {
      DecimalIntWithinMatch(s, m);
    }
    LongestFromBound(DecimalInt, s, MatchDecimalInt(s));
  }

  lemma PrefixedIntMatchIsLongest(s: string, x: Lexeme, marker: char, k: CharClass)
    requires (x, marker, k) in {(HexInt, 'x', UpperHexDigit), (OctInt, 'o', OctDigit), (BinInt, 'b', BinDigit)}
    ensures IsLongestMatch(x, s, MatchPrefixedInt(s, marker, k))
  {
    forall m | 0 <= m <= |s| && InLanguage(x, s[..m])
      ensures MatchPrefixedInt(s, marker, k).Some? && m <= MatchPrefixedInt(s, marker, k).value
    {
      var u := s[..m];
      assert IsPrefixedInt(u, marker, k);
      assert u[0] == s[0] && u[1] == s[1] && u[2] == s[2];
      var g := GroupedLength(s[3..], k);
      assert u[3..] == s[3..][..m - 3];
      if g < m - 3 {
        GroupedLengthIsLongest(s[3..], k, m - 3);
      }
    }
    LongestFromBound(x, s, MatchPrefixedInt(s, marker, k));
  }

  lemma LiteralStringMatchIsLongest(s: string)
    ensures IsLongestMatch(LiteralString, s, MatchLiteralString(s))
  {
    forall m | 0 <= m <= |s| && InLanguage(LiteralString, s[..m])
      ensures MatchLiteralString(s).Some? && m <= MatchLiteralString(s).value
    {
      var u, t := s[..m], s[1..];
      assert u[0] == s[0] && u[m - 1] == s[m - 1] == t[m - 2];
      var body := RunLength(t, LiteralChar);
      assert u[1..m - 1] == t[..m - 2];
      RunLengthIsLongest(t, LiteralChar, m - 2);
      assert body == m - 2;
      assert s[1 + body] == '\'';
    }
    LongestFromBound(LiteralString, s, MatchLiteralString(s));
  }

  lemma EscapedMatchIsLongest(s: string)
    ensures IsLongestMatch(Escaped, s, MatchEscaped(s))
  {
    forall m | 0 <= m <= |s| && InLanguage(Escaped, s[..m])
      ensures MatchEscaped(s).Some? && m <= MatchEscaped(s).value
    {
      var u := s[..m];
      assert u[0] == s[0] && u[1] == s[1];
      if m > 2 {
        assert m == 6 || m == 10;
        assert u[2..][..4] == u[2..6] == s[2..6];
        if m == 10 {
          assert s[6..10] == u[2..][4..];
        }
      }
    }
    LongestFromBound(Escaped, s, MatchEscaped(s));
  }

  lemma RunMatchIsLongest(s: string, x: Lexeme, k: CharClass)
    requires (x, k) in {(Whitespace, Blank), (UnquotedKey, KeyChar)}
    ensures IsLongestMatch(x, s, MatchRun(s, k))
  {
    forall m | 0 <= m <= |s| && InLanguage(x, s[..m])
      ensures MatchRun(s, k).Some? && m <= MatchRun(s, k).value
    {
      RunLengthIsLongest(s, k, m);
    }
    LongestFromBound(x, s, MatchRun(s, k));
  }

  lemma WordMatchIsLongest(s: string, x: Lexeme, word: string)
    requires (x, word) in {(True, "true"), (False, "false")}
    ensures IsLongestMatch(x, s, MatchWord(s, word))
  {
    LongestFromBound(x, s, MatchWord(s, word));
  }

  lemma SpecialFloatMatchIsLongest(s: string)
    ensures IsLongestMatch(SpecialFloat, s, MatchSpecialFloat(s))
  {
    forall m | 0 <= m <= |s| && InLanguage(SpecialFloat, s[..m])
      ensures MatchSpecialFloat(s).Some? && m <= MatchSpecialFloat(s).value
    {
      assert m == 4;
      assert s[..4][1..] == s[1..4];
    }
    LongestFromBound(SpecialFloat, s, MatchSpecialFloat(s));
  }

  /**
   * For every pattern but Newline, the anchored JavaScript match is the longest prefix of the
   * input in the pattern's language, and there is no match exactly when no prefix is in it.
   */
  lemma StickyMatchIsLongest(x: Lexeme, s: string)
    requires x != Newline
    ensures IsLongestMatch(x, s, StickyMatch(x, s))
  {
    match x
    case Whitespace => RunMatchIsLongest(s, x, Blank);
    case LiteralString => LiteralStringMatchIsLongest(s);
    case True => WordMatchIsLongest(s, x, "true");
    case False => WordMatchIsLongest(s, x, "false");
    case DecimalInt => DecimalIntMatchIsLongest(s);
    case HexInt => PrefixedIntMatchIsLongest(s, x, 'x', UpperHexDigit);
    case OctInt => PrefixedIntMatchIsLongest(s, x, 'o', OctDigit);
    case BinInt => PrefixedIntMatchIsLongest(s, x, 'b', BinDigit);
    case SpecialFloat => SpecialFloatMatchIsLongest(s);
    case UnquotedKey => RunMatchIsLongest(s, x, KeyChar);
    case Escaped => EscapedMatchIsLongest(s);
  }

  /**
   * Newline, /|\n|\r\n/, admits the empty match, and its empty first alternative wins: the
   * pattern matches zero characters everywhere, even in front of a line feed.
   */
  lemma NewlineMatchesEmpty(s: string)
    ensures StickyMatch(Newline, s) == Some(0)
    ensures InLanguage(Newline, "") && InLanguage(Newline, "\n") && InLanguage(Newline, "\r\n")
    ensures |s| > 0 && s[0] == '\n' ==> !IsLongestMatch(Newline, s, StickyMatch(Newline, s))
  {
    if |s| > 0 && s[0] == '\n' {
      assert s[..1] == "\n";
    }
  }

  // ----- Shapes of single token languages -----

  /** In a DecimalInt every `_` sits between two digits: no leading, trailing or doubled `_`. */
  lemma DecimalIntUnderscores(s: string, i: nat)
    requires IsDecimalInt(s) && i < |s| && s[i] == '_'
    ensures 0 < i < |s| - 1 && InClass(s[i - 1], Digit) && InClass(s[i + 1], Digit)
  {
    var k := SignLength(s);
    var b := s[k..];
    assert i >= k;
    assert b[i - k] == '_';
    var t := b[1..];
    var j := i - k - 1;
    assert t[j] == s[i];
    GroupedIff(t, Digit);
    assert t[j + 1] == s[i + 1];
    if j > 0 {
      assert t[j - 1] == s[i - 1];
    }
  }

  /** HexInt accepts only upper-case hex digits: a match holds none of `a`-`f`. */
  lemma HexIntIsUpperCase(s: string, i: nat)
    requires StickyMatch(HexInt, s).Some?
    requires 2 <= i < StickyMatch(HexInt, s).value
    ensures !('a' <= s[i] <= 'f')
  {
    var u := s[..StickyMatch(HexInt, s).value];
    if i > 2 {
      GroupedChars(u[3..], UpperHexDigit, i - 3);
      assert u[3..][i - 3] == s[i];
    }
  }

  /**
   * UnquotedKey, the LONGER_ALT of True and False, matches at least as far as they do wherever
   * they match.
   */
  lemma UnquotedKeyCoversWord(s: string, x: Lexeme)
    requires x == True || x == False
    requires StickyMatch(x, s).Some?
    ensures StickyMatch(UnquotedKey, s).Some?
    ensures StickyMatch(x, s).value <= StickyMatch(UnquotedKey, s).value
  {
    var n := StickyMatch(x, s).value;
    assert AllIn(s[..n], KeyChar);
    RunLengthIsLongest(s, KeyChar, n);
  }

  /**
   * UnquotedKey, the LONGER_ALT of DecimalInt, matches wherever DecimalInt does and at least as
   * far, except when the integer has an explicit `+` sign, which is not a key character.
   */
  lemma UnquotedKeyCoversDecimalInt(s: string)
    requires StickyMatch(DecimalInt, s).Some?
    ensures StickyMatch(UnquotedKey, s).Some? <==> s[0] != '+'
    ensures s[0] != '+' ==> StickyMatch(DecimalInt, s).value <= StickyMatch(UnquotedKey, s).value
  {
    var n := StickyMatch(DecimalInt, s).value;
    var u := s[..n];
    if s[0] != '+' {
      forall i | 0 <= i < n
        ensures InClass(u[i], KeyChar)
      {
        if u[i] == '_' {
          DecimalIntUnderscores(u, i);
        } else if i >= SignLength(u) + 1 {
          var t := u[SignLength(u)..][1..];
          assert t[i - SignLength(u) - 1] == u[i];
          GroupedChars(t, Digit, i - SignLength(u) - 1);
        }
      }
      RunLengthIsLongest(s, KeyChar, n);
    }
  }

  // ----- Comment: /#(?:[^\n\r]|\r(?!\n))*/ -----

  /**
   * The match of Comment at the start of `s` ends at `n`: it starts with `#`, holds no line feed,
   * holds no carriage return followed by a line feed (the lookahead may look one character past
   * the match), and stops at the end of input, at a line feed or at a `\r\n`.
   */
  ghost predicate CommentShape(s: string, n: nat) {
    1 <= n <= |s| && s[0] == '#' && CommentBody(s, 1, n)
  }

  /** Characters `i` up to `n` of `s` are a greedy comment body that stops at `n`. */
  ghost predicate CommentBody(s: string, i: nat, n: nat) {
    && i <= n <= |s|
    && (forall j | i <= j < n :: s[j] != '\n' && (s[j] == '\r' ==> j + 1 == |s| || s[j + 1] != '\n'))
    && (n == |s| || s[n] == '\n' || (s[n] == '\r' && n + 1 < |s| && s[n + 1] == '\n'))
  }

  /** Where the greedy comment body that begins at index `i` of `s` ends. */
  function CommentEnd(s: string, i: nat): (n: nat)
    requires 1 <= i <= |s|
    ensures CommentBody(s, i, n)
    decreases |s| - i
  {
    if i == |s| || s[i] == '\n' || (s[i] == '\r' && i + 1 < |s| && s[i + 1] == '\n') then i
    else CommentEnd(s, i + 1)
  }

  function MatchComment(s: string): (r: Option<nat>)
    ensures r.Some? <==> |s| > 0 && s[0] == '#'
    ensures r.Some? ==> CommentShape(s, r.value)
  {
    if |s| > 0 && s[0] == '#' then Some(CommentEnd(s, 1)) else None
  }

  /** The shape pins the comment's end down: the greedy match is the only end that has it. */
  lemma CommentShapeUnique(s: string, n: nat, m: nat)
    requires CommentShape(s, n) && CommentShape(s, m)
    ensures n == m
  {
  }

  // ----- full_date: (?:Y)-(?:\d{2})-(?:\d{2}), the year Y having a fixed number of digits -----

  /** A full_date whose year has `yearDigits` digits, then month and day of two digits each. */
  predicate IsFullDate(s: string, yearDigits: nat) {
    && |s| == yearDigits + 6
    && AllIn(s[..yearDigits], Digit) && s[yearDigits] == '-'
    && AllIn(s[yearDigits + 1..yearDigits + 3], Digit) && s[yearDigits + 3] == '-'
    && AllIn(s[yearDigits + 4..], Digit)
  }

  /** The first `n` characters of `s` exist and form a full_date. */
  predicate FullDatePrefix(s: string, n: nat, yearDigits: nat) {
    n <= |s| && IsFullDate(s[..n], yearDigits)
  }

  /** The match of full_date at the start of `s`: all its words have one length, so the match is
      the prefix of that length or there is none. */
  function MatchFullDate(s: string, yearDigits: nat): (r: Option<nat>)
    ensures r.Some? ==> r.value == yearDigits + 6 && FullDatePrefix(s, r.value, yearDigits)
    ensures r.None? ==> forall m | 0 <= m <= |s| :: !IsFullDate(s[..m], yearDigits)
  {
    var n := yearDigits + 6;
    if n <= |s| && IsFullDate(s[..n], yearDigits) then Some(n) else None
  }

  /**
   * As written, full_date reads its year from time_hour, `\d{2}`: no input that starts with a
   * date whose year has four digits, such as 1979-05-27, matches it.
   */
  lemma FullDateAsWrittenRejectsFourDigitYears(s: string)
    requires 10 <= |s| && IsFullDate(s[..10], 4)
    ensures MatchFullDate(s, 2).None?
  {
    assert s[..10][2] == s[2];
    assert InClass(s[..10][..4][2], Digit);
  }

  /** With date_fullyear, `\d{4}`, as the year, such a date matches, all ten characters of it. */
  lemma FullDateCorrectedMatchesFourDigitYears(s: string)
    requires 10 <= |s| && IsFullDate(s[..10], 4)
    ensures MatchFullDate(s, 4) == Some(10)
  {
  }

  /** The date of the TOML examples, 1979-05-27, is a full date with a four-digit year. */
  lemma ExampleDateHasFourDigitYear()
    ensures IsFullDate("1979-05-27", 4) && !IsFullDate("1979-05-27"[..8], 2)
  {
    assert "1979-05-27"[..10] == "1979-05-27";
    assert "1979-05-27"[..4] == "1979";
    assert "1979-05-27"[5..7] == "05";
    assert "1979-05-27"[8..] == "27";
  }

  // ----- The single-character fragments -----

  /** The two characters a basic string must escape: the double quote (U+0022) and the backslash (U+005C). */
  const Quote: char := 0x22 as char
  const Backslash: char := 0x5C as char

  /** basic_unescaped, `[\u0020-\u0021]|[\u0023-\u005B]|[\u005D-\u007E]|[\u0080-\uFFFF]`. */
  predicate IsBasicUnescaped(c: char) {
    || 0x20 <= c as int <= 0x21
    || 0x23 <= c as int <= 0x5B
    || 0x5D <= c as int <= 0x7E
    || 0x80 <= c as int <= 0xFFFF
  }

  /** ML_BASIC_UNESCAPED, `[\u0020-\u005B]|[\u005D-\u007E]|[\u0080-\uFFFF]`. */
  predicate IsMlBasicUnescaped(c: char) {
    || 0x20 <= c as int <= 0x5B
    || 0x5D <= c as int <= 0x7E
    || 0x80 <= c as int <= 0xFFFF
  }

  /** basic_unescaped is every code unit from space up except the double quote, the backslash and DEL. */
  lemma BasicUnescapedExcludes(c: char)
    ensures IsBasicUnescaped(c) <==> 0x20 <= c as int <= 0xFFFF && c != Quote && c != Backslash && c as int != 0x7F
  {
  }

  /** The multi-line variant differs only in admitting the double quote. */
  lemma MlBasicUnescapedAddsQuote(c: char)
    ensures IsMlBasicUnescaped(c) <==> IsBasicUnescaped(c) || c == Quote
  {
  }
}
