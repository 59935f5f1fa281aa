/**
 * The lexical grammar of packages/lexer/lib/tokens.js: the module's top-level statements, which
 * register the fragments and create the token types in order. Each method below runs one region
 * of the file and returns the token types it creates, as the file binds them to constants; a
 * TypeError thrown by makePattern propagates out as a Failure and aborts the rest of the file,
 * as the exception aborts loading the module.
 */
module Tokens {
  import opened Wrappers
  import opened Patterns
  import opened Registry

  /** The token names in the order the file creates them. */
  const DeclarationOrder: seq<string> := [
    "Newline", "Whitespace", "Comment", "KeyValSep", "Dot", "IQuotedKey", "IUnquotedKey", "IString",
    "BasicString", "BasicMultiLineString", "LiteralString", "LiteralMultiLineString",
    "Boolean", "True", "False",
    "DateTime", "OffsetDateTime", "LocalDateTime", "LocalDate", "LocalTime",
    "IInteger", "DecimalInt", "HexInt", "OctInt", "BinInt",
    "IFloat", "Float", "SpecialFloat",
    "LSquare", "RSquare", "Comma", "LCurly", "RCurly", "UnquotedKey"]

  /** The tokens given UnquotedKey as LONGER_ALT (tokens.js:222). */
  const UnquotedKeyPrefixes: seq<string> := ["True", "False", "DecimalInt"]

  // Regular-expression sources, as `RegExp.prototype.source` gives them back.
  const NewlineSource := @"|\n|\r\n"
  const WhitespaceSource := @"[ \t]+"
  const BasicUnescapedSource := @"[\u0020-\u0021]|[\u0023-\u005B]|[\u005D-\u007E]|[\u0080-\uFFFF]"
  const EscapedSource := @"\\(?:[btnfr""\\]|u[0-9a-fA-F]{4}(?:[0-9a-fA-F]{4})?)"
  const MlBasicUnescapedSource := @"[\u0020-\u005B]|[\u005D-\u007E]|[\u0080-\uFFFF]"
  const TwoDigitsSource := @"\d{2}"
  const SecFracSource := @""".""\d+"
  const DecimalIntSource := @"[+-]?(?:0|[1-9](?:_?\d)*)"

  /** `t` is the token type createToken builds from these options. */
  predicate Declared(t: TokenType, name: string, pattern: Pattern, categories: seq<TokenType>, group: Option<string>) {
    t.name == name && t.pattern == pattern && t.categories == categories && t.group == group
  }

  /** The token types created so far are the first `n` of the declaration order. */
  ghost predicate CreatedUpTo(cat: Catalog, n: nat)
    reads cat
  {
    n <= |DeclarationOrder| && |cat.tokens| == n && forall i | 0 <= i < n :: cat.tokens[i].name == DeclarationOrder[i]
  }

  const CommentSource := @"#(?:[^\n\r]|\r(?!\n))*"

  // The sources the composed fragments end up with (tokens.js:61-132, 182-185).
  const BasicCharSource := Alternation(BasicUnescapedSource, EscapedSource)
  const MlBasicCharSource := Alternation(MlBasicUnescapedSource, EscapedSource)
  const MlBasicBodySource := "(?:" + Wrap(MlBasicCharSource) + "|" + Wrap(NewlineSource) + @"|\\"
                             + Wrap(WhitespaceSource) + "?" + Wrap(NewlineSource) + ")*"
  const TimeNumoffsetSource := "[+-]" + Wrap(TwoDigitsSource) + Wrap(TwoDigitsSource)
  const TimeOffsetSource := "z|" + Wrap(TimeNumoffsetSource)
  const PartialTimeSource := Wrap(TwoDigitsSource) + ":" + Wrap(TwoDigitsSource) + ":"
                             + Wrap(TwoDigitsSource) + Wrap(SecFracSource) + "?"
  const FullTimeSource := Wrap(PartialTimeSource) + Wrap(TimeOffsetSource)
  const ZeroPrefixableIntSource := @"\d(?:_\d)*"
  const FracSource := Wrap(@"\.") + Wrap(ZeroPrefixableIntSource)
  const FloatExpPartSource := "[+-]?" + Wrap(ZeroPrefixableIntSource)
  const ExpSource := "[eE]" + Wrap(FloatExpPartSource)

  /** The year source full_date reads: time_hour's as written, date_fullyear's corrected. */
  function YearSource(corrected: bool): string {
    if corrected then @"\d{4}" else TwoDigitsSource
  }

  /** The fragment dictionary after the string fragments (tokens.js:56-75) are registered in `t`. */
  function StringFragments(t: map<FragmentName, string>): map<FragmentName, string> {
    t[BasicUnescaped := BasicUnescapedSource][Escaped := EscapedSource][BasicChar := BasicCharSource]
     [MlBasicUnescaped := MlBasicUnescapedSource][MlBasicChar := MlBasicCharSource][MlBasicBody := MlBasicBodySource]
  }

  /** The fragment dictionary after the date and time fragments (tokens.js:112-132). */
  function DateTimeFragments(t: map<FragmentName, string>, corrected: bool): map<FragmentName, string> {
    t[DateFullyear := @"\d{4}"][DateMonth := TwoDigitsSource][DateMday := TwoDigitsSource][TimeDelim := "[tT ]"]
     [TimeHour := TwoDigitsSource][TimeMinute := TwoDigitsSource][TimeSecond := TwoDigitsSource]
     [TimeSecfrac := SecFracSource][TimeNumoffset := TimeNumoffsetSource][TimeOffset := TimeOffsetSource]
     [PartialTime := PartialTimeSource][FullDate := FullDateSource(YearSource(corrected))][FullTime := FullTimeSource]
  }

  /** The fragment dictionary after the float fragments (tokens.js:182-185), with the exponent
      fragments registered too when corrected. */
  function FloatFragments(t: map<FragmentName, string>, corrected: bool): map<FragmentName, string> {
    var u := t[FloatIntPart := DecimalIntSource][DecimalPoint := @"\."][ZeroPrefixableInt := ZeroPrefixableIntSource]
              [Frac := FracSource];
    if corrected then u[FloatExpPart := FloatExpPartSource][Exp := ExpSource] else u
  }

  /** What Float's template reads from the fragment dictionary after the float fragments. */
  lemma FloatFragmentsLookup(t: map<FragmentName, string>, corrected: bool)
    ensures var u := FloatFragments(t, corrected);
      && FloatIntPart in u && u[FloatIntPart] == DecimalIntSource
      && Frac in u && u[Frac] == FracSource
      && (Exp in u <==> corrected || Exp in t)
      && (corrected ==> u[Exp] == ExpSource)
  {
  }

  /** tokens.js:42-53: Newline, Whitespace, Comment (the one token type with a group), KeyValSep,
      Dot, and the categories IQuotedKey, IUnquotedKey and IString. */
  ghost predicate LayoutAndKeysDeclared(ts: seq<TokenType>)
  {
    && 8 <= |ts|
    && Declared(ts[0], "Newline", Regex(NewlineSource), [], None)
    && Declared(ts[1], "Whitespace", Regex(WhitespaceSource), [], None)
    && Declared(ts[2], "Comment", Regex(CommentSource), [], Some("comments"))
    && Declared(ts[3], "KeyValSep", Literal("="), [], None)
    && Declared(ts[4], "Dot", Literal("."), [], None)
    && Declared(ts[5], "IQuotedKey", NotApplicable, [], None)
    && Declared(ts[6], "IUnquotedKey", NotApplicable, [], None)
    && Declared(ts[7], "IString", NotApplicable, [], None)
  }

  /** tokens.js:62-80: BasicString in IString and IQuotedKey, BasicMultiLineString in IString. */
  ghost predicate BasicStringsDeclared(ts: seq<TokenType>)
  {
    && 10 <= |ts|
    && Declared(ts[8], "BasicString", Regex("\"" + Wrap(BasicCharSource) + "*\""), [ts[7], ts[5]], None)
    && Declared(ts[9], "BasicMultiLineString", Regex("\"\"\"" + Wrap(MlBasicCharSource) + "*\"\"\""), [ts[7]], None)
  }

  /** tokens.js:81-107: the literal strings, Boolean in IUnquotedKey, and True and False in Boolean. */
  ghost predicate LiteralStringsAndBooleansDeclared(ts: seq<TokenType>)
  {
    && 15 <= |ts|
    && Declared(ts[10], "LiteralString", Regex(@"'(?:[^'\r\n])*'"), [ts[7], ts[5]], None)
    && Declared(ts[11], "LiteralMultiLineString", Regex(@"'''(?:[^'\r]|\r\n)*'''"), [ts[7]], None)
    && Declared(ts[12], "Boolean", NotApplicable, [ts[6]], None)
    && Declared(ts[13], "True", Regex("true"), [ts[12]], None)
    && Declared(ts[14], "False", Regex("false"), [ts[12]], None)
  }

  /** tokens.js:108-152: DateTime and its four token types, three of which read full_date. */
  ghost predicate DateTimeDeclared(ts: seq<TokenType>, corrected: bool)
  {
    var fullDate := Wrap(FullDateSource(YearSource(corrected)));
    && 20 <= |ts|
    && Declared(ts[15], "DateTime", NotApplicable, [], None)
    && Declared(ts[16], "OffsetDateTime", Regex(fullDate + Wrap("[tT ]") + Wrap(FullTimeSource)), [ts[15]], None)
    && Declared(ts[17], "LocalDateTime", Regex(fullDate + Wrap("[tT ]") + Wrap(PartialTimeSource)), [ts[15]], None)
    && Declared(ts[18], "LocalDate", Regex(fullDate), [ts[15]], None)
    && Declared(ts[19], "LocalTime", Regex(Wrap(PartialTimeSource)), [ts[15]], None)
  }

  /** tokens.js:153-177: IInteger; DecimalInt in IInteger and IUnquotedKey; the others in IInteger. */
  ghost predicate IntegersDeclared(ts: seq<TokenType>)
  {
    && 25 <= |ts|
    && Declared(ts[20], "IInteger", NotApplicable, [], None)
    && Declared(ts[21], "DecimalInt", Regex(DecimalIntSource), [ts[20], ts[6]], None)
    && Declared(ts[22], "HexInt", Regex(@"0x[0-9A-F](?:_?[0-9A-F])*"), [ts[20]], None)
    && Declared(ts[23], "OctInt", Regex(@"0o[0-7](?:_?[0-7])*"), [ts[20]], None)
    && Declared(ts[24], "BinInt", Regex(@"0b[0-1](?:_?[0-1])*"), [ts[20]], None)
  }

  /** tokens.js:178-181: the IFloat category. */
  ghost predicate FloatCategoryDeclared(ts: seq<TokenType>)
  {
    && 26 <= |ts|
    && Declared(ts[25], "IFloat", NotApplicable, [], None)
  }

  /** tokens.js:186-195: Float, from the float_int_part, exp and frac sources, and SpecialFloat,
      both in IFloat. */
  ghost predicate FloatsDeclared(ts: seq<TokenType>)
  {
    && 28 <= |ts|
    && Declared(ts[26], "Float", Regex(FloatSource(DecimalIntSource, ExpSource, FracSource)), [ts[25]], None)
    && Declared(ts[27], "SpecialFloat", Regex(@"[+-](?:inf|nan)"), [ts[25]], None)
  }

  /** tokens.js:196-221: the five punctuation token types, with string patterns, and UnquotedKey
      in IUnquotedKey. */
  ghost predicate PunctuationDeclared(ts: seq<TokenType>)
  {
    && 34 <= |ts|
    && Declared(ts[28], "LSquare", Literal("["), [], None)
    && Declared(ts[29], "RSquare", Literal("]"), [], None)
    && Declared(ts[30], "Comma", Literal(","), [], None)
    && Declared(ts[31], "LCurly", Literal("{"), [], None)
    && Declared(ts[32], "RCurly", Literal("}"), [], None)
    && Declared(ts[33], "UnquotedKey", Regex(@"[A-Za-z0-9_-]+"), [ts[6]], None)
  }

  /**
   * The token types created so far have the name, pattern, categories and group tokens.js
   * declares for them, region by region. Each region is stated of the prefix that ends with it,
   * so appending token types leaves it as it was. Only the date-time region depends on the
   * correction of full_date.
   */
  ghost predicate AsDeclared(ts: seq<TokenType>, corrected: bool) {
    && |ts| <= |DeclarationOrder|
    && (8 <= |ts| ==> LayoutAndKeysDeclared(ts[..8]))
    && (10 <= |ts| ==> BasicStringsDeclared(ts[..10]))
    && (15 <= |ts| ==> LiteralStringsAndBooleansDeclared(ts[..15]))
    && (20 <= |ts| ==> DateTimeDeclared(ts[..20], corrected))
    && (25 <= |ts| ==> IntegersDeclared(ts[..25]))
    && (26 <= |ts| ==> FloatCategoryDeclared(ts[..26]))
    && (28 <= |ts| ==> FloatsDeclared(ts[..28]))
    && (34 <= |ts| ==> PunctuationDeclared(ts[..34]))
  }

  /** No token type in `ts` has a LONGER_ALT yet, as none has before tokens.js:222. */
  ghost predicate NoLongerAlts(ts: seq<TokenType>)
    reads ts
  {
    forall t | t in ts :: t.longerAlt == null
  }

  /** All 34 token types exist, and True, False and DecimalInt have UnquotedKey (the last) as
      their LONGER_ALT while no other token type has one. */
  ghost predicate LinkedAsDeclared(ts: seq<TokenType>)
    reads ts
  {
    && |ts| == |DeclarationOrder|
    && forall i | 0 <= i < |ts| ::
         ts[i].longerAlt == (if DeclarationOrder[i] in UnquotedKeyPrefixes then ts[33] else null)
  }

  /** Newline, Whitespace and Comment (tokens.js:42-48); comments go to their own group. */
  method DefineLayout(cat: Catalog) returns (newline: TokenType, whitespace: TokenType, comment: TokenType)
    requires cat.Valid() && NoLongerAlts(cat.tokens) && CreatedUpTo(cat, 0)
    modifies cat
    ensures cat.Valid() && NoLongerAlts(cat.tokens) && CreatedUpTo(cat, 3)
    ensures cat.tokens == old(cat.tokens) + [newline, whitespace, comment]
    ensures fresh(newline) && fresh(whitespace) && fresh(comment)
    ensures Declared(newline, "Newline", Regex(NewlineSource), [], None)
    ensures Declared(whitespace, "Whitespace", Regex(WhitespaceSource), [], None)
    ensures Declared(comment, "Comment", Regex(CommentSource), [], Some("comments"))
  {
    newline := cat.CreateToken("Newline", Regex(NewlineSource), [], None);
    whitespace := cat.CreateToken("Whitespace", Regex(WhitespaceSource), [], None);
    comment := cat.CreateToken("Comment", Regex(CommentSource), [], Some("comments"));
  }

  /** KeyValSep and Dot (tokens.js:49-50), whose patterns are plain strings. */
  method DefinePunctuation(cat: Catalog) returns (keyValSep: TokenType, dot: TokenType)
    requires cat.Valid() && NoLongerAlts(cat.tokens) && CreatedUpTo(cat, 3)
    modifies cat
    ensures cat.Valid() && NoLongerAlts(cat.tokens) && CreatedUpTo(cat, 5)
    ensures cat.tokens == old(cat.tokens) + [keyValSep, dot]
    ensures fresh(keyValSep) && fresh(dot)
    ensures Declared(keyValSep, "KeyValSep", Literal("="), [], None)
    ensures Declared(dot, "Dot", Literal("."), [], None)
  {
    keyValSep := cat.CreateToken("KeyValSep", Literal("="), [], None);
    dot := cat.CreateToken("Dot", Literal("."), [], None);
  }

  /** The categories IQuotedKey, IUnquotedKey and IString (tokens.js:51-53), which match nothing
      themselves. */
  method DefineKeyAndStringCategories(cat: Catalog) returns (iQuotedKey: TokenType, iUnquotedKey: TokenType, iString: TokenType)
    requires cat.Valid() && NoLongerAlts(cat.tokens) && CreatedUpTo(cat, 5)
    modifies cat
    ensures cat.Valid() && NoLongerAlts(cat.tokens) && CreatedUpTo(cat, 8)
    ensures cat.tokens == old(cat.tokens) + [iQuotedKey, iUnquotedKey, iString]
    ensures fresh(iQuotedKey) && fresh(iUnquotedKey) && fresh(iString)
    ensures Declared(iQuotedKey, "IQuotedKey", NotApplicable, [], None)
    ensures Declared(iUnquotedKey, "IUnquotedKey", NotApplicable, [], None)
    ensures Declared(iString, "IString", NotApplicable, [], None)
  {
    iQuotedKey := cat.CreateToken("IQuotedKey", NotApplicable, [], None);
    iUnquotedKey := cat.CreateToken("IUnquotedKey", NotApplicable, [], None);
    iString := cat.CreateToken("IString", NotApplicable, [], None);
  }


  /** The source `makePattern` gives for the template `${a}|${b}`. */
  function Alternation(a: string, b: string): string {
    Wrap(a) + "|" + Wrap(b)
  }

  /** The closed forms of the templates the file interpolates fragments into. */
  lemma AlternationTemplate(a: Arg, b: Arg)
    requires PieceSource(a).Some? && PieceSource(b).Some?
    ensures Compose(["", "|", ""], [a, b]) == Success(Alternation(PieceSource(a).value, PieceSource(b).value))
  {
    var pa, pb := PieceSource(a).value, PieceSource(b).value;
    TemplateTwo("", "|", "", a, b);
    assert "" + Wrap(pa) == Wrap(pa);
    assert Wrap(pa) + "|" + Wrap(pb) + "" == Alternation(pa, pb);
    ComposeIsInterleave(["", "|", ""], [a, b]);
  }

  lemma SignedPairTemplate(a: Arg, b: Arg)
    requires PieceSource(a).Some? && PieceSource(b).Some?
    ensures Compose(["[+-]", "", ""], [a, b]) == Success("[+-]" + Wrap(PieceSource(a).value) + Wrap(PieceSource(b).value))
  {
    var pa, pb := PieceSource(a).value, PieceSource(b).value;
    TemplateTwo("[+-]", "", "", a, b);
    assert "[+-]" + Wrap(pa) + "" == "[+-]" + Wrap(pa);
    assert "[+-]" + Wrap(pa) + Wrap(pb) + "" == "[+-]" + Wrap(pa) + Wrap(pb);
    ComposeIsInterleave(["[+-]", "", ""], [a, b]);
  }

  lemma PrefixTemplate(prefix: string, a: Arg)
    requires PieceSource(a).Some?
    ensures Compose([prefix, ""], [a]) == Success(prefix + Wrap(PieceSource(a).value))
  {
    TemplateOne(prefix, "", a);
    assert prefix + Wrap(PieceSource(a).value) + "" == prefix + Wrap(PieceSource(a).value);
    ComposeIsInterleave([prefix, ""], [a]);
  }

  lemma WrapTemplate(a: Arg)
    requires PieceSource(a).Some?
    ensures Compose(["", ""], [a]) == Success(Wrap(PieceSource(a).value))
  {
    var pa := PieceSource(a).value;
    TemplateOne("", "", a);
    assert "" + Wrap(pa) + "" == Wrap(pa);
    ComposeIsInterleave(["", ""], [a]);
  }

  lemma JuxtaposeTemplate(a: Arg, b: Arg)
    requires PieceSource(a).Some? && PieceSource(b).Some?
    ensures Compose(["", "", ""], [a, b]) == Success(Wrap(PieceSource(a).value) + Wrap(PieceSource(b).value))
  {
    var pa, pb := PieceSource(a).value, PieceSource(b).value;
    TemplateTwo("", "", "", a, b);
    assert "" + Wrap(pa) + "" == Wrap(pa);
    assert Wrap(pa) + Wrap(pb) + "" == Wrap(pa) + Wrap(pb);
    ComposeIsInterleave(["", "", ""], [a, b]);
  }

  lemma JuxtaposeThreeTemplate(a: Arg, b: Arg, c: Arg)
    requires PieceSource(a).Some? && PieceSource(b).Some? && PieceSource(c).Some?
    ensures Compose(["", "", "", ""], [a, b, c])
      == Success(Wrap(PieceSource(a).value) + Wrap(PieceSource(b).value) + Wrap(PieceSource(c).value))
  {
    var pa, pb, pc := PieceSource(a).value, PieceSource(b).value, PieceSource(c).value;
    TemplateThree("", "", "", "", a, b, c);
    assert "" + Wrap(pa) + "" == Wrap(pa);
    assert Wrap(pa) + Wrap(pb) + "" == Wrap(pa) + Wrap(pb);
    assert Wrap(pa) + Wrap(pb) + Wrap(pc) + "" == Wrap(pa) + Wrap(pb) + Wrap(pc);
    ComposeIsInterleave(["", "", "", ""], [a, b, c]);
  }

  lemma FullDateTemplate(year: Arg, month: Arg, mday: Arg)
    requires PieceSource(year).Some? && PieceSource(month).Some? && PieceSource(mday).Some?
    ensures Compose(["", "-", "-", ""], [year, month, mday])
      == Success(Wrap(PieceSource(year).value) + "-" + Wrap(PieceSource(month).value) + "-" + Wrap(PieceSource(mday).value))
  {
    var py, pm, pd := PieceSource(year).value, PieceSource(month).value, PieceSource(mday).value;
    TemplateThree("", "-", "-", "", year, month, mday);
    assert "" + Wrap(py) == Wrap(py);
    assert Wrap(py) + "-" + Wrap(pm) + "-" + Wrap(pd) + "" == Wrap(py) + "-" + Wrap(pm) + "-" + Wrap(pd);
    ComposeIsInterleave(["", "-", "-", ""], [year, month, mday]);
  }

  lemma PartialTimeTemplate(hour: Arg, minute: Arg, second: Arg, secfrac: Arg)
    requires PieceSource(hour).Some? && PieceSource(minute).Some? && PieceSource(second).Some? && PieceSource(secfrac).Some?
    ensures Compose(["", ":", ":", "", "?"], [hour, minute, second, secfrac])
      == Success(Wrap(PieceSource(hour).value) + ":" + Wrap(PieceSource(minute).value) + ":"
                 + Wrap(PieceSource(second).value) + Wrap(PieceSource(secfrac).value) + "?")
  {
    var ph, pm, ps, pf := PieceSource(hour).value, PieceSource(minute).value, PieceSource(second).value, PieceSource(secfrac).value;
    TemplateFour("", ":", ":", "", "?", hour, minute, second, secfrac);
    assert "" + Wrap(ph) == Wrap(ph);
    assert Wrap(ph) + ":" + Wrap(pm) + ":" + Wrap(ps) + "" == Wrap(ph) + ":" + Wrap(pm) + ":" + Wrap(ps);
    ComposeIsInterleave(["", ":", ":", "", "?"], [hour, minute, second, secfrac]);
  }

  /** `FRAGMENT(name, makePattern`${f.first}|${f.second}`)`, as basic_char and ML_BASIC_CHAR are
      defined (tokens.js:61, 71). */
  method DefineAlternation(frags: Fragments, name: FragmentName, first: FragmentName, second: FragmentName)
    requires first in frags.table && second in frags.table
    modifies frags
    ensures frags.table == old(frags.table)[name := Alternation(old(frags.table[first]), old(frags.table[second]))]
  {
    var a, b := frags.Get(first), frags.Get(second);
    AlternationTemplate(a, b);
    var p := MakePattern(["", "|", ""], [a, b]);
    frags.Register(name, p.value);
  }

  /** BasicString (tokens.js:62-66): a double quote, any number of basic_char, a double quote. */
  method DefineBasicString(frags: Fragments, cat: Catalog, iQuotedKey: TokenType, iString: TokenType)
    returns (basicString: TokenType)
    requires cat.Valid() && NoLongerAlts(cat.tokens) && CreatedUpTo(cat, 8) && BasicChar in frags.table
    requires iQuotedKey == cat.tokens[5] && iString == cat.tokens[7]
    modifies cat
    ensures cat.Valid() && NoLongerAlts(cat.tokens) && CreatedUpTo(cat, 9)
    ensures cat.tokens == old(cat.tokens) + [basicString] && fresh(basicString)
    ensures Declared(basicString, "BasicString", Regex("\"" + Wrap(frags.table[BasicChar]) + "*\""), [iString, iQuotedKey], None)
  {
    var charArg := frags.Get(BasicChar);
    TemplateOne("\"", "*\"", charArg);
    var pattern := MakePattern(["\"", "*\""], [charArg]);
    basicString := cat.CreateToken("BasicString", pattern.value, [iString, iQuotedKey], None);
  }

  /** ML_BASIC_BODY (tokens.js:72-75), built from ML_BASIC_CHAR and the Newline and Whitespace
      token types themselves. */
  method DefineMultiLineBody(frags: Fragments, newline: TokenType, whitespace: TokenType)
    requires MlBasicChar in frags.table
    requires newline.pattern.Regex? && whitespace.pattern.Regex?
    modifies frags
    ensures frags.table == old(frags.table)[MlBasicBody :=
      "(?:" + Wrap(old(frags.table[MlBasicChar])) + "|" + Wrap(newline.pattern.source) + @"|\\"
      + Wrap(whitespace.pattern.source) + "?" + Wrap(newline.pattern.source) + ")*"]
  {
    var charArg, nl, ws := frags.Get(MlBasicChar), Token(newline.pattern), Token(whitespace.pattern);
    TemplateFour("(?:", "|", @"|\\", "?", ")*", charArg, nl, ws, nl);
    var body := MakePattern(["(?:", "|", @"|\\", "?", ")*"], [charArg, nl, ws, nl]);
    frags.Register(MlBasicBody, body.value);
  }

  /**
   * BasicMultiLineString (tokens.js:76-80). It is built from ML_BASIC_CHAR, not from the
   * ML_BASIC_BODY registered just before, which goes unused.
   */
  method DefineMultiLineBasicString(frags: Fragments, cat: Catalog, iString: TokenType)
    returns (basicMultiLineString: TokenType)
    requires cat.Valid() && NoLongerAlts(cat.tokens) && CreatedUpTo(cat, 9) && MlBasicChar in frags.table
    requires iString == cat.tokens[7]
    modifies cat
    ensures cat.Valid() && NoLongerAlts(cat.tokens) && CreatedUpTo(cat, 10)
    ensures cat.tokens == old(cat.tokens) + [basicMultiLineString] && fresh(basicMultiLineString)
    ensures Declared(basicMultiLineString, "BasicMultiLineString",
      Regex("\"\"\"" + Wrap(frags.table[MlBasicChar]) + "*\"\"\""), [iString], None)
  {
    var charArg := frags.Get(MlBasicChar);
    TemplateOne("\"\"\"", "*\"\"\"", charArg);
    var pattern := MakePattern(["\"\"\"", "*\"\"\""], [charArg]);
    basicMultiLineString := cat.CreateToken("BasicMultiLineString", pattern.value, [iString], None);
  }

  /** LiteralString and LiteralMultiLineString (tokens.js:81-92). */
  method DefineLiteralStrings(cat: Catalog, iQuotedKey: TokenType, iString: TokenType)
    returns (literalString: TokenType, literalMultiLineString: TokenType)
    requires cat.Valid() && NoLongerAlts(cat.tokens) && CreatedUpTo(cat, 10)
    requires iQuotedKey == cat.tokens[5] && iString == cat.tokens[7]
    modifies cat
    ensures cat.Valid() && NoLongerAlts(cat.tokens) && CreatedUpTo(cat, 12)
    ensures cat.tokens == old(cat.tokens) + [literalString, literalMultiLineString]
    ensures fresh(literalString) && fresh(literalMultiLineString)
    ensures Declared(literalString, "LiteralString", Regex(@"'(?:[^'\r\n])*'"), [iString, iQuotedKey], None)
    ensures Declared(literalMultiLineString, "LiteralMultiLineString", Regex(@"'''(?:[^'\r]|\r\n)*'''"), [iString], None)
  {
    literalString := cat.CreateToken("LiteralString", Regex(@"'(?:[^'\r\n])*'"), [iString, iQuotedKey], None);
    literalMultiLineString := cat.CreateToken("LiteralMultiLineString", Regex(@"'''(?:[^'\r]|\r\n)*'''"), [iString], None);
  }

  /** Boolean, True and False (tokens.js:93-107). */
  method DefineBooleans(cat: Catalog, iUnquotedKey: TokenType)
    returns (boolean: TokenType, trueToken: TokenType, falseToken: TokenType)
    requires cat.Valid() && NoLongerAlts(cat.tokens) && CreatedUpTo(cat, 12)
    requires iUnquotedKey == cat.tokens[6]
    modifies cat
    ensures cat.Valid() && NoLongerAlts(cat.tokens) && CreatedUpTo(cat, 15)
    ensures cat.tokens == old(cat.tokens) + [boolean, trueToken, falseToken]
    ensures fresh(boolean) && fresh(trueToken) && fresh(falseToken)
    ensures Declared(boolean, "Boolean", NotApplicable, [iUnquotedKey], None)
    ensures Declared(trueToken, "True", Regex("true"), [boolean], None)
    ensures Declared(falseToken, "False", Regex("false"), [boolean], None)
  {
    boolean := DefineNext(cat, "Boolean", NotApplicable, [iUnquotedKey]);
    trueToken := DefineNext(cat, "True", Regex("true"), [boolean]);
    falseToken := DefineNext(cat, "False", Regex("false"), [boolean]);
  }

  /** Creates the next token type of the declaration order, with no group. */
  method DefineNext(cat: Catalog, name: string, pattern: Pattern, categories: seq<TokenType>) returns (token: TokenType)
    requires |cat.tokens| < |DeclarationOrder| && CreatedUpTo(cat, |cat.tokens|) && name == DeclarationOrder[|cat.tokens|]
    requires cat.Valid() && NoLongerAlts(cat.tokens)
    modifies cat
    ensures cat.Valid() && NoLongerAlts(cat.tokens) && CreatedUpTo(cat, |old(cat.tokens)| + 1)
    ensures cat.tokens == old(cat.tokens) + [token] && fresh(token)
    ensures Declared(token, name, pattern, categories, None)
  {
    token := cat.CreateToken(name, pattern, categories, None);
  }

  /** time_numoffset and time_offset (tokens.js:120-121): a sign and four digits with no colon
      between hours and minutes, or a lower-case `z` only. */
  method DefineOffsets(frags: Fragments)
    requires TimeHour in frags.table && TimeMinute in frags.table
    modifies frags
    ensures var numOffset := "[+-]" + Wrap(old(frags.table[TimeHour])) + Wrap(old(frags.table[TimeMinute]));
      frags.table == old(frags.table)[TimeNumoffset := numOffset][TimeOffset := "z|" + Wrap(numOffset)]
  {
    var hour, minute := frags.Get(TimeHour), frags.Get(TimeMinute);
    SignedPairTemplate(hour, minute);
    var numOffset := MakePattern(["[+-]", "", ""], [hour, minute]);
    frags.Register(TimeNumoffset, numOffset.value);
    var numOffsetArg := frags.Get(TimeNumoffset);
    PrefixTemplate("z|", numOffsetArg);
    var offset := MakePattern(["z|", ""], [numOffsetArg]);
    frags.Register(TimeOffset, offset.value);
  }

  /** partial_time (tokens.js:122-127): hours, minutes and seconds separated by colons, then an
      optional time_secfrac. */
  method DefinePartialTime(frags: Fragments)
    requires TimeHour in frags.table && TimeMinute in frags.table && TimeSecond in frags.table && TimeSecfrac in frags.table
    modifies frags
    ensures frags.table == old(frags.table)[PartialTime :=
      Wrap(old(frags.table[TimeHour])) + ":" + Wrap(old(frags.table[TimeMinute])) + ":"
      + Wrap(old(frags.table[TimeSecond])) + Wrap(old(frags.table[TimeSecfrac])) + "?"]
  {
    var hour, minute, second, secfrac := frags.Get(TimeHour), frags.Get(TimeMinute), frags.Get(TimeSecond), frags.Get(TimeSecfrac);
    PartialTimeTemplate(hour, minute, second, secfrac);
    var partialTime := MakePattern(["", ":", ":", "", "?"], [hour, minute, second, secfrac]);
    frags.Register(PartialTime, partialTime.value);
  }

  /**
   * full_date (tokens.js:128-131): year, month and day separated by hyphens. The year is read from
   * `yearFragment`: tokens.js:130 reads time_hour, two digits, where date_fullyear is evidently meant.
   */
  method DefineFullDate(frags: Fragments, yearFragment: FragmentName)
    requires yearFragment in frags.table && DateMonth in frags.table && DateMday in frags.table
    modifies frags
    ensures frags.table == old(frags.table)[FullDate :=
      Wrap(old(frags.table[yearFragment])) + "-" + Wrap(old(frags.table[DateMonth])) + "-" + Wrap(old(frags.table[DateMday]))]
  {
    var year, month, mday := frags.Get(yearFragment), frags.Get(DateMonth), frags.Get(DateMday);
    FullDateTemplate(year, month, mday);
    var fullDate := MakePattern(["", "-", "-", ""], [year, month, mday]);
    frags.Register(FullDate, fullDate.value);
  }

  /** A category token type such as DateTime or IFloat (tokens.js:108-111, 153-156, 178-181): its
      pattern is Lexer.NA and it has no categories of its own. */
  method DefineCategory(cat: Catalog, name: string) returns (category: TokenType)
    requires |cat.tokens| < |DeclarationOrder| && CreatedUpTo(cat, |cat.tokens|) && name == DeclarationOrder[|cat.tokens|]
    requires cat.Valid() && NoLongerAlts(cat.tokens)
    modifies cat
    ensures cat.Valid() && NoLongerAlts(cat.tokens) && CreatedUpTo(cat, |old(cat.tokens)| + 1)
    ensures cat.tokens == old(cat.tokens) + [category] && fresh(category)
    ensures Declared(category, name, NotApplicable, [], None)
  {
    category := DefineNext(cat, name, NotApplicable, []);
  }

  /** OffsetDateTime (tokens.js:133-137): a full_date, a time_delim and a full_time. */
  method DefineOffsetDateTime(frags: Fragments, cat: Catalog, dateTime: TokenType)
    returns (offsetDateTime: TokenType)
    requires cat.Valid() && NoLongerAlts(cat.tokens) && CreatedUpTo(cat, 16)
    requires FullDate in frags.table && TimeDelim in frags.table && FullTime in frags.table
    requires dateTime == cat.tokens[15]
    modifies cat
    ensures cat.Valid() && NoLongerAlts(cat.tokens) && CreatedUpTo(cat, 17)
    ensures cat.tokens == old(cat.tokens) + [offsetDateTime] && fresh(offsetDateTime)
    ensures Declared(offsetDateTime, "OffsetDateTime",
      Regex(Wrap(frags.table[FullDate]) + Wrap(frags.table[TimeDelim]) + Wrap(frags.table[FullTime])), [dateTime], None)
  {
    var date, delim, time := frags.Get(FullDate), frags.Get(TimeDelim), frags.Get(FullTime);
    JuxtaposeThreeTemplate(date, delim, time);
    var pattern := MakePattern(["", "", "", ""], [date, delim, time]);
    offsetDateTime := cat.CreateToken("OffsetDateTime", pattern.value, [dateTime], None);
  }

  /** LocalDateTime (tokens.js:138-142): a full_date, a time_delim and a partial_time. */
  method DefineLocalDateTime(frags: Fragments, cat: Catalog, dateTime: TokenType)
    returns (localDateTime: TokenType)
    requires cat.Valid() && NoLongerAlts(cat.tokens) && CreatedUpTo(cat, 17)
    requires FullDate in frags.table && TimeDelim in frags.table && PartialTime in frags.table
    requires dateTime == cat.tokens[15]
    modifies cat
    ensures cat.Valid() && NoLongerAlts(cat.tokens) && CreatedUpTo(cat, 18)
    ensures cat.tokens == old(cat.tokens) + [localDateTime] && fresh(localDateTime)
    ensures Declared(localDateTime, "LocalDateTime",
      Regex(Wrap(frags.table[FullDate]) + Wrap(frags.table[TimeDelim]) + Wrap(frags.table[PartialTime])), [dateTime], None)
  {
    var date, delim, time := frags.Get(FullDate), frags.Get(TimeDelim), frags.Get(PartialTime);
    JuxtaposeThreeTemplate(date, delim, time);
    var pattern := MakePattern(["", "", "", ""], [date, delim, time]);
    localDateTime := cat.CreateToken("LocalDateTime", pattern.value, [dateTime], None);
  }

  /** LocalDate and LocalTime (tokens.js:143-152): a token type whose pattern is one fragment. */
  method DefineSingleFragmentToken(frags: Fragments, cat: Catalog, name: string,
                                   fragment: FragmentName, dateTime: TokenType)
    returns (token: TokenType)
    requires |cat.tokens| < |DeclarationOrder| && CreatedUpTo(cat, |cat.tokens|) && name == DeclarationOrder[|cat.tokens|]
    requires cat.Valid() && NoLongerAlts(cat.tokens) && fragment in frags.table
    requires 15 < |cat.tokens| && dateTime == cat.tokens[15]
    modifies cat
    ensures cat.Valid() && NoLongerAlts(cat.tokens) && CreatedUpTo(cat, |old(cat.tokens)| + 1)
    ensures cat.tokens == old(cat.tokens) + [token] && fresh(token)
    ensures Declared(token, name, Regex(Wrap(frags.table[fragment])), [dateTime], None)
  {
    var part := frags.Get(fragment);
    WrapTemplate(part);
    var pattern := MakePattern(["", ""], [part]);
    token := cat.CreateToken(name, pattern.value, [dateTime], None);
  }

  /** DecimalInt and HexInt (tokens.js:157-167). DecimalInt is an IUnquotedKey as well as an
      IInteger; HexInt takes upper-case digits only. */
  method DefineDecimalAndHexInts(cat: Catalog, iInteger: TokenType, iUnquotedKey: TokenType)
    returns (decimalInt: TokenType, hexInt: TokenType)
    requires cat.Valid() && NoLongerAlts(cat.tokens) && CreatedUpTo(cat, 21)
    requires iInteger == cat.tokens[20] && iUnquotedKey == cat.tokens[6]
    modifies cat
    ensures cat.Valid() && NoLongerAlts(cat.tokens) && CreatedUpTo(cat, 23)
    ensures cat.tokens == old(cat.tokens) + [decimalInt, hexInt]
    ensures fresh(decimalInt) && fresh(hexInt)
    ensures Declared(decimalInt, "DecimalInt", Regex(DecimalIntSource), [iInteger, iUnquotedKey], None)
    ensures Declared(hexInt, "HexInt", Regex(@"0x[0-9A-F](?:_?[0-9A-F])*"), [iInteger], None)
  {
    decimalInt := cat.CreateToken("DecimalInt", Regex(DecimalIntSource), [iInteger, iUnquotedKey], None);
    hexInt := cat.CreateToken("HexInt", Regex(@"0x[0-9A-F](?:_?[0-9A-F])*"), [iInteger], None);
  }

  /** OctInt and BinInt (tokens.js:168-177). */
  method DefineOctAndBinInts(cat: Catalog, iInteger: TokenType) returns (octInt: TokenType, binInt: TokenType)
    requires cat.Valid() && NoLongerAlts(cat.tokens) && CreatedUpTo(cat, 23)
    requires iInteger == cat.tokens[20]
    modifies cat
    ensures cat.Valid() && NoLongerAlts(cat.tokens) && CreatedUpTo(cat, 25)
    ensures cat.tokens == old(cat.tokens) + [octInt, binInt]
    ensures fresh(octInt) && fresh(binInt)
    ensures Declared(octInt, "OctInt", Regex(@"0o[0-7](?:_?[0-7])*"), [iInteger], None)
    ensures Declared(binInt, "BinInt", Regex(@"0b[0-1](?:_?[0-1])*"), [iInteger], None)
  {
    octInt := cat.CreateToken("OctInt", Regex(@"0o[0-7](?:_?[0-7])*"), [iInteger], None);
    binInt := cat.CreateToken("BinInt", Regex(@"0b[0-1](?:_?[0-1])*"), [iInteger], None);
  }

  /** `FRAGMENT(name, makePattern`${f.first}${f.second}`)`, as frac and full_time are defined
      (tokens.js:132, 185). */
  method DefineJuxtaposition(frags: Fragments, name: FragmentName, first: FragmentName, second: FragmentName)
    requires first in frags.table && second in frags.table
    modifies frags
    ensures frags.table == old(frags.table)[name := Wrap(old(frags.table[first])) + Wrap(old(frags.table[second]))]
  {
    var a, b := frags.Get(first), frags.Get(second);
    JuxtaposeTemplate(a, b);
    var p := MakePattern(["", "", ""], [a, b]);
    frags.Register(name, p.value);
  }

  /**
   * The exponent fragment that Float reads and the file never registers: `e` or `E`, then an
   * optionally signed zero_prefixable_int, as the float-exp-part of the TOML grammar.
   */
  method DefineExponent(frags: Fragments)
    requires ZeroPrefixableInt in frags.table
    modifies frags
    ensures var expPart := "[+-]?" + Wrap(old(frags.table[ZeroPrefixableInt]));
      frags.table == old(frags.table)[FloatExpPart := expPart][Exp := "[eE]" + Wrap(expPart)]
  {
    var digits := frags.Get(ZeroPrefixableInt);
    PrefixTemplate("[+-]?", digits);
    var expPart := MakePattern(["[+-]?", ""], [digits]);
    frags.Register(FloatExpPart, expPart.value);
    var expPartArg := frags.Get(FloatExpPart);
    PrefixTemplate("[eE]", expPartArg);
    var exp := MakePattern(["[eE]", ""], [expPartArg]);
    frags.Register(Exp, exp.value);
  }

  /** The source of Float's pattern, from the float_int_part, exp and frac sources. */
  function FloatSource(intPart: string, exp: string, frac: string): string {
    Wrap(intPart) + "(?:" + Wrap(exp) + "|" + Wrap(frac) + Wrap(exp) + ")"
  }

  /**
   * makePattern on Float's template (tokens.js:188): it reads `f.exp` as its second argument, and
   * when that fragment is not registered the call throws, reporting argument 1.
   */
  method MakeFloatPattern(frags: Fragments) returns (r: Result<Pattern, ComposeError>)
    requires FloatIntPart in frags.table && Frac in frags.table
    ensures Exp !in frags.table ==> r == Failure(PatternOfUndefined(1))
    ensures Exp in frags.table ==> r == Success(Regex(FloatSource(frags.table[FloatIntPart], frags.table[Exp], frags.table[Frac])))
  {
    var intPart, exp, frac := frags.Get(FloatIntPart), frags.Get(Exp), frags.Get(Frac);
    FloatTemplateFailsAtExponent(intPart, exp, frac);
    r := MakePattern(["", "(?:", "|", "", ")"], [intPart, exp, frac, exp]);
    if r.Success? {
      FloatTemplateSource(intPart, exp, frac);
    }
  }

  /** Float (tokens.js:186-190): when its pattern cannot be made, no token type is created. */
  method DefineFloat(frags: Fragments, cat: Catalog, iFloat: TokenType)
    returns (r: Result<TokenType, ComposeError>)
    requires cat.Valid() && NoLongerAlts(cat.tokens) && CreatedUpTo(cat, 26)
    requires FloatIntPart in frags.table && Frac in frags.table
    requires iFloat == cat.tokens[25]
    modifies cat
    ensures cat.Valid() && NoLongerAlts(cat.tokens)
    ensures Exp !in frags.table ==> r == Failure(PatternOfUndefined(1)) && cat.tokens == old(cat.tokens)
    ensures Exp in frags.table ==>
      && r.Success?
      && fresh(r.value)
      && cat.tokens == old(cat.tokens) + [r.value]
      && CreatedUpTo(cat, 27)
      && Declared(r.value, "Float", Regex(FloatSource(frags.table[FloatIntPart], frags.table[Exp], frags.table[Frac])),
                  [iFloat], None)
  {
    var pattern := MakeFloatPattern(frags);
    if pattern.Failure? {
      return Failure(pattern.error);
    }
    var floatToken := cat.CreateToken("Float", pattern.value, [iFloat], None);
    return Success(floatToken);
  }

  /**
   * With the integer part and the fraction defined, the Float template composes exactly when the
   * exponent is defined, and otherwise fails at its first use, argument 1.
   */
  lemma FloatTemplateFailsAtExponent(intPart: Arg, exp: Arg, frac: Arg)
    requires PieceSource(intPart).Some? && PieceSource(frac).Some?
    ensures var c := Compose(["", "(?:", "|", "", ")"], [intPart, exp, frac, exp]);
      && (c.Success? <==> PieceSource(exp).Some?)
      && (c.Failure? ==> c.error == PatternOfUndefined(1))
  {
    var args := [intPart, exp, frac, exp];
    ComposeFailsAtFirstUndefined(["", "(?:", "|", "", ")"], args);
    assert args[0] == intPart && args[1] == exp && args[2] == frac && args[3] == exp;
  }

  /** With all three defined, the Float template splices in their sources as FloatSource says. */
  lemma FloatTemplateSource(intPart: Arg, exp: Arg, frac: Arg)
    requires PieceSource(intPart).Some? && PieceSource(exp).Some? && PieceSource(frac).Some?
    ensures Interleave(["", "(?:", "|", "", ")"], PieceSources([intPart, exp, frac, exp]))
         == FloatSource(PieceSource(intPart).value, PieceSource(exp).value, PieceSource(frac).value)
  {
    TemplateFour("", "(?:", "|", "", ")", intPart, exp, frac, exp);
  }

  /** SpecialFloat (tokens.js:191-195): a mandatory sign, then `inf` or `nan`. */
  method DefineSpecialFloat(cat: Catalog, iFloat: TokenType) returns (specialFloat: TokenType)
    requires cat.Valid() && NoLongerAlts(cat.tokens) && CreatedUpTo(cat, 27)
    requires iFloat == cat.tokens[25]
    modifies cat
    ensures cat.Valid() && NoLongerAlts(cat.tokens) && CreatedUpTo(cat, 28)
    ensures cat.tokens == old(cat.tokens) + [specialFloat] && fresh(specialFloat)
    ensures Declared(specialFloat, "SpecialFloat", Regex(@"[+-](?:inf|nan)"), [iFloat], None)
  {
    specialFloat := cat.CreateToken("SpecialFloat", Regex(@"[+-](?:inf|nan)"), [iFloat], None);
  }

  /** LSquare, RSquare and Comma (tokens.js:196-207). */
  method DefineArrayPunctuation(cat: Catalog) returns (lSquare: TokenType, rSquare: TokenType, comma: TokenType)
    requires cat.Valid() && NoLongerAlts(cat.tokens) && CreatedUpTo(cat, 28)
    modifies cat
    ensures cat.Valid() && NoLongerAlts(cat.tokens) && CreatedUpTo(cat, 31)
    ensures cat.tokens == old(cat.tokens) + [lSquare, rSquare, comma]
    ensures fresh(lSquare) && fresh(rSquare) && fresh(comma)
    ensures Declared(lSquare, "LSquare", Literal("["), [], None)
    ensures Declared(rSquare, "RSquare", Literal("]"), [], None)
    ensures Declared(comma, "Comma", Literal(","), [], None)
  {
    lSquare := cat.CreateToken("LSquare", Literal("["), [], None);
    rSquare := cat.CreateToken("RSquare", Literal("]"), [], None);
    comma := cat.CreateToken("Comma", Literal(","), [], None);
  }

  /** LCurly and RCurly (tokens.js:208-215). */
  method DefineInlineTablePunctuation(cat: Catalog) returns (lCurly: TokenType, rCurly: TokenType)
    requires cat.Valid() && NoLongerAlts(cat.tokens) && CreatedUpTo(cat, 31)
    modifies cat
    ensures cat.Valid() && NoLongerAlts(cat.tokens) && CreatedUpTo(cat, 33)
    ensures cat.tokens == old(cat.tokens) + [lCurly, rCurly]
    ensures fresh(lCurly) && fresh(rCurly)
    ensures Declared(lCurly, "LCurly", Literal("{"), [], None)
    ensures Declared(rCurly, "RCurly", Literal("}"), [], None)
  {
    lCurly := cat.CreateToken("LCurly", Literal("{"), [], None);
    rCurly := cat.CreateToken("RCurly", Literal("}"), [], None);
  }

  /** UnquotedKey (tokens.js:217-221): one or more letters, digits, `_` or `-`. */
  method DefineUnquotedKey(cat: Catalog, iUnquotedKey: TokenType) returns (unquotedKey: TokenType)
    requires cat.Valid() && NoLongerAlts(cat.tokens) && CreatedUpTo(cat, 33)
    requires iUnquotedKey == cat.tokens[6]
    modifies cat
    ensures cat.Valid() && NoLongerAlts(cat.tokens) && CreatedUpTo(cat, 34)
    ensures cat.tokens == old(cat.tokens) + [unquotedKey] && fresh(unquotedKey)
    ensures Declared(unquotedKey, "UnquotedKey", Regex(@"[A-Za-z0-9_-]+"), [iUnquotedKey], None)
  {
    unquotedKey := cat.CreateToken("UnquotedKey", Regex(@"[A-Za-z0-9_-]+"), [iUnquotedKey], None);
  }

  /** The fragment full_date registers, for a given year fragment source. */
  function FullDateSource(year: string): string {
    Wrap(year) + "-" + Wrap(TwoDigitsSource) + "-" + Wrap(TwoDigitsSource)
  }

  /** True, False and DecimalInt sit at positions 13, 14 and 21 of the declaration order. */
  lemma DeclarationOrderFacts()
    ensures |DeclarationOrder| == 34
    ensures forall i | 0 <= i < |DeclarationOrder| :: DeclarationOrder[i] in UnquotedKeyPrefixes <==> i in {13, 14, 21}
  {
  }

  /** No name is declared twice. */
  lemma DeclarationOrderDistinct()
    ensures forall i, j | 0 <= i < j < |DeclarationOrder| :: DeclarationOrder[i] != DeclarationOrder[j]
  {
    FirstNamesDistinct();
    LastNamesDistinct();
    FirstAndLastNamesDistinct();
  }

  // Distinctness in three parts: among the first 17 names, among the last 17, and across.
  lemma FirstNamesDistinct()
    ensures forall i, j | 0 <= i < j < 17 :: DeclarationOrder[i] != DeclarationOrder[j]
  {
  }

  lemma LastNamesDistinct()
    ensures forall i, j | 17 <= i < j < |DeclarationOrder| :: DeclarationOrder[i] != DeclarationOrder[j]
  {
  }

  lemma FirstAndLastNamesDistinct()
    ensures forall i, j | 0 <= i < 17 <= j < |DeclarationOrder| :: DeclarationOrder[i] != DeclarationOrder[j]
  {
  }

  /** tokens.js:42-53: Newline through IString. */
  method LoadLayoutAndKeys(cat: Catalog)
    returns (newline: TokenType, whitespace: TokenType, iQuotedKey: TokenType, iUnquotedKey: TokenType, iString: TokenType)
    requires cat.Valid() && NoLongerAlts(cat.tokens) && CreatedUpTo(cat, 0)
    modifies cat
    ensures cat.Valid() && NoLongerAlts(cat.tokens) && CreatedUpTo(cat, 8) && LayoutAndKeysDeclared(cat.tokens)
    ensures newline == cat.tokens[0] && whitespace == cat.tokens[1]
    ensures newline.pattern == Regex(NewlineSource) && whitespace.pattern == Regex(WhitespaceSource)
    ensures iQuotedKey == cat.tokens[5] && iUnquotedKey == cat.tokens[6] && iString == cat.tokens[7]
  {
    var comment, keyValSep, dot;
    newline, whitespace, comment := DefineLayout(cat);
    keyValSep, dot := DefinePunctuation(cat);
    iQuotedKey, iUnquotedKey, iString := DefineKeyAndStringCategories(cat);
  }

  /** tokens.js:55-80: the basic string fragments, BasicString and BasicMultiLineString. */
  method LoadBasicStrings(frags: Fragments, cat: Catalog, newline: TokenType, whitespace: TokenType,
                          iQuotedKey: TokenType, iString: TokenType)
    requires cat.Valid() && NoLongerAlts(cat.tokens) && CreatedUpTo(cat, 8)
    requires newline.pattern == Regex(NewlineSource) && whitespace.pattern == Regex(WhitespaceSource)
    requires iQuotedKey == cat.tokens[5] && iString == cat.tokens[7]
    modifies frags, cat
    ensures cat.Valid() && NoLongerAlts(cat.tokens) && CreatedUpTo(cat, 10) && BasicStringsDeclared(cat.tokens)
    ensures old(cat.tokens) <= cat.tokens
    ensures frags.table == StringFragments(old(frags.table))
  {
    frags.Register(BasicUnescaped, Regex(BasicUnescapedSource));
    frags.Register(Escaped, Regex(EscapedSource));
    DefineAlternation(frags, BasicChar, BasicUnescaped, Escaped);
    var basicString := DefineBasicString(frags, cat, iQuotedKey, iString);
    frags.Register(MlBasicUnescaped, Regex(MlBasicUnescapedSource));
    DefineAlternation(frags, MlBasicChar, MlBasicUnescaped, Escaped);
    DefineMultiLineBody(frags, newline, whitespace);
    var basicMultiLineString := DefineMultiLineBasicString(frags, cat, iString);
  }

  /** tokens.js:81-107: the literal strings and the booleans. */
  method LoadLiteralStringsAndBooleans(cat: Catalog, iQuotedKey: TokenType, iString: TokenType, iUnquotedKey: TokenType)
    returns (trueToken: TokenType, falseToken: TokenType)
    requires cat.Valid() && NoLongerAlts(cat.tokens) && CreatedUpTo(cat, 10)
    requires iQuotedKey == cat.tokens[5] && iUnquotedKey == cat.tokens[6] && iString == cat.tokens[7]
    modifies cat
    ensures cat.Valid() && NoLongerAlts(cat.tokens) && CreatedUpTo(cat, 15) && LiteralStringsAndBooleansDeclared(cat.tokens)
    ensures old(cat.tokens) <= cat.tokens
    ensures fresh(trueToken) && fresh(falseToken) && cat.tokens[13] == trueToken && cat.tokens[14] == falseToken
  {
    var literalString, literalMultiLineString := DefineLiteralStrings(cat, iQuotedKey, iString);
    var boolean;
    boolean, trueToken, falseToken := DefineBooleans(cat, iUnquotedKey);
  }

  /** tokens.js:42-107: layout, punctuation, key and string categories, strings and booleans. */
  method LoadStringsAndBooleans(frags: Fragments, cat: Catalog)
    returns (iUnquotedKey: TokenType, trueToken: TokenType, falseToken: TokenType)
    requires cat.Valid() && NoLongerAlts(cat.tokens) && CreatedUpTo(cat, 0)
    modifies frags, cat
    ensures cat.Valid() && NoLongerAlts(cat.tokens) && CreatedUpTo(cat, 15)
    ensures LayoutAndKeysDeclared(cat.tokens[..8]) && BasicStringsDeclared(cat.tokens[..10])
    ensures LiteralStringsAndBooleansDeclared(cat.tokens)
    ensures frags.table == StringFragments(old(frags.table))
    ensures iUnquotedKey == cat.tokens[6]
    ensures fresh(trueToken) && fresh(falseToken) && cat.tokens[13] == trueToken && cat.tokens[14] == falseToken
  {
    var newline, whitespace, iQuotedKey, iString;
    newline, whitespace, iQuotedKey, iUnquotedKey, iString := LoadLayoutAndKeys(cat);
    ghost var ts8 := cat.tokens;
    LoadBasicStrings(frags, cat, newline, whitespace, iQuotedKey, iString);
    ghost var ts10 := cat.tokens;
    trueToken, falseToken := LoadLiteralStringsAndBooleans(cat, iQuotedKey, iString, iUnquotedKey);
    PrefixesKept(ts8, ts10, cat.tokens);
  }

  /** Appending token types leaves the earlier prefixes as they were. */
  lemma PrefixesKept(ts: seq<TokenType>, vs: seq<TokenType>, us: seq<TokenType>)
    requires |ts| == 8 && |vs| == 10 && ts <= vs <= us
    ensures us[..8] == ts && us[..10] == vs
  {
  }

  /** tokens.js:112-119: the date and time fields, each a plain regular expression. */
  method RegisterDateTimeParts(frags: Fragments)
    modifies frags
    ensures frags.table == old(frags.table)[DateFullyear := @"\d{4}"][DateMonth := TwoDigitsSource]
      [DateMday := TwoDigitsSource][TimeDelim := "[tT ]"][TimeHour := TwoDigitsSource]
      [TimeMinute := TwoDigitsSource][TimeSecond := TwoDigitsSource][TimeSecfrac := SecFracSource]
  {
    frags.Register(DateFullyear, Regex(@"\d{4}"));
    frags.Register(DateMonth, Regex(TwoDigitsSource));
    frags.Register(DateMday, Regex(TwoDigitsSource));
    frags.Register(TimeDelim, Regex("[tT ]"));
    frags.Register(TimeHour, Regex(TwoDigitsSource));
    frags.Register(TimeMinute, Regex(TwoDigitsSource));
    frags.Register(TimeSecond, Regex(TwoDigitsSource));
    frags.Register(TimeSecfrac, Regex(SecFracSource));
  }

  /** tokens.js:112-132: the date and time fragments. With `corrected` false the year of
      full_date is read from time_hour, as written. */
  method LoadDateTimeFragments(frags: Fragments, corrected: bool)
    modifies frags
    ensures frags.table == DateTimeFragments(old(frags.table), corrected)
  {
    RegisterDateTimeParts(frags);
    DefineOffsets(frags);
    DefinePartialTime(frags);
    var year := if corrected then DateFullyear else TimeHour;
    assert frags.table[year] == YearSource(corrected);
    DefineFullDate(frags, year);
    DefineJuxtaposition(frags, FullTime, PartialTime, TimeOffset);
  }

  /** tokens.js:108-111 and 133-152: the DateTime category and its four token types. */
  method LoadDateTimeTokens(frags: Fragments, cat: Catalog, ghost corrected: bool)
    requires cat.Valid() && NoLongerAlts(cat.tokens) && CreatedUpTo(cat, 15)
    requires FullDate in frags.table && frags.table[FullDate] == FullDateSource(YearSource(corrected))
    requires TimeDelim in frags.table && frags.table[TimeDelim] == "[tT ]"
    requires FullTime in frags.table && frags.table[FullTime] == FullTimeSource
    requires PartialTime in frags.table && frags.table[PartialTime] == PartialTimeSource
    modifies cat
    ensures cat.Valid() && NoLongerAlts(cat.tokens) && CreatedUpTo(cat, 20) && DateTimeDeclared(cat.tokens, corrected)
    ensures old(cat.tokens) <= cat.tokens
  {
    var dateTime := LoadDateTimeCombinations(frags, cat, corrected);
    LoadDateAndTime(frags, cat, dateTime, corrected);
  }

  /** tokens.js:108-111 and 133-142: DateTime, then OffsetDateTime and LocalDateTime in it. */
  method LoadDateTimeCombinations(frags: Fragments, cat: Catalog, ghost corrected: bool) returns (dateTime: TokenType)
    requires cat.Valid() && NoLongerAlts(cat.tokens) && CreatedUpTo(cat, 15)
    requires FullDate in frags.table && frags.table[FullDate] == FullDateSource(YearSource(corrected))
    requires TimeDelim in frags.table && frags.table[TimeDelim] == "[tT ]"
    requires FullTime in frags.table && frags.table[FullTime] == FullTimeSource
    requires PartialTime in frags.table && frags.table[PartialTime] == PartialTimeSource
    modifies cat
    ensures cat.Valid() && NoLongerAlts(cat.tokens) && CreatedUpTo(cat, 18)
    ensures old(cat.tokens) <= cat.tokens && dateTime == cat.tokens[15]
    ensures var fullDate := Wrap(FullDateSource(YearSource(corrected)));
      && Declared(cat.tokens[15], "DateTime", NotApplicable, [], None)
      && Declared(cat.tokens[16], "OffsetDateTime", Regex(fullDate + Wrap("[tT ]") + Wrap(FullTimeSource)), [dateTime], None)
      && Declared(cat.tokens[17], "LocalDateTime", Regex(fullDate + Wrap("[tT ]") + Wrap(PartialTimeSource)), [dateTime], None)
  {
    dateTime := DefineCategory(cat, "DateTime");
    var offsetDateTime := DefineOffsetDateTime(frags, cat, dateTime);
    var localDateTime := DefineLocalDateTime(frags, cat, dateTime);
  }

  /** tokens.js:143-152: LocalDate and LocalTime, each one date-time fragment, in DateTime. */
  method LoadDateAndTime(frags: Fragments, cat: Catalog, dateTime: TokenType, ghost corrected: bool)
    requires cat.Valid() && NoLongerAlts(cat.tokens) && CreatedUpTo(cat, 18) && dateTime == cat.tokens[15]
    requires FullDate in frags.table && frags.table[FullDate] == FullDateSource(YearSource(corrected))
    requires PartialTime in frags.table && frags.table[PartialTime] == PartialTimeSource
    modifies cat
    ensures cat.Valid() && NoLongerAlts(cat.tokens) && CreatedUpTo(cat, 20)
    ensures old(cat.tokens) <= cat.tokens
    ensures Declared(cat.tokens[18], "LocalDate", Regex(Wrap(FullDateSource(YearSource(corrected)))), [dateTime], None)
    ensures Declared(cat.tokens[19], "LocalTime", Regex(Wrap(PartialTimeSource)), [dateTime], None)
  {
    var localDate := DefineSingleFragmentToken(frags, cat, "LocalDate", FullDate, dateTime);
    var localTime := DefineSingleFragmentToken(frags, cat, "LocalTime", PartialTime, dateTime);
  }

  /**
   * tokens.js:108-152. DateTime is created before the fragments in the file and after them here;
   * the fragments do not touch the catalog, so the two orders load the same module.
   */
  method LoadDateTime(frags: Fragments, cat: Catalog, corrected: bool)
    requires cat.Valid() && NoLongerAlts(cat.tokens) && CreatedUpTo(cat, 15)
    modifies frags, cat
    ensures cat.Valid() && NoLongerAlts(cat.tokens) && CreatedUpTo(cat, 20) && DateTimeDeclared(cat.tokens, corrected)
    ensures old(cat.tokens) <= cat.tokens
    ensures frags.table == DateTimeFragments(old(frags.table), corrected)
  {
    LoadDateTimeFragments(frags, corrected);
    LoadDateTimeTokens(frags, cat, corrected);
  }

  /** tokens.js:153-177: the integer token types. */
  method LoadIntegers(cat: Catalog, iUnquotedKey: TokenType) returns (decimalInt: TokenType)
    requires cat.Valid() && NoLongerAlts(cat.tokens) && CreatedUpTo(cat, 20)
    requires iUnquotedKey == cat.tokens[6]
    modifies cat
    ensures cat.Valid() && NoLongerAlts(cat.tokens) && CreatedUpTo(cat, 25) && IntegersDeclared(cat.tokens)
    ensures old(cat.tokens) <= cat.tokens
    ensures fresh(decimalInt) && cat.tokens[21] == decimalInt
  {
    var iInteger := DefineCategory(cat, "IInteger");
    var hexInt;
    decimalInt, hexInt := DefineDecimalAndHexInts(cat, iInteger, iUnquotedKey);
    var octInt, binInt := DefineOctAndBinInts(cat, iInteger);
  }

  /**
   * tokens.js:182-185: float_int_part (DecimalInt's own pattern), decimal_point,
   * zero_prefixable_int and frac. As written nothing registers `exp`; with `corrected` the
   * exponent is registered too.
   */
  method LoadFloatFragments(frags: Fragments, decimalInt: TokenType, corrected: bool)
    requires decimalInt.pattern == Regex(DecimalIntSource)
    modifies frags
    ensures frags.table == FloatFragments(old(frags.table), corrected)
  {
    frags.Register(FloatIntPart, decimalInt.pattern);
    frags.Register(DecimalPoint, Regex(@"\."));
    frags.Register(ZeroPrefixableInt, Regex(ZeroPrefixableIntSource));
    DefineJuxtaposition(frags, Frac, DecimalPoint, ZeroPrefixableInt);
    if corrected {
      DefineExponent(frags);
    }
  }

  /**
   * tokens.js:178-195: IFloat, the float fragments, Float and SpecialFloat. As written, the
   * exponent fragment is never registered, so Float's makePattern throws and nothing after IFloat
   * is created; with `corrected` the exponent is registered first.
   */
  method LoadFloats(frags: Fragments, cat: Catalog, decimalInt: TokenType, corrected: bool)
    returns (r: Result<(), ComposeError>)
    requires cat.Valid() && NoLongerAlts(cat.tokens) && CreatedUpTo(cat, 25)
    requires decimalInt.pattern == Regex(DecimalIntSource) && Exp !in frags.table
    modifies frags, cat
    ensures cat.Valid() && NoLongerAlts(cat.tokens) && 26 <= |cat.tokens| && FloatCategoryDeclared(cat.tokens[..26])
    ensures old(cat.tokens) <= cat.tokens
    ensures frags.table == FloatFragments(old(frags.table), corrected)
    ensures r.Success? <==> corrected
    ensures !corrected ==> r == Failure(PatternOfUndefined(1)) && CreatedUpTo(cat, 26)
    ensures corrected ==> CreatedUpTo(cat, 28) && FloatsDeclared(cat.tokens)
  {
    var iFloat := DefineCategory(cat, "IFloat");
    ghost var f0 := frags.table;
    LoadFloatFragments(frags, decimalInt, corrected);
    FloatFragmentsLookup(f0, corrected);
    var floatToken := DefineFloat(frags, cat, iFloat);
    if floatToken.Failure? {
      return Failure(floatToken.error);
    }
    assert Declared(floatToken.value, "Float", Regex(FloatSource(DecimalIntSource, ExpSource, FracSource)), [iFloat], None);
    var specialFloat := DefineSpecialFloat(cat, iFloat);
    r := Success(());
  }

  /** tokens.js:196-221: the bracket, comma and brace token types and UnquotedKey. */
  method LoadPunctuation(cat: Catalog, iUnquotedKey: TokenType) returns (unquotedKey: TokenType)
    requires cat.Valid() && NoLongerAlts(cat.tokens) && CreatedUpTo(cat, 28)
    requires iUnquotedKey == cat.tokens[6]
    modifies cat
    ensures cat.Valid() && NoLongerAlts(cat.tokens) && CreatedUpTo(cat, 34) && PunctuationDeclared(cat.tokens)
    ensures old(cat.tokens) <= cat.tokens && cat.tokens[33] == unquotedKey
  {
    var lSquare, rSquare, comma := DefineArrayPunctuation(cat);
    var lCurly, rCurly := DefineInlineTablePunctuation(cat);
    unquotedKey := DefineUnquotedKey(cat, iUnquotedKey);
  }

  /**
   * tokens.js:222-225: True, False and DecimalInt get UnquotedKey as their LONGER_ALT, so that a
   * key such as `true_value` or `123abc` lexes as one UnquotedKey; no other token type gets one.
   */
  method LinkUnquotedKeyPrefixes(cat: Catalog, trueToken: TokenType, falseToken: TokenType, decimalInt: TokenType,
                                 unquotedKey: TokenType)
    requires CreatedUpTo(cat, 34) && NoLongerAlts(cat.tokens)
    requires cat.tokens[13] == trueToken && cat.tokens[14] == falseToken && cat.tokens[21] == decimalInt
    requires cat.tokens[33] == unquotedKey
    modifies trueToken, falseToken, decimalInt
    ensures LinkedAsDeclared(cat.tokens)
  {
    DeclarationOrderFacts();
    SetLongerAlt([trueToken, falseToken, decimalInt], unquotedKey);
  }

  /** The string and boolean regions, then the date-time region, then the integers make up the
      catalog up to IFloat as declared. */
  lemma LeadingRegionsDeclared(ts: seq<TokenType>, vs: seq<TokenType>, us: seq<TokenType>, corrected: bool)
    requires |ts| == 15 && LayoutAndKeysDeclared(ts[..8]) && BasicStringsDeclared(ts[..10])
    requires LiteralStringsAndBooleansDeclared(ts)
    requires |vs| == 20 && ts <= vs && DateTimeDeclared(vs, corrected)
    requires |us| == 25 && vs <= us && IntegersDeclared(us)
    ensures AsDeclared(us, corrected)
  {
    assert us[..8] == ts[..8] && us[..10] == ts[..10] && us[..15] == ts;
    assert us[..20] == vs && us[..25] == us;
  }

  /** tokens.js:42-177: every token type before IFloat, with the fragments they use. */
  method LoadThroughIntegers(frags: Fragments, cat: Catalog, corrected: bool)
    returns (iUnquotedKey: TokenType, trueToken: TokenType, falseToken: TokenType, decimalInt: TokenType)
    requires cat.Valid() && NoLongerAlts(cat.tokens) && CreatedUpTo(cat, 0)
    modifies frags, cat
    ensures cat.Valid() && NoLongerAlts(cat.tokens) && CreatedUpTo(cat, 25) && AsDeclared(cat.tokens, corrected)
    ensures frags.table == DateTimeFragments(StringFragments(old(frags.table)), corrected)
    ensures fresh(trueToken) && fresh(falseToken) && fresh(decimalInt)
    ensures cat.tokens[6] == iUnquotedKey
    ensures cat.tokens[13] == trueToken && cat.tokens[14] == falseToken && cat.tokens[21] == decimalInt
  {
    ghost var f0 := frags.table;
    iUnquotedKey, trueToken, falseToken := LoadStringsAndBooleans(frags, cat);
    ghost var ts15, f1 := cat.tokens, frags.table;
    assert f1 == StringFragments(f0);
    LoadDateTime(frags, cat, corrected);
    ghost var ts20, f2 := cat.tokens, frags.table;
    assert f2 == DateTimeFragments(f1, corrected);
    decimalInt := LoadIntegers(cat, iUnquotedKey);
    assert frags.table == f2;
    LeadingRegionsDeclared(ts15, ts20, cat.tokens, corrected);
  }

  /** tokens.js:196-225: the punctuation and UnquotedKey, then the LONGER_ALT links. */
  method LoadPunctuationAndLinks(cat: Catalog, iUnquotedKey: TokenType, trueToken: TokenType, falseToken: TokenType,
                                 decimalInt: TokenType)
    requires cat.Valid() && NoLongerAlts(cat.tokens) && CreatedUpTo(cat, 28)
    requires cat.tokens[6] == iUnquotedKey
    requires cat.tokens[13] == trueToken && cat.tokens[14] == falseToken && cat.tokens[21] == decimalInt
    modifies cat, trueToken, falseToken, decimalInt
    ensures cat.Valid() && CreatedUpTo(cat, 34) && PunctuationDeclared(cat.tokens)
    ensures old(cat.tokens) <= cat.tokens
    ensures LinkedAsDeclared(cat.tokens)
  {
    var unquotedKey := LoadPunctuation(cat, iUnquotedKey);
    LinkUnquotedKeyPrefixes(cat, trueToken, falseToken, decimalInt, unquotedKey);
  }

  /**
   * tokens.js:178-225: the floats, then, when Float's pattern can be made, the punctuation,
   * UnquotedKey and the LONGER_ALT links.
   */
  method LoadFromFloats(frags: Fragments, cat: Catalog, iUnquotedKey: TokenType,
                        trueToken: TokenType, falseToken: TokenType, decimalInt: TokenType, corrected: bool)
    returns (r: Result<(), ComposeError>)
    requires cat.Valid() && NoLongerAlts(cat.tokens) && CreatedUpTo(cat, 25)
    requires Exp !in frags.table && cat.tokens[6] == iUnquotedKey
    requires cat.tokens[13] == trueToken && cat.tokens[14] == falseToken && cat.tokens[21] == decimalInt
    requires decimalInt.pattern == Regex(DecimalIntSource)
    modifies frags, cat, trueToken, falseToken, decimalInt
    ensures cat.Valid() && 26 <= |cat.tokens| && FloatCategoryDeclared(cat.tokens[..26])
    ensures old(cat.tokens) <= cat.tokens
    ensures frags.table == FloatFragments(old(frags.table), corrected)
    ensures r.Success? <==> corrected
    ensures !corrected ==> r == Failure(PatternOfUndefined(1)) && CreatedUpTo(cat, 26) && NoLongerAlts(cat.tokens)
    ensures corrected ==> CreatedUpTo(cat, 34) && FloatsDeclared(cat.tokens[..28]) && PunctuationDeclared(cat.tokens)
    ensures corrected ==> LinkedAsDeclared(cat.tokens)
  {
    r := LoadFloats(frags, cat, decimalInt, corrected);
    if r.Failure? {
      return;
    }
    ghost var ts28 := cat.tokens;
    LoadPunctuationAndLinks(cat, iUnquotedKey, trueToken, falseToken, decimalInt);
    assert cat.tokens[..26] == ts28[..26] && cat.tokens[..28] == ts28;
  }

  /** Before the floats nothing registers `exp`; the whole table files full_date with the year
      fragment its declaration reads, and holds `exp` exactly when corrected. */
  lemma LoadedFragments(corrected: bool)
    ensures Exp !in DateTimeFragments(StringFragments(map[]), corrected)
    ensures var u := FloatFragments(DateTimeFragments(StringFragments(map[]), corrected), corrected);
      && FullDate in u && u[FullDate] == FullDateSource(YearSource(corrected))
      && (Exp in u <==> corrected)
  {
  }

  /** Created in declaration order, the token types are filed in tokensDictionary each under its
      own name, since no name is declared twice. */
  lemma DictionaryFilesDeclared(ts: seq<TokenType>)
    requires |ts| <= |DeclarationOrder| && forall i | 0 <= i < |ts| :: ts[i].name == DeclarationOrder[i]
    ensures forall i | 0 <= i < |ts| :: DeclarationOrder[i] in Index(ts) && Index(ts)[DeclarationOrder[i]] == ts[i]
  {
    DeclarationOrderDistinct();
    forall i | 0 <= i < |ts|
      ensures DeclarationOrder[i] in Index(ts) && Index(ts)[DeclarationOrder[i]] == ts[i]
    {
      IndexFilesToken(ts, i);
    }
  }

  /** The regions up to the integers, declared before the floats, and the regions from IFloat on
      make up the whole catalog as declared. */
  lemma AppendedRegionsDeclared(ts: seq<TokenType>, us: seq<TokenType>, corrected: bool)
    requires |ts| == 25 && AsDeclared(ts, corrected) && ts <= us
    requires 26 <= |us| && FloatCategoryDeclared(us[..26])
    requires |us| == 26 || (|us| == 34 && FloatsDeclared(us[..28]) && PunctuationDeclared(us))
    ensures AsDeclared(us, corrected)
  {
    assert us[..8] == ts[..8] && us[..10] == ts[..10] && us[..15] == ts[..15];
    assert us[..20] == ts[..20] && us[..25] == ts[..25];
    if |us| == 34 {
      assert us[..34] == us;
    }
  }

  /**
   * Loading the module: the file's top-level statements in order. As written (`corrected` false)
   * loading throws at Float, after the 26 token types before it; corrected, it creates all 34 in
   * declaration order and links the unquoted-key prefixes. Either way every created token type
   * has its declared pattern, categories and group, `tokensDictionary` files each under its own
   * name, and the fragment dictionary holds exactly the registered sources.
   */
  method LoadModule(corrected: bool) returns (r: Result<(), ComposeError>, frags: Fragments, cat: Catalog)
    ensures fresh(frags) && fresh(cat) && cat.Valid()
    ensures r.Success? <==> corrected
    ensures frags.table == FloatFragments(DateTimeFragments(StringFragments(map[]), corrected), corrected)
    ensures FullDate in frags.table && frags.table[FullDate] == FullDateSource(YearSource(corrected))
    ensures CreatedUpTo(cat, if corrected then 34 else 26) && AsDeclared(cat.tokens, corrected)
    ensures forall i | 0 <= i < |cat.tokens| ::
      DeclarationOrder[i] in cat.dictionary && cat.dictionary[DeclarationOrder[i]] == cat.tokens[i]
    ensures !corrected ==> r == Failure(PatternOfUndefined(1)) && Exp !in frags.table && NoLongerAlts(cat.tokens)
    ensures corrected ==> LinkedAsDeclared(cat.tokens)
  {
    frags := new Fragments();
    cat := new Catalog();
    var iUnquotedKey, trueToken, falseToken, decimalInt := LoadThroughIntegers(frags, cat, corrected);
    ghost var ts25 := cat.tokens;
    LoadedFragments(corrected);
    r := LoadFromFloats(frags, cat, iUnquotedKey, trueToken, falseToken, decimalInt, corrected);
    AppendedRegionsDeclared(ts25, cat.tokens, corrected);
    DictionaryFilesDeclared(cat.tokens);
  }
}
