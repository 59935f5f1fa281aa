# TOML lexer token definitions, in Dafny

This project models `packages/lexer/lib/tokens.js` of the TOML tools lexer. That file is the
lexical grammar that the chevrotain lexer is built from. It is a script of top-level statements:

- it registers named regular-expression fragments (`FRAGMENT`);
- it glues fragments into larger patterns with the `makePattern` template tag, which wraps every
  interpolated piece in a non-capturing group `(?:…)`;
- it creates the token types in order with `createToken`, which appends each one to
  `tokensArray` and files it in `tokensDictionary` under its name;
- it attaches abstract (`Lexer.NA`) category tokens to the concrete ones, and sets `LONGER_ALT`
  to `UnquotedKey` on `True`, `False` and `DecimalInt`.

The model has five modules:

- `Wrappers`: `Option` and `Result`.
- `Patterns`: a token pattern is a literal string or a regular-expression source. A template
  argument is `undefined`, a string, a regular expression or a token type. `Compose` is the
  specification of `makePattern` and `MakePattern` is its loop. The lemmas give the closed form:
  literal *i*, then `(?:` source *i* `)`. They also prove that the first undefined argument aborts
  the call.
- `Registry`: the mutable state of the file, as classes:
  - `Fragments` is the fragment dictionary, updated in place by `Register`.
  - `TokenType` is a created token type; its `longerAlt` field is written after creation.
  - `Catalog` holds `tokensArray` as a `seq` and `tokensDictionary` as a `map`, and keeps the
    invariant that the dictionary is the index of the array by name.
  - `SetLongerAlt` is the `forEach` loop that writes `LONGER_ALT`.
- `Lexemes`: hand-written recognizers for the simple token languages (`Whitespace`,
  `LiteralString`, `True`, `False`, the four integer forms, `SpecialFloat`, `UnquotedKey`,
  `Comment`, the `escaped` fragment), the two unescaped character classes and the `full_date`
  fragment. Each recognizer is proved to return the longest prefix in its language, which is what
  an anchored greedy JavaScript match of these patterns returns.
- `Tokens`: the script itself, one method per region of the file. A method that registers
  fragments states the whole fragment table after it, as a function of the table before. A method
  that creates token types states, for each one, its position in the declaration order, its name,
  pattern source, categories and group (one predicate per region, gathered in `AsDeclared`).
  `LoadModule` runs the whole file. With `corrected == false` it is the file as written: loading
  throws at `Float` (see Findings), after 26 token types. With `corrected == true` the two findings
  are repaired, all 34 token types are created, and `LONGER_ALT` is set on exactly `True`, `False`
  and `DecimalInt`. Either way `tokensDictionary` files every created token type under its own
  name.

Several patterns are modelled as written, not as TOML intends:

- `Newline` admits the empty match (`NewlineMatchesEmpty`).
- `time_secfrac` is the regular expression `"."\d+`: a double quote, any one character (the dot
  is not escaped), a double quote, then digits. A fraction such as `.5` does not match it
  (`SecFracSource`).
- `time_offset` accepts only a lowercase `z`, and `time_numoffset` has no colon (`DefineOffsets`).
- `HexInt` accepts only uppercase digits (`HexIntIsUpperCase`).
- `BasicMultiLineString` is built from `ML_BASIC_CHAR`, and the `ML_BASIC_BODY` fragment is
  registered but never used (`DefineMultiLineBasicString`, `DefineMultiLineBody`).

In the file, the `DateTime` category is created at tokens.js:108, before the date-time fragments
are registered (tokens.js:112-132). The model creates it right after those fragments. Registering
a fragment does not touch the catalog, so the array, the dictionary and every created token are
the same either way.

## Model

| member | source | states |
|---|---|---|
| Patterns.MakePattern | packages/lexer/lib/tokens.js:13-31 | the loop's result is `Regex` of the composed source when every argument it reaches is defined, else the TypeError of the first undefined argument; with one literal more than arguments, the source is literal *i* followed by `(?:`piece *i*`)`, in order |
| Patterns.ComposeFailsAtFirstUndefined | packages/lexer/lib/tokens.js:15-22 | composition succeeds exactly when every argument it reaches has a source; on failure, the reported index is an undefined argument and all earlier ones are defined |
| Patterns.FailurePersists | packages/lexer/lib/tokens.js:15-29 | once the loop has thrown on a prefix of the template, the whole call throws the same error |
| Patterns.PieceSources | packages/lexer/lib/tokens.js:18-24 | the i-th spliced text is the i-th argument's: a string itself, a regex's source, a token's PATTERN; a token whose PATTERN is the empty string fails the truthiness test at line 20, so the token object's missing `.source` is spliced as the text `undefined`; one entry per argument |
| Patterns.ComposeIsInterleave | packages/lexer/lib/tokens.js:13-31 | with all arguments defined, the combined text is the literals interleaved with the wrapped piece sources |
| Patterns.ComposePrefix | packages/lexer/lib/tokens.js:15-28 | after the first j iterations, `combined` is the interleaving of the first j literals with the first j wrapped pieces |
| Patterns.InterleaveLength | packages/lexer/lib/tokens.js:27 | the result's length is the literals' plus the pieces' plus four per piece: k arguments add exactly k `(?:`…`)` wrappers |
| Patterns.NoArgumentsYieldsLiteral | packages/lexer/lib/tokens.js:13-31 | a template with no interpolation yields its single literal part unchanged |
| Registry.Fragments.constructor | packages/lexer/lib/tokens.js:6-7 | the fragment dictionary starts empty |
| Registry.Fragments.Register | packages/lexer/lib/tokens.js:9-11 | stores a string unchanged or a regex's source under the name, overwriting an earlier entry, and changes no other name |
| Registry.Fragments.Get | packages/lexer/lib/tokens.js:7 | reading `f.name` gives `undefined` exactly when the name is unregistered, else the stored source |
| Registry.TokenType.constructor | packages/lexer/lib/tokens.js:37 | a new token type holds the given name, pattern, categories and group, and no LONGER_ALT |
| Registry.Catalog.constructor | packages/lexer/lib/tokens.js:33-34 | `tokensArray` and `tokensDictionary` start empty |
| Registry.Catalog.CreateToken | packages/lexer/lib/tokens.js:36-41 | appends exactly one fresh token type to the end of the array, maps its name to it, leaves earlier entries and other keys unchanged, and keeps the dictionary equal to the index of the array |
| Registry.IndexKeysAndValues | packages/lexer/lib/tokens.js:38-39 | every created name is a dictionary key, and each key maps to a created token type of that name |
| Registry.IndexFilesToken | packages/lexer/lib/tokens.js:38-39 | a token type whose name no other token type shares is the dictionary's entry for that name |
| Registry.SetLongerAlt | packages/lexer/lib/tokens.js:222-225 | every token type in the list gets the given LONGER_ALT |
| Lexemes.RunLength | packages/lexer/lib/tokens.js:43 | the greedy run is all of the class and stops at the end or at a character outside it |
| Lexemes.RunLengthIsLongest | packages/lexer/lib/tokens.js:43 | no run of the class is longer than the greedy one |
| Lexemes.GroupedIff | packages/lexer/lib/tokens.js:159 | a word of `(?:_?D)*` is exactly one in which every character is a digit or an `_` followed by a digit |
| Lexemes.GroupedLength | packages/lexer/lib/tokens.js:159 | the greedy `(?:_?D)*` consumes a prefix in that language |
| Lexemes.GroupedLengthIsLongest | packages/lexer/lib/tokens.js:159 | no longer prefix is in the language of `(?:_?D)*` |
| Lexemes.MatchDecimalInt | packages/lexer/lib/tokens.js:159 | a match is a prefix of the form sign?, then `0` or a non-zero digit followed by `(?:_?\d)*` |
| Lexemes.DecimalIntWithinMatch | packages/lexer/lib/tokens.js:159 | every prefix that is a DecimalInt is no longer than the greedy match, so a match exists whenever one is possible |
| Lexemes.MatchPrefixedInt | packages/lexer/lib/tokens.js:165-175 | a match is `0`, the marker, one digit, then `(?:_?D)*` |
| Lexemes.MatchLiteralString | packages/lexer/lib/tokens.js:85 | a match is `'`, characters other than `'`, CR and LF, then `'` |
| Lexemes.MatchEscaped | packages/lexer/lib/tokens.js:60 | a match is a backslash and one of `btnfr"\`, or `u` with four or eight hex digits |
| Lexemes.MatchWord | packages/lexer/lib/tokens.js:98-107 | a match is exactly the keyword |
| Lexemes.MatchRun | packages/lexer/lib/tokens.js:43 | a match is a non-empty run of the class (Whitespace here, UnquotedKey at line 219) |
| Lexemes.MatchSpecialFloat | packages/lexer/lib/tokens.js:193 | a match is one of `+inf`, `-inf`, `+nan`, `-nan` |
| Lexemes.LongestFromBound | packages/lexer/lib/tokens.js:42-219 | a recognizer whose match is in the language and bounds every prefix in it returns the longest match |
| Lexemes.DecimalIntMatchIsLongest | packages/lexer/lib/tokens.js:159 | DecimalInt's match is the longest prefix in its language, and there is none exactly when no prefix is in it |
| Lexemes.PrefixedIntMatchIsLongest | packages/lexer/lib/tokens.js:165-175 | the same for HexInt, OctInt and BinInt |
| Lexemes.LiteralStringMatchIsLongest | packages/lexer/lib/tokens.js:85 | the same for LiteralString |
| Lexemes.EscapedMatchIsLongest | packages/lexer/lib/tokens.js:60 | the same for the `escaped` fragment |
| Lexemes.RunMatchIsLongest | packages/lexer/lib/tokens.js:43 | the same for Whitespace, and for UnquotedKey (line 219) |
| Lexemes.WordMatchIsLongest | packages/lexer/lib/tokens.js:98-107 | the same for True and False |
| Lexemes.SpecialFloatMatchIsLongest | packages/lexer/lib/tokens.js:193 | the same for SpecialFloat |
| Lexemes.StickyMatchIsLongest | packages/lexer/lib/tokens.js:43-219 | for every modelled pattern except Newline, the anchored match is the longest prefix in the pattern's language, or none when no prefix is in it |
| Lexemes.NewlineMatchesEmpty | packages/lexer/lib/tokens.js:42 | Newline's language holds the empty string, `\n` and `\r\n`; its first alternative is empty, so it always matches zero characters, which is not the longest match before a `\n` |
| Lexemes.DecimalIntUnderscores | packages/lexer/lib/tokens.js:159 | every `_` in a DecimalInt sits between two digits: never leading, trailing or doubled |
| Lexemes.HexIntIsUpperCase | packages/lexer/lib/tokens.js:165 | no digit of a HexInt match is a lowercase `a`-`f` |
| Lexemes.UnquotedKeyCoversWord | packages/lexer/lib/tokens.js:222-225 | wherever True or False matches, UnquotedKey matches at least as far, so the LONGER_ALT has a candidate |
| Lexemes.UnquotedKeyCoversDecimalInt | packages/lexer/lib/tokens.js:222-225 | where DecimalInt matches, UnquotedKey matches exactly when the match does not start with `+`, and then at least as far |
| Lexemes.CommentEnd | packages/lexer/lib/tokens.js:46 | the greedy comment body contains no LF and no CR before LF, and stops at the end, at an LF, or at a CR before LF |
| Lexemes.MatchComment | packages/lexer/lib/tokens.js:46 | Comment matches exactly when the input starts with `#`, and the match has the comment shape |
| Lexemes.CommentShapeUnique | packages/lexer/lib/tokens.js:46 | at most one length has the comment shape, so the match is the only one |
| Lexemes.MatchFullDate | packages/lexer/lib/tokens.js:128-131 | full_date with an n-digit year matches the prefix of length n+6 when that prefix is a date, and otherwise no prefix is a date |
| Lexemes.FullDateAsWrittenRejectsFourDigitYears | packages/lexer/lib/tokens.js:130 | with the year taken from time_hour, no input that begins with a four-digit-year date is matched at all |
| Lexemes.FullDateCorrectedMatchesFourDigitYears | packages/lexer/lib/tokens.js:128-131 | with the year taken from date_fullyear, such an input matches its first ten characters |
| Lexemes.ExampleDateHasFourDigitYear | packages/lexer/lib/tokens.js:128-131 | `1979-05-27` is a four-digit-year date, and its eight-character prefix is not a two-digit-year date |
| Lexemes.BasicUnescapedExcludes | packages/lexer/lib/tokens.js:58 | basic_unescaped is every code unit from space to U+FFFF except `"`, backslash and DEL |
| Lexemes.MlBasicUnescapedAddsQuote | packages/lexer/lib/tokens.js:56-69 | ML_BASIC_UNESCAPED is basic_unescaped plus `"` |
| Tokens.DefineLayout | packages/lexer/lib/tokens.js:42-48 | creates Newline, Whitespace and Comment in that order, with their sources, and Comment in group `comments` |
| Tokens.DefinePunctuation | packages/lexer/lib/tokens.js:49-50 | creates KeyValSep and Dot with string patterns `=` and `.` |
| Tokens.DefineKeyAndStringCategories | packages/lexer/lib/tokens.js:51-53 | creates IQuotedKey, IUnquotedKey and IString with pattern `Lexer.NA` |
| Tokens.AlternationTemplate | packages/lexer/lib/tokens.js:61 | the template with an alternation bar between two pieces (here and at line 71) composes to the two wrapped pieces separated by that bar |
| Tokens.SignedPairTemplate | packages/lexer/lib/tokens.js:120 | `[+-]${a}${b}` composes to `[+-](?:a)(?:b)` |
| Tokens.PrefixTemplate | packages/lexer/lib/tokens.js:121 | a literal prefix and one piece compose to the prefix and the wrapped piece |
| Tokens.WrapTemplate | packages/lexer/lib/tokens.js:143-152 | a template that is one piece composes to that piece wrapped |
| Tokens.JuxtaposeTemplate | packages/lexer/lib/tokens.js:132 | two adjacent pieces (here and at line 185) compose to the two wrapped pieces |
| Tokens.JuxtaposeThreeTemplate | packages/lexer/lib/tokens.js:133-142 | three adjacent pieces compose to the three wrapped pieces |
| Tokens.FullDateTemplate | packages/lexer/lib/tokens.js:130 | `${y}-${m}-${d}` composes to the wrapped pieces joined by `-` |
| Tokens.PartialTimeTemplate | packages/lexer/lib/tokens.js:124-126 | `${h}:${m}:${s}${f}?` composes to the wrapped pieces with the colons and a trailing `?` |
| Tokens.DefineAlternation | packages/lexer/lib/tokens.js:61 | registers the alternation of the two wrapped fragments under the name (basic_char here, ML_BASIC_CHAR at line 71) and changes no other fragment |
| Tokens.DefineBasicString | packages/lexer/lib/tokens.js:62-66 | creates BasicString as `"(?:basic_char)*"`, in IString and IQuotedKey |
| Tokens.DefineMultiLineBody | packages/lexer/lib/tokens.js:72-75 | registers ML_BASIC_BODY from ML_BASIC_CHAR and the Newline and Whitespace tokens' sources |
| Tokens.DefineMultiLineBasicString | packages/lexer/lib/tokens.js:76-80 | creates BasicMultiLineString from ML_BASIC_CHAR, not ML_BASIC_BODY, in IString only |
| Tokens.DefineLiteralStrings | packages/lexer/lib/tokens.js:81-92 | creates LiteralString, in IString and IQuotedKey, and LiteralMultiLineString, in IString only |
| Tokens.DefineBooleans | packages/lexer/lib/tokens.js:93-107 | creates Boolean in IUnquotedKey, then True and False in Boolean |
| Tokens.DefineOffsets | packages/lexer/lib/tokens.js:120-121 | registers time_numoffset as `[+-]`, hour, minute with no colon, and time_offset as lowercase `z` or that |
| Tokens.DefinePartialTime | packages/lexer/lib/tokens.js:122-127 | registers partial_time as hour:minute:second with an optional secfrac |
| Tokens.DefineFullDate | packages/lexer/lib/tokens.js:128-131 | registers full_date as the given year fragment, month and day joined by `-` |
| Tokens.DefineNext | packages/lexer/lib/tokens.js:36-41 | creates the next token type of the declaration order with the given pattern and categories and no group, appended to the array and filed in the dictionary |
| Tokens.DefineCategory | packages/lexer/lib/tokens.js:153-156 | creates the next category of the declaration order with `Lexer.NA` and no categories (IInteger here; DateTime at line 108 and IFloat at line 178 likewise) |
| Tokens.DefineOffsetDateTime | packages/lexer/lib/tokens.js:133-137 | creates OffsetDateTime from full_date, time_delim and full_time, in DateTime |
| Tokens.DefineLocalDateTime | packages/lexer/lib/tokens.js:138-142 | creates LocalDateTime from full_date, time_delim and partial_time, in DateTime |
| Tokens.DefineSingleFragmentToken | packages/lexer/lib/tokens.js:143-152 | creates LocalDate or LocalTime as its one wrapped fragment, in DateTime |
| Tokens.DefineDecimalAndHexInts | packages/lexer/lib/tokens.js:157-167 | creates DecimalInt in IInteger and IUnquotedKey, and HexInt in IInteger only |
| Tokens.DefineOctAndBinInts | packages/lexer/lib/tokens.js:168-177 | creates OctInt and BinInt in IInteger only |
| Tokens.DefineJuxtaposition | packages/lexer/lib/tokens.js:132 | registers the two wrapped fragments side by side under the name (full_time here, frac at line 185) |
| Tokens.DefineExponent | packages/lexer/lib/tokens.js:184-188 | the missing `exp` fragment: registers float_exp_part as `[+-]?` zero_prefixable_int, and exp as `[eE]` followed by that |
| Tokens.FloatTemplateFailsAtExponent | packages/lexer/lib/tokens.js:188 | Float's template composes exactly when `exp` has a source; otherwise it fails at argument 1 |
| Tokens.FloatTemplateSource | packages/lexer/lib/tokens.js:188 | with all pieces defined, Float's template gives the wrapped int part, then a group choosing between the wrapped exp and the wrapped frac followed by the wrapped exp |
| Tokens.MakeFloatPattern | packages/lexer/lib/tokens.js:188 | makePattern on Float's template throws at argument 1 when `exp` is not registered, and otherwise yields the regex made of the wrapped float_int_part, exp and frac sources |
| Tokens.DefineFloat | packages/lexer/lib/tokens.js:186-190 | without `exp` nothing is created and the TypeError is returned; with it, Float is created in IFloat |
| Tokens.DefineSpecialFloat | packages/lexer/lib/tokens.js:191-195 | creates SpecialFloat in IFloat |
| Tokens.DefineArrayPunctuation | packages/lexer/lib/tokens.js:196-207 | creates LSquare, RSquare and Comma with string patterns |
| Tokens.DefineInlineTablePunctuation | packages/lexer/lib/tokens.js:208-215 | creates LCurly and RCurly with string patterns |
| Tokens.DefineUnquotedKey | packages/lexer/lib/tokens.js:217-221 | creates UnquotedKey in IUnquotedKey |
| Tokens.DeclarationOrderFacts | packages/lexer/lib/tokens.js:222 | of the 34 declared names, exactly those at positions 13, 14 and 21 are LONGER_ALT prefixes |
| Tokens.RegisterDateTimeParts | packages/lexer/lib/tokens.js:112-119 | registers the eight date and time part fragments with their sources, including the quoted-dot secfrac |
| Tokens.LoadLayoutAndKeys | packages/lexer/lib/tokens.js:42-53 | creates exactly the first eight token types of the declaration order: Newline, Whitespace and Comment with their sources (Comment alone in group `comments`), KeyValSep `=` and Dot `.` as strings, and the `Lexer.NA` categories IQuotedKey, IUnquotedKey and IString, none with categories |
| Tokens.LoadBasicStrings | packages/lexer/lib/tokens.js:55-80 | appends BasicString, `"(?:basic_char)*"` in IString and IQuotedKey, and BasicMultiLineString, built from ML_BASIC_CHAR, in IString, as positions 8 and 9; the fragment table gains exactly the six string fragments with their composed sources |
| Tokens.LoadLiteralStringsAndBooleans | packages/lexer/lib/tokens.js:81-107 | appends LiteralString (in IString and IQuotedKey), LiteralMultiLineString (IString), Boolean (`Lexer.NA`, in IUnquotedKey), True and False (in Boolean) with their patterns, as positions 10 to 14 |
| Tokens.LoadStringsAndBooleans | packages/lexer/lib/tokens.js:42-107 | the first fifteen token types, each region as declared, and a fragment table that gains exactly the string fragments |
| Tokens.LoadDateTimeFragments | packages/lexer/lib/tokens.js:112-132 | the fragment table gains exactly the thirteen date and time fragments with their composed sources; full_date's year is time_hour's `\d{2}` as written, or date_fullyear's `\d{4}` when corrected |
| Tokens.LoadDateTimeTokens | packages/lexer/lib/tokens.js:108-152 | appends the DateTime category and OffsetDateTime, LocalDateTime, LocalDate and LocalTime in it, as positions 15 to 19, each with the pattern composed from the full_date, time_delim, full_time and partial_time sources in the table |
| Tokens.LoadDateTimeCombinations | packages/lexer/lib/tokens.js:108-142 | appends the DateTime category, then OffsetDateTime and LocalDateTime in it, as positions 15 to 17, with patterns composed from the full_date, time_delim, full_time and partial_time sources |
| Tokens.LoadDateAndTime | packages/lexer/lib/tokens.js:143-152 | appends LocalDate and LocalTime in DateTime, as positions 18 and 19, each the wrapped full_date or partial_time source |
| Tokens.LoadDateTime | packages/lexer/lib/tokens.js:108-152 | the date-time region: positions 15 to 19 as declared, and the date and time fragments, with full_date's year as above |
| Tokens.LoadIntegers | packages/lexer/lib/tokens.js:153-177 | appends IInteger, DecimalInt (in IInteger and IUnquotedKey), and HexInt, OctInt and BinInt (in IInteger) with their patterns, as positions 20 to 24, and returns DecimalInt |
| Tokens.LoadFloatFragments | packages/lexer/lib/tokens.js:182-185 | given DecimalInt's pattern (the one at line 159), the table gains float_int_part with that source, decimal_point, zero_prefixable_int and frac, and nothing else; exp and float_exp_part only when corrected |
| Tokens.LoadFloats | packages/lexer/lib/tokens.js:178-195 | creates IFloat at position 25 and the float fragments; succeeds exactly when corrected; as written it stops with the TypeError at argument 1 after 26 token types; corrected, Float (from the float_int_part, exp and frac sources) and SpecialFloat follow, both in IFloat |
| Tokens.LoadPunctuation | packages/lexer/lib/tokens.js:196-221 | appends LSquare, RSquare, Comma, LCurly and RCurly with string patterns, and UnquotedKey in IUnquotedKey, as positions 28 to 33 |
| Tokens.LinkUnquotedKeyPrefixes | packages/lexer/lib/tokens.js:222-225 | after the loop, each token type's LONGER_ALT is UnquotedKey if it is True, False or DecimalInt, and unset otherwise |
| Tokens.LoadThroughIntegers | packages/lexer/lib/tokens.js:42-177 | the first 25 token types, every region as declared, and the fragment table after the string and date-time fragments, with no `exp` |
| Tokens.LoadFromFloats | packages/lexer/lib/tokens.js:178-225 | the float fragments, and IFloat at position 25; as written, the TypeError with 26 token types and no LONGER_ALT; corrected, 34 token types with the float and punctuation regions as declared, and LONGER_ALT UnquotedKey on exactly True, False and DecimalInt |
| Tokens.LoadPunctuationAndLinks | packages/lexer/lib/tokens.js:196-225 | the punctuation region as declared, then LONGER_ALT UnquotedKey on True, False and DecimalInt and on no other token type |
| Tokens.FloatFragmentsLookup | packages/lexer/lib/tokens.js:182-188 | after the float fragments, float_int_part holds DecimalInt's source and frac its composed source, and `exp` is there exactly when corrected or registered before |
| Tokens.LoadedFragments | packages/lexer/lib/tokens.js:55-188 | no fragment registered before the floats is `exp`; in the final table full_date has the year source as written or corrected, and `exp` is there exactly when corrected |
| Tokens.DeclarationOrderDistinct | packages/lexer/lib/tokens.js:42-221 | no two createToken calls in the file use the same name |
| Tokens.DictionaryFilesDeclared | packages/lexer/lib/tokens.js:36-41 | token types created in declaration order are each tokensDictionary's entry for their own name |
| Tokens.LoadModule | packages/lexer/lib/tokens.js:6-225 | succeeds exactly when corrected; the fragment table is exactly the registered sources, with full_date's year as written or corrected and `exp` only when corrected; the first 26 (as written) or all 34 (corrected) token types in declaration order, each with its declared pattern, categories and group; tokensDictionary maps each created name to its own token type; as written the TypeError at Float's argument 1 and no LONGER_ALT, corrected LONGER_ALT on exactly True, False and DecimalInt |

## Left out

- The chevrotain `Lexer` and `createToken` internals: the scan loop, maximal-munch choice, how LONGER_ALT and groups are applied, category expansion, token indices. That code is not part of this model; the LONGER_ALT and category facts are kept as data on the token types.
- JavaScript regular-expression semantics in general. The composed patterns (strings, date-times, floats) are modelled as their source text, checked only through `makePattern`'s composition shape. Only the simple token languages have recognizers.
- `new RegExp(combined).source` normalisation (escaping `/`, `(?:)` for the empty source). No composed source in this file is empty or contains `/`, so it does not change any pattern here.
- The SyntaxError that `new RegExp(combined)` (tokens.js:30) throws on an invalid source. Every source this file composes is a valid regular expression, so loading never reaches it.
- Characters are UTF-16 code units; surrogate pairs and code points above U+FFFF are not modelled.
- `require` of chevrotain and `module.exports`: the module's result is the `Catalog` that `LoadModule` returns.
- Tokens.LoadDateTime: creates the DateTime category after the date-time fragments instead of before them, which changes no catalog state.

## Findings

| source | as written | input that shows it | evidently intended | confidence | as-written member | corrected member |
|---|---|---|---|---|---|---|
| packages/lexer/lib/tokens.js:188 | Float's pattern interpolates `f.exp`, which is never registered, so `makePattern` reads `.PATTERN` of `undefined` and throws. Loading the module fails after IFloat is created. | loading the module | an `exp` fragment `[eE][+-]?` zero_prefixable_int is registered before Float | not executed | Tokens.MakeFloatPattern | Tokens.DefineExponent |
| packages/lexer/lib/tokens.js:128-131 | full_date takes its year from `time_hour` (`\d{2}`), so a date has a two-digit year | `1979-05-27` | the year comes from `date_fullyear` (`\d{4}`), registered at tokens.js:112 | not executed | Lexemes.FullDateAsWrittenRejectsFourDigitYears | Lexemes.FullDateCorrectedMatchesFourDigitYears |
