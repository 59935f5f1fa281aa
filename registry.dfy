/**
 * The two module-level registries of packages/lexer/lib/tokens.js: the `fragments` dictionary
 * filled by FRAGMENT, and the token catalog, `tokensArray` and `tokensDictionary`, filled by
 * createToken. Token types are objects: the LONGER_ALT loop writes a field of tokens that are
 * already registered, and both registries see the change.
 */
module Registry {
  import opened Wrappers
  import opened Patterns

  /** The fragment names the file registers or reads; `exp` is read but never registered. */
  datatype FragmentName =
    | BasicUnescaped | Escaped | BasicChar | MlBasicUnescaped | MlBasicChar | MlBasicBody
    | DateFullyear | DateMonth | DateMday | TimeDelim | TimeHour | TimeMinute | TimeSecond | TimeSecfrac
    | TimeNumoffset | TimeOffset | PartialTime | FullDate | FullTime
    | FloatIntPart | DecimalPoint | ZeroPrefixableInt | Frac | FloatExpPart | Exp

  /** The `fragments` object: fragment name to regular-expression source. */
  class Fragments {
    var table: map<FragmentName, string>

    constructor ()
      ensures table == map[]
    {
      table := map[];
    }

    /** FRAGMENT(name, def) (tokens.js:9-11): stores `def` itself when it is a string and
        `def.source` otherwise; registering a name again replaces the earlier source. */
    method Register(name: FragmentName, def: Pattern)
      modifies this
      ensures table == old(table)[name := SourceOf(def)]
    {
      table := table[name := SourceOf(def)];
    }

    /** `f.name`: the registered source, or `undefined` for a name never registered. */
    function Get(name: FragmentName): (a: Arg)
      reads this
      ensures a.Undefined? <==> name !in table
      ensures name in table ==> a == Str(table[name])
    {
      if name in table then Str(table[name]) else Undefined
    }
  }

  /** A token type as chevrotain's createToken builds it from its options. */
  class TokenType {
    const name: string
    const pattern: Pattern
    const categories: seq<TokenType>
    const group: Option<string>
    var longerAlt: TokenType?

    constructor (name: string, pattern: Pattern, categories: seq<TokenType>, group: Option<string>)
      ensures this.name == name && this.pattern == pattern
      ensures this.categories == categories && this.group == group
      ensures longerAlt == null
    {
      this.name := name;
      this.pattern := pattern;
      this.categories := categories;
      this.group := group;
      longerAlt := null;
    }
  }

  /** `tokensArray` and `tokensDictionary`. */
  class Catalog {
    var tokens: seq<TokenType>
    var dictionary: map<string, TokenType>

    /** `tokensDictionary` is the array filed by name, later tokens replacing earlier ones. */
    ghost predicate Valid()
      reads this
    {
      dictionary == Index(tokens)
    }

    constructor ()
      ensures Valid() && tokens == [] && dictionary == map[]
    {
      tokens := [];
      dictionary := map[];
    }

    /**
     * createToken(options) (tokens.js:36-41): builds a new token type, pushes it onto the end of
     * the array and files it under its name, replacing an earlier token of the same name in the
     * dictionary; earlier array entries and other names are untouched.
     */
    method CreateToken(name: string, pattern: Pattern, categories: seq<TokenType>, group: Option<string>)
      returns (t: TokenType)
      requires Valid()
      modifies this
      ensures Valid() && fresh(t)
      ensures t.name == name && t.pattern == pattern && t.categories == categories && t.group == group
      ensures t.longerAlt == null
      ensures tokens == old(tokens) + [t]
      ensures dictionary == old(dictionary)[name := t]
    {
      t := new TokenType(name, pattern, categories, group);
      tokens := tokens + [t];
      dictionary := dictionary[name := t];
    }
  }

  /** The dictionary that filing `ts` in order by name produces. */
  function Index(ts: seq<TokenType>): map<string, TokenType>
  {
    if ts == [] then map[] else Index(ts[..|ts| - 1])[ts[|ts| - 1].name := ts[|ts| - 1]]
  }

  /** The dictionary's keys are exactly the registered names, and each name leads to a token of
      that name that was registered. */
  lemma {:induction false} IndexKeysAndValues(ts: seq<TokenType>)
    ensures forall i | 0 <= i < |ts| :: ts[i].name in Index(ts)
    ensures forall name | name in Index(ts) :: Index(ts)[name] in ts && Index(ts)[name].name == name
  {
    if ts != [] {
      var init := ts[..|ts| - 1];
      IndexKeysAndValues(init);
      assert forall i | 0 <= i < |ts| - 1 :: ts[i] == init[i];
    }
  }

  /** With names distinct, the dictionary files every registered token under its own name. */
  lemma {:induction false} IndexFilesToken(ts: seq<TokenType>, i: nat)
    requires i < |ts|
    requires forall j | 0 <= j < |ts| && j != i :: ts[j].name != ts[i].name
    ensures ts[i].name in Index(ts) && Index(ts)[ts[i].name] == ts[i]
  {
    IndexKeysAndValues(ts);
    var j :| 0 <= j < |ts| && ts[j] == Index(ts)[ts[i].name];
  }

  /**
   * `prefixes.forEach(tokType => { tokType.LONGER_ALT = alt; })` (tokens.js:222-225): every
   * listed token now names `alt` as its longer alternative; no other object changes.
   */
  method SetLongerAlt(prefixes: seq<TokenType>, alt: TokenType)
    modifies set t | t in prefixes
    ensures forall t | t in prefixes :: t.longerAlt == alt
  {
    for i := 0 to |prefixes|
      invariant forall j | 0 <= j < i :: prefixes[j].longerAlt == alt
    {
      prefixes[i].longerAlt := alt;
    }
  }
}
