/**
 * The pattern-composition mini-language of packages/lexer/lib/tokens.js: patterns as chevrotain
 * stores them, the values a template may interpolate, and `makePattern`, which splices each
 * interpolated value between the literal parts of a tagged template, wrapped in a non-capturing
 * group `(?:...)`. Regular expressions are kept as their source text; compiling them is not modelled.
 */
module Patterns {
  import opened Wrappers

  /** A token's PATTERN: a plain string (matched literally by chevrotain) or a regular expression. */
  datatype Pattern = Literal(text: string) | Regex(source: string)

  /** chevrotain's Lexer.NA, the pattern of category tokens, is the regular expression /NOT_APPLICABLE/. */
  const NotApplicable: Pattern := Regex("NOT_APPLICABLE")

  /** `typeof def === "string" ? def : def.source`. */
  function SourceOf(p: Pattern): string {
    match p
    case Literal(t) => t
    case Regex(src) => src
  }

  /** A value interpolated into a template: `undefined` (an unregistered fragment), a string, a
      regular expression, or a token type carrying a PATTERN. */
  datatype Arg = Undefined | Str(s: string) | Re(source: string) | Token(pattern: Pattern)

  /** Reading `.PATTERN` of `undefined` throws a TypeError; `index` is the argument's position. */
  datatype ComposeError = PatternOfUndefined(index: nat)

  /**
   * The text makePattern splices in for one argument, or None when `args[i].PATTERN` throws.
   * A token contributes its PATTERN when that is truthy; an empty string PATTERN is falsy, so the
   * token object itself is used, whose `.source` is undefined and prints as "undefined".
   */
  function PieceSource(a: Arg): Option<string> {
    match a
    case Undefined => None
    case Str(s) => Some(s)
    case Re(src) => Some(src)
    case Token(p) => if p == Literal("") then Some("undefined") else Some(SourceOf(p))
  }

  /** The non-capturing group around an interpolated source. */
  function Wrap(source: string): string {
    "(?:" + source + ")"
  }

  /**
   * The combined source after the loop of makePattern has run over all of `strings`: literal i,
   * then (when there is an argument i) its wrapped source; the first argument that is undefined
   * aborts the whole composition.
   */
  function Compose(strings: seq<string>, args: seq<Arg>): Result<string, ComposeError>
    decreases |strings|
  {
    if strings == [] then Success("")
    else
      var i := |strings| - 1;
      match Compose(strings[..i], args)
      case Failure(e) => Failure(e)
      case Success(done) =>
        if i < |args| then
          match PieceSource(args[i])
          case None => Failure(PatternOfUndefined(i))
          case Some(src) => Success(done + strings[i] + Wrap(src))
        else
          Success(done + strings[i])
  }

  /**
   * makePattern (tokens.js:13-31). A tagged template always has one literal more than it has
   * arguments, but the loop is modelled for any lengths.
   */
  method MakePattern(strings: seq<string>, args: seq<Arg>) returns (r: Result<Pattern, ComposeError>)
    ensures Compose(strings, args).Success? ==> r == Success(Regex(Compose(strings, args).value))
    ensures Compose(strings, args).Failure? ==> r == Failure(Compose(strings, args).error)
    ensures r.Success? <==> AllDefined(args, |strings|)
    ensures |strings| == |args| + 1 ==> (r.Success? <==> AllDefined(args, |args|))
    ensures |strings| == |args| + 1 && AllDefined(args, |args|) ==> r == Success(Regex(Interleave(strings, PieceSources(args))))
  {
    ComposeFailsAtFirstUndefined(strings, args);
    if |strings| == |args| + 1 && AllDefined(args, |strings|) {
      ComposeIsInterleave(strings, args);
    }
    var combined := "";
    var i := 0;
    while i < |strings|
      invariant 0 <= i <= |strings|
      invariant Compose(strings[..i], args) == Success(combined)
    {
      assert strings[..i + 1][..i] == strings[..i];
      combined := combined + strings[i];
      if i < |args| {
        var source := PieceSource(args[i]);
        if source.None? {
          FailurePersists(strings, args, i + 1);
          return Failure(PatternOfUndefined(i));
        }
        combined := combined + Wrap(source.value);
      }
      i := i + 1;
    }
    assert strings[..i] == strings;
    return Success(Regex(combined));
  }

  /** Once a prefix of the template fails, the whole template fails with the same error. */
  lemma {:induction false} FailurePersists(strings: seq<string>, args: seq<Arg>, j: nat)
    requires j <= |strings|
    requires Compose(strings[..j], args).Failure?
    ensures Compose(strings, args) == Compose(strings[..j], args)
    decreases |strings| - j
  {
    if j < |strings| {
      var i := |strings| - 1;
      assert strings[..i][..j] == strings[..j];
      FailurePersists(strings[..i], args, j);
    } else {
      assert strings[..j] == strings;
    }
  }

  /** Every argument among the first `n` can be spliced in. */
  ghost predicate AllDefined(args: seq<Arg>, n: nat) {
    forall i | 0 <= i < n && i < |args| :: PieceSource(args[i]).Some?
  }

  /**
   * makePattern fails exactly when one of the arguments it reaches is undefined, and then it
   * reports the first such argument.
   */
  lemma {:induction false} ComposeFailsAtFirstUndefined(strings: seq<string>, args: seq<Arg>)
    ensures Compose(strings, args).Success? <==> AllDefined(args, |strings|)
    ensures Compose(strings, args).Failure? ==>
      var k := Compose(strings, args).error.index;
      k < |strings| && k < |args| && PieceSource(args[k]).None? && AllDefined(args, k)
    decreases |strings|
  {
    if strings != [] {
      var i := |strings| - 1;
      ComposeFailsAtFirstUndefined(strings[..i], args);
    }
  }

  /** The sources of arguments that are all defined. */
  function PieceSources(args: seq<Arg>): (sources: seq<string>)
    requires AllDefined(args, |args|)
    ensures |sources| == |args|
    ensures forall i | 0 <= i < |args| :: Some(sources[i]) == PieceSource(args[i])
  {
    if args == [] then [] else [PieceSource(args[0]).value] + PieceSources(args[1..])
  }

  /**
   * The closed form of a template: literal 0, piece 0 in a group, literal 1, piece 1 in a
   * group, ..., the last literal; literals beyond the pieces stand alone.
   */
  function Interleave(literals: seq<string>, pieces: seq<string>): string
    decreases |literals|
  {
    if literals == [] then ""
    else if pieces == [] then literals[0] + Interleave(literals[1..], [])
    else literals[0] + Wrap(pieces[0]) + Interleave(literals[1..], pieces[1..])
  }

  /**
   * With all arguments defined, makePattern returns the literals in order with the i-th
   * argument's source, wrapped as `(?:source)`, right after the i-th literal.
   */
  lemma ComposeIsInterleave(strings: seq<string>, args: seq<Arg>)
    requires |strings| == |args| + 1 && AllDefined(args, |args|)
    ensures Compose(strings, args) == Success(Interleave(strings, PieceSources(args)))
  {
    var n, pieces := |args|, PieceSources(args);
    ComposePrefix(strings, args, n);
    var lits := strings[..n];
    assert strings == lits + [strings[n]];
    ComposeSnoc(lits, strings[n], args);
    assert pieces[..n] == pieces;
    InterleaveSnocLiteral(lits, pieces, strings[n]);
  }

  /** The loop of makePattern after `j` literals, each followed by its argument, in closed form. */
  lemma {:induction false} ComposePrefix(strings: seq<string>, args: seq<Arg>, j: nat)
    requires AllDefined(args, |args|) && j <= |strings| && j <= |args|
    ensures Compose(strings[..j], args) == Success(Interleave(strings[..j], PieceSources(args)[..j]))
  {
    var pieces := PieceSources(args);
    if j == 0 {
      assert strings[..0] == [] && pieces[..0] == [];
    } else {
      var i := j - 1;
      ComposePrefix(strings, args, i);
      var lits := strings[..i];
      TakeOneMore(strings, i);
      var done := Interleave(lits, pieces[..i]);
      ComposeSnoc(lits, strings[i], args);
      assert Compose(strings[..j], args) == Success(done + strings[i] + Wrap(pieces[i]));
      TakeOneMore(pieces, i);
      InterleaveSnocBoth(lits, pieces[..i], strings[i], pieces[i]);
      assert Interleave(strings[..j], pieces[..j]) == done + strings[i] + Wrap(pieces[i]);
    }
  }

  /** A prefix one element longer. */
  lemma TakeOneMore(s: seq<string>, i: nat)
    requires i < |s|
    ensures s[..i + 1] == s[..i] + [s[i]]
  {
  }

  /** One more iteration of the loop of makePattern. */
  lemma ComposeSnoc(lits: seq<string>, s: string, args: seq<Arg>)
    requires Compose(lits, args).Success?
    requires |lits| < |args| ==> PieceSource(args[|lits|]).Some?
    ensures Compose(lits + [s], args) == Success(Compose(lits, args).value + s
      + if |lits| < |args| then Wrap(PieceSource(args[|lits|]).value) else "")
  {
    assert (lits + [s])[..|lits|] == lits;
    if |lits| >= |args| {
      assert Compose(lits, args).value + s + "" == Compose(lits, args).value + s;
    }
  }

  /** One more literal, then its piece. */
  lemma {:induction false} InterleaveSnocBoth(literals: seq<string>, pieces: seq<string>, s: string, p: string)
    requires |pieces| == |literals|
    ensures Interleave(literals + [s], pieces + [p]) == Interleave(literals, pieces) + s + Wrap(p)
    decreases |literals|
  {
    if literals == [] {
      assert Interleave([s], [p]) == s + Wrap(p) + Interleave([], []);
    } else {
      assert (literals + [s])[1..] == literals[1..] + [s];
      assert (pieces + [p])[1..] == pieces[1..] + [p];
      InterleaveSnocBoth(literals[1..], pieces[1..], s, p);
    }
  }

  /** One more literal with no piece after it. */
  lemma {:induction false} InterleaveSnocLiteral(literals: seq<string>, pieces: seq<string>, s: string)
    requires |pieces| == |literals|
    ensures Interleave(literals + [s], pieces) == Interleave(literals, pieces) + s
    decreases |literals|
  {
    if literals == [] {
      assert Interleave([s], []) == s + Interleave([], []);
    } else {
      assert (literals + [s])[1..] == literals[1..] + [s];
      InterleaveSnocLiteral(literals[1..], pieces[1..], s);
    }
  }

  /** Sum of the lengths of a sequence of strings. */
  function TotalLength(ss: seq<string>): nat {
    if ss == [] then 0 else |ss[0]| + TotalLength(ss[1..])
  }

  /**
   * The result is exactly the literals and the pieces plus four characters of wrapping, `(?:`
   * and `)`, per piece: k arguments add exactly k groups.
   */
  lemma {:induction false} InterleaveLength(literals: seq<string>, pieces: seq<string>)
    requires |pieces| <= |literals|
    ensures |Interleave(literals, pieces)| == TotalLength(literals) + TotalLength(pieces) + 4 * |pieces|
    decreases |literals|
  {
    if literals != [] {
      if pieces == [] {
        InterleaveLength(literals[1..], []);
      } else {
        InterleaveLength(literals[1..], pieces[1..]);
      }
    }
  }

  /** A template without interpolations yields its single literal unchanged. */
  lemma NoArgumentsYieldsLiteral(s: string)
    ensures Compose([s], []) == Success(s)
  {
    assert [s][..0] == [];
    assert "" + s == s;
  }

  /** Interleave of a single literal. */
  lemma InterleaveLast(a: string)
    ensures Interleave([a], []) == a
  {
    assert [a][1..] == [];
    assert a + "" == a;
  }

  /** The closed form of a template with one interpolation. */
  lemma InterleaveOne(a: string, b: string, p: string)
    ensures Interleave([a, b], [p]) == a + Wrap(p) + b
  {
    assert [a, b][1..] == [b];
    assert [p][1..] == [];
    InterleaveLast(b);
  }

  /** The closed form of a template with two interpolations. */
  lemma InterleaveTwo(a: string, b: string, c: string, p: string, q: string)
    ensures Interleave([a, b, c], [p, q]) == a + Wrap(p) + b + Wrap(q) + c
  {
    assert [a, b, c][1..] == [b, c];
    assert [p, q][1..] == [q];
    InterleaveOne(b, c, q);
    assert a + Wrap(p) + (b + Wrap(q) + c) == a + Wrap(p) + b + Wrap(q) + c;
  }

  /** The closed form of a template with three interpolations. */
  lemma InterleaveThree(a: string, b: string, c: string, d: string, p: string, q: string, r: string)
    ensures Interleave([a, b, c, d], [p, q, r]) == a + Wrap(p) + b + Wrap(q) + c + Wrap(r) + d
  {
    assert [a, b, c, d][1..] == [b, c, d];
    assert [p, q, r][1..] == [q, r];
    InterleaveTwo(b, c, d, q, r);
    assert a + Wrap(p) + (b + Wrap(q) + c + Wrap(r) + d) == a + Wrap(p) + b + Wrap(q) + c + Wrap(r) + d;
  }

  /** The closed form of a template with four interpolations. */
  lemma InterleaveFour(a: string, b: string, c: string, d: string, e: string, p: string, q: string, r: string, t: string)
    ensures Interleave([a, b, c, d, e], [p, q, r, t])
      == a + Wrap(p) + b + Wrap(q) + c + Wrap(r) + d + Wrap(t) + e
  {
    assert [a, b, c, d, e][1..] == [b, c, d, e];
    assert [p, q, r, t][1..] == [q, r, t];
    InterleaveThree(b, c, d, e, q, r, t);
    assert a + Wrap(p) + (b + Wrap(q) + c + Wrap(r) + d + Wrap(t) + e)
        == a + Wrap(p) + b + Wrap(q) + c + Wrap(r) + d + Wrap(t) + e;
  }

  /** A template `a${x}b`, with `x` defined. */
  lemma TemplateOne(a: string, b: string, x: Arg)
    requires PieceSource(x).Some?
    ensures AllDefined([x], 1)
    ensures Interleave([a, b], PieceSources([x])) == a + Wrap(PieceSource(x).value) + b
  {
    assert PieceSources([x]) == [PieceSource(x).value];
    InterleaveOne(a, b, PieceSource(x).value);
  }

  /** A template `a${x}b${y}c`, with `x` and `y` defined. */
  lemma TemplateTwo(a: string, b: string, c: string, x: Arg, y: Arg)
    requires PieceSource(x).Some? && PieceSource(y).Some?
    ensures AllDefined([x, y], 2)
    ensures Interleave([a, b, c], PieceSources([x, y]))
      == a + Wrap(PieceSource(x).value) + b + Wrap(PieceSource(y).value) + c
  {
    assert PieceSources([x, y]) == [PieceSource(x).value, PieceSource(y).value];
    InterleaveTwo(a, b, c, PieceSource(x).value, PieceSource(y).value);
  }

  /** A template `a${x}b${y}c${z}d`, with all three arguments defined. */
  lemma TemplateThree(a: string, b: string, c: string, d: string, x: Arg, y: Arg, z: Arg)
    requires PieceSource(x).Some? && PieceSource(y).Some? && PieceSource(z).Some?
    ensures AllDefined([x, y, z], 3)
    ensures Interleave([a, b, c, d], PieceSources([x, y, z]))
      == a + Wrap(PieceSource(x).value) + b + Wrap(PieceSource(y).value) + c + Wrap(PieceSource(z).value) + d
  {
    assert PieceSources([x, y, z]) == [PieceSource(x).value, PieceSource(y).value, PieceSource(z).value];
    InterleaveThree(a, b, c, d, PieceSource(x).value, PieceSource(y).value, PieceSource(z).value);
  }

  /** A template `a${x}b${y}c${z}d${w}e`, with all four arguments defined. */
  lemma TemplateFour(a: string, b: string, c: string, d: string, e: string, x: Arg, y: Arg, z: Arg, w: Arg)
    requires PieceSource(x).Some? && PieceSource(y).Some? && PieceSource(z).Some? && PieceSource(w).Some?
    ensures AllDefined([x, y, z, w], 4)
    ensures Interleave([a, b, c, d, e], PieceSources([x, y, z, w]))
      == a + Wrap(PieceSource(x).value) + b + Wrap(PieceSource(y).value) + c + Wrap(PieceSource(z).value) + d
         + Wrap(PieceSource(w).value) + e
  {
    assert PieceSources([x, y, z, w])
      == [PieceSource(x).value, PieceSource(y).value, PieceSource(z).value, PieceSource(w).value];
    InterleaveFour(a, b, c, d, e, PieceSource(x).value, PieceSource(y).value, PieceSource(z).value, PieceSource(w).value);
  }
}
