/** RouteMatcherImpl: per HTTP method, an ordered list of pattern bindings;
    a request is handed to the first binding of its method whose pattern
    matches its path. The Java regex engine is not modelled: it is the pair of
    functions in `RegexEngine`. */
module RouteMatcherImpl {
  import opened Wrappers
  import opened Text

  /** Vert.x's HttpMethod: exactly the nine methods that `all` registers. */
  datatype HttpMethod = GET | PUT | POST | DELETE | OPTIONS | HEAD | TRACE | CONNECT | PATCH

  /** The methods in the order `all` and `allWithRegEx` register them. */
  const AllMethods: seq<HttpMethod> := [GET, PUT, POST, DELETE, OPTIONS, HEAD, TRACE, CONNECT, PATCH]

  lemma AllMethodsListsEveryMethodOnce(m: HttpMethod)
    ensures m in AllMethods
    ensures forall i, j :: 0 <= i < j < |AllMethods| ==> AllMethods[i] != AllMethods[j]
  {
  }

  /** What `Matcher.matches()` yields on success: capture groups 1..n, and the
      value of each named group. */
  datatype MatchResult = MatchResult(groups: seq<string>, named: string -> string)

  /** `Pattern.compile(regex)` succeeds iff `compiles(regex)`;
      `matcher(regex, path)` is the result of `matches()` on the whole path. */
  datatype RegexEngine = RegexEngine(
    compiles: string -> bool,
    matcher: (string, string) -> Option<MatchResult>)

  /** PatternBinding; `paramNames` is None (Java null) for a regex binding. */
  datatype Binding<H> = Binding(regex: string, paramNames: Option<set<string>>, handler: H)

  /** The exceptions registration can throw. */
  datatype Error =
    | DuplicateIdentifier(name: string)  // IllegalArgumentException
    | PatternSyntax(regex: string)       // PatternSyntaxException

  /** How `accept` disposes of a request. */
  datatype Dispatch<H> =
    | Handled(index: nat, handler: H, params: map<string, string>)
    | NoMatchHandled(handler: H)
    | Default404   // status 404, response ended

  // ---------------------------------------------------------------------------
  // Simple patterns: `:name` tokens, found by `:([A-Za-z][A-Za-z0-9_]*)`.
  // ---------------------------------------------------------------------------

  predicate IsTokenStart(c: char) {
    'A' <= c <= 'Z' || 'a' <= c <= 'z'
  }

  predicate IsTokenPart(c: char) {
    IsTokenStart(c) || '0' <= c <= '9' || c == '_'
  }

  /** Length of the longest prefix of `s` made of token characters. */
  function TokenTail(s: string): (n: nat)
    ensures n <= |s|
    ensures forall k :: 0 <= k < n ==> IsTokenPart(s[k])
    ensures n < |s| ==> !IsTokenPart(s[n])
  {
    if s == [] || !IsTokenPart(s[0]) then 0 else 1 + TokenTail(s[1..])
  }

  /** A pattern read left to right: characters copied as they are, and tokens. */
  datatype Piece = Literal(c: char) | Token(name: string)

  /** The pieces `Matcher.find()` splits a simple pattern into: at each position
      a colon followed by a letter starts a token, which runs as far as token
      characters go; any other character is copied. */
  function Scan(s: string): seq<Piece>
    decreases |s|
  {
    if s == [] then []
    else if s[0] == ':' && |s| >= 2 && IsTokenStart(s[1]) then
      var n := 2 + TokenTail(s[2..]);
      [Token(s[1..n])] + Scan(s[n..])
    else
      [Literal(s[0])] + Scan(s[1..])
  }

  /** The pattern text the pieces came from. */
  function Unscan(ps: seq<Piece>): string {
    if ps == [] then []
    else match ps[0]
      case Literal(c) => [c] + Unscan(ps[1..])
      case Token(name) => ":" + name + Unscan(ps[1..])
  }

  /** The named group a token becomes. The replacement string passed to
      `appendReplacement` is `(?<$1>[^\/]+)`; the backslash there escapes the
      slash, so the text appended is `(?<name>[^/]+)`. */
  function NamedGroup(name: string): string {
    "(?<" + name + ">[^/]+)"
  }

  /** The regex `addPattern` builds: tokens replaced by named groups, all other
      characters kept. */
  function Render(ps: seq<Piece>): string {
    if ps == [] then []
    else match ps[0]
      case Literal(c) => [c] + Render(ps[1..])
      case Token(name) => NamedGroup(name) + Render(ps[1..])
  }

  function TokenNames(ps: seq<Piece>): seq<string> {
    if ps == [] then []
    else match ps[0]
      case Literal(_) => TokenNames(ps[1..])
      case Token(name) => [name] + TokenNames(ps[1..])
  }

  /** The first name of `names` already in `seen` or earlier in `names`. */
  function FirstRepeat(names: seq<string>, seen: set<string>): Option<string> {
    if names == [] then None
    else if names[0] in seen then Some(names[0])
    else FirstRepeat(names[1..], seen + {names[0]})
  }

  /** The result of the rewrite loop of `addPattern`. */
  datatype Rewrite = Rejected(name: string) | Rewritten(regex: string, names: set<string>)

  function RewritePattern(input: string): Rewrite {
    var ps := Scan(input);
    match FirstRepeat(TokenNames(ps), {})
    case Some(name) => Rejected(name)
    case None => Rewritten(Render(ps), NameSet(TokenNames(ps)))
  }

  function NameSet(names: seq<string>): set<string> {
    set n | n in names
  }

  /** How the loop of `addPattern` sees one token starting at `i`. */
  lemma ScanToken(input: string, i: nat, j: nat)
    requires i + 2 <= j <= |input|
    requires input[i] == ':' && IsTokenStart(input[i + 1])
    requires forall k :: i + 2 <= k < j ==> IsTokenPart(input[k])
    requires j < |input| ==> !IsTokenPart(input[j])
    ensures Scan(input[i..]) == [Token(input[i + 1..j])] + Scan(input[j..])
  {
    var s := input[i..];
    var u := s[2..];
    var t := TokenTail(u);
    assert forall k :: 0 <= k < |u| ==> u[k] == input[i + 2 + k];
    assert t == j - i - 2;
    assert s[1..2 + t] == input[i + 1..j] && s[2 + t..] == input[j..];
  }

  /** How the loop of `addPattern` sees a character that starts no token. */
  lemma ScanLiteral(input: string, i: nat)
    requires i < |input|
    requires !(input[i] == ':' && i + 1 < |input| && IsTokenStart(input[i + 1]))
    ensures Scan(input[i..]) == [Literal(input[i])] + Scan(input[i + 1..])
  {
    assert input[i..][1..] == input[i + 1..];
  }

  lemma PiecesCons(p: Piece, ps: seq<Piece>)
    ensures Render([p] + ps) == (match p case Literal(c) => [c] case Token(n) => NamedGroup(n)) + Render(ps)
    ensures TokenNames([p] + ps) == (match p case Literal(_) => [] case Token(n) => [n]) + TokenNames(ps)
  {
    assert ([p] + ps)[0] == p && ([p] + ps)[1..] == ps;
  }

  /** What the loop of `addPattern` knows after reading `input[..i]`: the
      buffer plus the rest rendered is the whole regex, and the names seen so
      far plus the rest's names are all of them. */
  ghost predicate RewriteInvariant(input: string, i: nat, sb: string, groups: set<string>)
    requires i <= |input|
  {
    && sb + Render(Scan(input[i..])) == Render(Scan(input))
    && FirstRepeat(TokenNames(Scan(input)), {}) == FirstRepeat(TokenNames(Scan(input[i..])), groups)
    && NameSet(TokenNames(Scan(input))) == groups + NameSet(TokenNames(Scan(input[i..])))
  }

  /** The pieces and names of the rest of the pattern when it starts with a token. */
  lemma TokenAhead(input: string, i: nat, j: nat)
    requires i + 2 <= j <= |input|
    requires input[i] == ':' && IsTokenStart(input[i + 1])
    requires forall k :: i + 2 <= k < j ==> IsTokenPart(input[k])
    requires j < |input| ==> !IsTokenPart(input[j])
    ensures Render(Scan(input[i..])) == NamedGroup(input[i + 1..j]) + Render(Scan(input[j..]))
    ensures TokenNames(Scan(input[i..])) == [input[i + 1..j]] + TokenNames(Scan(input[j..]))
  {
    ScanToken(input, i, j);
    PiecesCons(Token(input[i + 1..j]), Scan(input[j..]));
  }

  /** One name ahead of the rest: a repeat, or recorded as seen. */
  lemma NameAhead(group: string, rest: seq<string>, groups: set<string>)
    ensures FirstRepeat([group] + rest, groups) ==
      if group in groups then Some(group) else FirstRepeat(rest, groups + {group})
    ensures NameSet([group] + rest) == {group} + NameSet(rest)
  {
    var names := [group] + rest;
    assert names[0] == group && names[1..] == rest;
  }

  lemma TokenRejected(input: string, i: nat, j: nat, sb: string, groups: set<string>)
    requires i + 2 <= j <= |input|
    requires input[i] == ':' && IsTokenStart(input[i + 1])
    requires forall k :: i + 2 <= k < j ==> IsTokenPart(input[k])
    requires j < |input| ==> !IsTokenPart(input[j])
    requires RewriteInvariant(input, i, sb, groups)
    requires input[i + 1..j] in groups
    ensures RewritePattern(input) == Rejected(input[i + 1..j])
  {
    var group := input[i + 1..j];
    TokenAhead(input, i, j);
    NameAhead(group, TokenNames(Scan(input[j..])), groups);
    assert FirstRepeat(TokenNames(Scan(input)), {}) == Some(group);
  }

  lemma TokenAccepted(input: string, i: nat, j: nat, sb: string, groups: set<string>)
    requires i + 2 <= j <= |input|
    requires input[i] == ':' && IsTokenStart(input[i + 1])
    requires forall k :: i + 2 <= k < j ==> IsTokenPart(input[k])
    requires j < |input| ==> !IsTokenPart(input[j])
    requires RewriteInvariant(input, i, sb, groups)
    requires input[i + 1..j] !in groups
    ensures RewriteInvariant(input, j, sb + NamedGroup(input[i + 1..j]), groups + {input[i + 1..j]})
  {
    var group := input[i + 1..j];
    var tail := Scan(input[j..]);
    var rest := TokenNames(tail);
    TokenAhead(input, i, j);
    NameAhead(group, rest, groups);
    var all := Scan(input);
    assert sb + (NamedGroup(group) + Render(tail)) == Render(all);
    assert (sb + NamedGroup(group)) + Render(tail) == Render(all);
    assert FirstRepeat(TokenNames(all), {}) == FirstRepeat(rest, groups + {group});
    assert NameSet(TokenNames(all)) == groups + ({group} + NameSet(rest));
    assert NameSet(TokenNames(all)) == (groups + {group}) + NameSet(rest);
  }

  /** One token of the loop of `addPattern`: a name seen before rejects the
      pattern; a new one is replaced by its group and recorded. */
  lemma TokenStep(input: string, i: nat, j: nat, sb: string, groups: set<string>)
    requires i + 2 <= j <= |input|
    requires input[i] == ':' && IsTokenStart(input[i + 1])
    requires forall k :: i + 2 <= k < j ==> IsTokenPart(input[k])
    requires j < |input| ==> !IsTokenPart(input[j])
    requires RewriteInvariant(input, i, sb, groups)
    ensures input[i + 1..j] in groups ==> RewritePattern(input) == Rejected(input[i + 1..j])
    ensures input[i + 1..j] !in groups ==>
      RewriteInvariant(input, j, sb + NamedGroup(input[i + 1..j]), groups + {input[i + 1..j]})
  {
    if input[i + 1..j] in groups {
      TokenRejected(input, i, j, sb, groups);
    } else {
      TokenAccepted(input, i, j, sb, groups);
    }
  }

  lemma LiteralStep(input: string, i: nat, sb: string, groups: set<string>)
    requires i < |input|
    requires !(input[i] == ':' && i + 1 < |input| && IsTokenStart(input[i + 1]))
    requires RewriteInvariant(input, i, sb, groups)
    ensures RewriteInvariant(input, i + 1, sb + [input[i]], groups)
  {
    ScanLiteral(input, i);
    PiecesCons(Literal(input[i]), Scan(input[i + 1..]));
  }

  lemma RewriteDone(input: string, sb: string, groups: set<string>)
    requires RewriteInvariant(input, |input|, sb, groups)
    ensures RewritePattern(input) == Rewritten(sb, groups)
  {
    assert input[|input|..] == [];
  }

  /** Every token name is an identifier of the token regex. */
  lemma {:induction false} TokenNamesAreIdentifiers(s: string)
    ensures forall n :: n in TokenNames(Scan(s)) ==>
      |n| >= 1 && IsTokenStart(n[0]) && forall k :: 0 <= k < |n| ==> IsTokenPart(n[k])
    decreases |s|
  {
    if s == [] {
    } else if s[0] == ':' && |s| >= 2 && IsTokenStart(s[1]) {
      var n := 2 + TokenTail(s[2..]);
      TokenNamesAreIdentifiers(s[n..]);
      assert Scan(s) == [Token(s[1..n])] + Scan(s[n..]);
      assert TokenNames(Scan(s)) == [s[1..n]] + TokenNames(Scan(s[n..]));
      forall k | 0 <= k < n - 1 ensures IsTokenPart(s[1..n][k]) {
        if k > 0 { assert s[1..n][k] == s[2..][k - 1]; }
      }
    } else {
      TokenNamesAreIdentifiers(s[1..]);
      assert Scan(s) == [Literal(s[0])] + Scan(s[1..]);
    }
  }

  lemma UnscanCons(p: Piece, ps: seq<Piece>)
    ensures Unscan([p] + ps) == (match p case Literal(c) => [c] case Token(n) => ":" + n) + Unscan(ps)
  {
    assert ([p] + ps)[0] == p && ([p] + ps)[1..] == ps;
  }

  lemma SplitAt(s: string, n: nat)
    requires 1 <= n <= |s|
    ensures s == [s[0]] + s[1..n] + s[n..]
  {
    assert s == s[..1] + s[1..n] + s[n..];
  }

  lemma UnscanTokenStep(s: string, n: nat)
    requires |s| >= 2 && s[0] == ':' && IsTokenStart(s[1]) && n == 2 + TokenTail(s[2..])
    requires Unscan(Scan(s[n..])) == s[n..]
    ensures Unscan(Scan(s)) == s
  {
    var tok, rest := s[1..n], s[n..];
    assert Scan(s) == [Token(tok)] + Scan(rest);
    UnscanCons(Token(tok), Scan(rest));
    SplitAt(s, n);
  }

  lemma UnscanLiteralStep(s: string)
    requires s != [] && !(s[0] == ':' && |s| >= 2 && IsTokenStart(s[1]))
    requires Unscan(Scan(s[1..])) == s[1..]
    ensures Unscan(Scan(s)) == s
  {
    assert Scan(s) == [Literal(s[0])] + Scan(s[1..]);
    UnscanCons(Literal(s[0]), Scan(s[1..]));
    assert s == [s[0]] + s[1..];
  }

  /** Scanning loses nothing: the pieces spell the pattern back. */
  lemma {:induction false} UnscanScan(s: string)
    ensures Unscan(Scan(s)) == s
    decreases |s|
  {
    if s == [] {
    } else if s[0] == ':' && |s| >= 2 && IsTokenStart(s[1]) {
      var n := 2 + TokenTail(s[2..]);
      UnscanScan(s[n..]);
      UnscanTokenStep(s, n);
    } else {
      UnscanScan(s[1..]);
      UnscanLiteralStep(s);
    }
  }

  /** A pattern without a colon has no tokens and is used as the regex as it is. */
  lemma {:induction false} NoColonRendersVerbatim(s: string)
    requires ':' !in s
    ensures TokenNames(Scan(s)) == [] && Render(Scan(s)) == s
    decreases |s|
  {
    if s != [] {
      assert ':' !in s[1..];
      NoColonRendersVerbatim(s[1..]);
      assert Scan(s) == [Literal(s[0])] + Scan(s[1..]);
      PiecesCons(Literal(s[0]), Scan(s[1..]));
      assert s == [s[0]] + s[1..];
    }
  }

  /** FirstRepeat finds a repeat exactly when the names are not all distinct
      from each other and from `seen`. */
  lemma {:induction false} FirstRepeatIffRepeat(names: seq<string>, seen: set<string>)
    ensures FirstRepeat(names, seen).None? <==>
      (forall i :: 0 <= i < |names| ==> names[i] !in seen) &&
      (forall i, j :: 0 <= i < j < |names| ==> names[i] != names[j])
    ensures FirstRepeat(names, seen).Some? ==>
      exists j :: 0 <= j < |names| && names[j] == FirstRepeat(names, seen).value &&
        (names[j] in seen || names[j] in names[..j])
  {
    if names != [] {
      FirstRepeatIffRepeat(names[1..], seen + {names[0]});
      if FirstRepeat(names, seen).Some? && names[0] !in seen {
        var v := FirstRepeat(names, seen).value;
        var j' :| 0 <= j' < |names[1..]| && names[1..][j'] == v &&
          (names[1..][j'] in seen + {names[0]} || names[1..][j'] in names[1..][..j']);
        assert names[j' + 1] == v;
        if v !in seen {
          if v == names[0] {
            assert names[0] in names[..j' + 1];
          } else {
            var k :| 0 <= k < j' && names[1..][k] == v;
            assert names[k + 1] == v && names[k + 1] in names[..j' + 1];
          }
        }
      }
      if FirstRepeat(names, seen).None? {
        assert names[0] !in seen;
        forall i, j | 0 <= i < j < |names| ensures names[i] != names[j] {
          if i == 0 {
            assert names[1..][j - 1] !in seen + {names[0]};
          } else {
            assert names[1..][i - 1] != names[1..][j - 1];
          }
        }
        forall i | 0 <= i < |names| ensures names[i] !in seen {
          if i > 0 { assert names[1..][i - 1] !in seen + {names[0]}; }
        }
      }
      if FirstRepeat(names, seen).Some? && names[0] !in seen {
        var v := FirstRepeat(names, seen).value;
        assert !((forall i :: 0 <= i < |names| ==> names[i] !in seen) &&
          (forall i, j :: 0 <= i < j < |names| ==> names[i] != names[j])) by {
          var j :| 0 <= j < |names| && names[j] == v && (names[j] in seen || names[j] in names[..j]);
          if names[j] !in seen {
            var k :| 0 <= k < j && names[k] == v;
          }
        }
      }
    }
  }

  /** A simple pattern is rejected exactly when some token name occurs twice,
      and the name reported is one that does; otherwise the binding's
      parameter names are the token names. */
  lemma DuplicateTokenRejected(input: string)
    ensures var names := TokenNames(Scan(input));
      && (RewritePattern(input).Rejected? <==>
          exists i, j :: 0 <= i < j < |names| && names[i] == names[j])
      && (RewritePattern(input).Rejected? ==>
          exists j :: 0 <= j < |names| && names[j] == RewritePattern(input).name && names[j] in names[..j])
      && (RewritePattern(input).Rewritten? ==>
          RewritePattern(input).regex == Render(Scan(input)) &&
          forall n :: n in RewritePattern(input).names <==> n in names)
  {
    FirstRepeatIffRepeat(TokenNames(Scan(input)), {});
  }

  // ---------------------------------------------------------------------------
  // Parameters handed to the handler.
  // ---------------------------------------------------------------------------

  /** `"param" + i` */
  function ParamName(i: nat): string {
    "param" + DecimalString(i)
  }

  lemma ParamNamesDistinct()
    ensures forall i: nat, j: nat :: ParamName(i) == ParamName(j) ==> i == j
  {
    forall i: nat, j: nat | ParamName(i) == ParamName(j) ensures i == j {
      assert DecimalString(i) == ParamName(i)[5..];
      assert DecimalString(j) == ParamName(j)[5..];
      DecimalInjective(i, j);
    }
  }

  /** The parameters `route` adds to the request: each declared name bound to
      its named group, or, for a regex binding, `param<i>` bound to group i+1. */
  function RouteParams<H>(b: Binding<H>, m: MatchResult): (params: map<string, string>)
    ensures b.paramNames.Some? ==> params.Keys == b.paramNames.value
    ensures b.paramNames.None? ==>
      (forall i :: 0 <= i < |m.groups| ==> ParamName(i) in params && params[ParamName(i)] == m.groups[i]) &&
      (forall k :: k in params ==> exists i :: 0 <= i < |m.groups| && k == ParamName(i))
  {
    match b.paramNames
    case Some(names) => map n | n in names :: m.named(n)
    case None =>
      ParamNamesDistinct();
      map i | 0 <= i < |m.groups| :: ParamName(i) := m.groups[i]
  }

  predicate Matches<H>(engine: RegexEngine, b: Binding<H>, path: string) {
    engine.matcher(b.regex, path).Some?
  }

  /** The index of the first binding whose pattern matches the path. */
  function FirstMatch<H>(engine: RegexEngine, bs: seq<Binding<H>>, path: string): (r: Option<nat>)
    ensures r.Some? ==>
      && r.value < |bs| && Matches(engine, bs[r.value], path)
      && forall k :: 0 <= k < r.value ==> !Matches(engine, bs[k], path)
    ensures r.None? ==> forall k :: 0 <= k < |bs| ==> !Matches(engine, bs[k], path)
  {
    if bs == [] then None
    else if Matches(engine, bs[0], path) then Some(0)
    else match FirstMatch(engine, bs[1..], path)
      case Some(k) => Some(k + 1)
      case None => None
  }

  /** Bindings registered later never shadow earlier ones: in a list extended
      at the end, the first match is the old list's first match if it has one. */
  lemma {:induction false} FirstMatchAppend<H>(engine: RegexEngine, bs: seq<Binding<H>>, cs: seq<Binding<H>>, path: string)
    ensures FirstMatch(engine, bs + cs, path) ==
      match FirstMatch(engine, bs, path)
      case Some(k) => Some(k)
      case None =>
        match FirstMatch(engine, cs, path)
        case Some(k) => Some(|bs| + k)
        case None => None
  {
    if bs != [] {
      assert (bs + cs)[0] == bs[0];
      assert (bs + cs)[1..] == bs[1..] + cs;
      FirstMatchAppend(engine, bs[1..], cs, path);
    } else {
      assert bs + cs == cs;
    }
  }

  // ---------------------------------------------------------------------------
  // The matcher.
  // ---------------------------------------------------------------------------

  /** A bindings map read at one method; a missing list reads as empty. */
  function LookupIn<H>(bm: map<HttpMethod, seq<Binding<H>>>, m: HttpMethod): seq<Binding<H>> {
    if m in bm then bm[m] else []
  }

  /** The list of `m` in `n` is its list in `o`, with `b` appended when
      `carried`; a method that carries `b` has a list. */
  ghost predicate ExtendedAt<H>(n: map<HttpMethod, seq<Binding<H>>>, o: map<HttpMethod, seq<Binding<H>>>,
                                m: HttpMethod, carried: bool, b: Binding<H>)
  {
    (carried ==> m in n) && LookupIn(n, m) == LookupIn(o, m) + (if carried then [b] else [])
  }

  /** `n` is `o` with `b` appended to the list of every method in `ms`. */
  ghost predicate Extended<H>(n: map<HttpMethod, seq<Binding<H>>>, o: map<HttpMethod, seq<Binding<H>>>,
                              ms: seq<HttpMethod>, b: Binding<H>)
  {
    forall m :: ExtendedAt(n, o, m, m in ms, b)
  }

  /** Appending `b` to one more method's list extends `ms` by that method. */
  lemma ExtendStep<H>(o: map<HttpMethod, seq<Binding<H>>>, cur: map<HttpMethod, seq<Binding<H>>>,
                      ms: seq<HttpMethod>, m0: HttpMethod, b: Binding<H>)
    requires Extended(cur, o, ms, b) && m0 !in ms
    ensures Extended(cur[m0 := LookupIn(cur, m0) + [b]], o, ms + [m0], b)
  {
    var n := cur[m0 := LookupIn(cur, m0) + [b]];
    forall m ensures ExtendedAt(n, o, m, m in ms + [m0], b) {
      assert ExtendedAt(cur, o, m, m in ms, b);
      assert m in ms + [m0] <==> m in ms || m == m0;
    }
  }

  /** The first `i + 1` methods of `AllMethods` are the first `i` and one
      that is not among them. */
  lemma AllMethodsNext(i: nat)
    requires i < |AllMethods|
    ensures AllMethods[..i + 1] == AllMethods[..i] + [AllMethods[i]]
    ensures AllMethods[i] !in AllMethods[..i]
  {
    AllMethodsListsEveryMethodOnce(GET);
  }

  lemma EveryMethod(m: HttpMethod)
    ensures m in AllMethods
  {
  }

  class RouteMatcher<H> {
    var bindingsMap: map<HttpMethod, seq<Binding<H>>>
    var noMatchHandler: Option<H>
    const engine: RegexEngine

    constructor (engine: RegexEngine)
      ensures bindingsMap == map[] && noMatchHandler == None && this.engine == engine
    {
      bindingsMap, noMatchHandler := map[], None;
      this.engine := engine;
    }

    /** The bindings of a method; a missing list reads as empty. */
    function Lookup(m: HttpMethod): seq<Binding<H>>
      reads this
    {
      LookupIn(bindingsMap, m)
    }

    /** What `notFound` does. */
    function NotFound(): Dispatch<H>
      reads this
    {
      match noMatchHandler
      case Some(h) => NoMatchHandled(h)
      case None => Default404
    }

    /** The binding `addPattern` would add, or the exception it would throw. */
    function PatternBinding(input: string, handler: H): Result<Binding<H>, Error> {
      match RewritePattern(input)
      case Rejected(name) => Failure(DuplicateIdentifier(name))
      case Rewritten(regex, names) =>
        if engine.compiles(regex) then Success(Binding(regex, Some(names), handler))
        else Failure(PatternSyntax(regex))
    }

    /** The binding `addRegEx` would add, or the exception it would throw. */
    function RegExBinding(input: string, handler: H): Result<Binding<H>, Error> {
      if engine.compiles(input) then Success(Binding(input, None, handler))
      else Failure(PatternSyntax(input))
    }

    method Accept(method_: HttpMethod, path: string) returns (d: Dispatch<H>)
      ensures method_ !in bindingsMap ==> d == NotFound()
      ensures method_ in bindingsMap ==>
        match FirstMatch(engine, bindingsMap[method_], path)
        case Some(k) =>
          var b := bindingsMap[method_][k];
          d == Handled(k, b.handler, RouteParams(b, engine.matcher(b.regex, path).value))
        case None => d == NotFound()
    {
      if method_ in bindingsMap {
        d := Route(path, bindingsMap[method_]);
      } else {
        d := NotFound();
      }
    }

    /** Tries the bindings in order and hands the request to the first one
        whose pattern matches the whole path. */
    method Route(path: string, bindings: seq<Binding<H>>) returns (d: Dispatch<H>)
      ensures match FirstMatch(engine, bindings, path)
        case Some(k) =>
          d == Handled(k, bindings[k].handler,
                       RouteParams(bindings[k], engine.matcher(bindings[k].regex, path).value))
        case None => d == NotFound()
    {
      var i := 0;
      while i < |bindings|
        invariant 0 <= i <= |bindings|
        invariant forall k :: 0 <= k < i ==> !Matches(engine, bindings[k], path)
      {
        var m := engine.matcher(bindings[i].regex, path);
        if m.Some? {
          var params := ExtractParams(bindings[i], m.value);
          assert FirstMatch(engine, bindings, path) == Some(i) by {
            FirstMatchUnique(bindings, path, i);
          }
          return Handled(i, bindings[i].handler, params);
        }
        i := i + 1;
      }
      d := NotFound();
    }

    lemma FirstMatchUnique(bindings: seq<Binding<H>>, path: string, i: nat)
      requires i < |bindings| && Matches(engine, bindings[i], path)
      requires forall k :: 0 <= k < i ==> !Matches(engine, bindings[k], path)
      ensures FirstMatch(engine, bindings, path) == Some(i)
    {
      var r := FirstMatch(engine, bindings, path);
      assert r.Some?;
      assert !(r.value < i);
      assert !(r.value > i);
    }

    /** The parameter loops of `route`. */
    method ExtractParams(b: Binding<H>, m: MatchResult) returns (params: map<string, string>)
      ensures params == RouteParams(b, m)
    {
      if b.paramNames.Some? {
        params := NamedParams(b.paramNames.value, m);
      } else {
        params := IndexedParams(m);
      }
    }

    /** `for (String param: binding.paramNames) params.put(param, m.group(param))` */
    method NamedParams(names: set<string>, m: MatchResult) returns (params: map<string, string>)
      ensures params == map n | n in names :: m.named(n)
    {
      params := map[];
      var rest := names;
      while rest != {}
        invariant rest <= names
        invariant params == map n | n in names - rest :: m.named(n)
        decreases rest
      {
        var n :| n in rest;
        params := params[n := m.named(n)];
        rest := rest - {n};
      }
      assert names - rest == names;
    }

    /** `for (int i = 0; i < m.groupCount(); i++) params.put("param" + i, m.group(i + 1))` */
    method IndexedParams(m: MatchResult) returns (params: map<string, string>)
      ensures forall i :: 0 <= i < |m.groups| ==> ParamName(i) in params && params[ParamName(i)] == m.groups[i]
      ensures forall k :: k in params ==> exists i :: 0 <= i < |m.groups| && k == ParamName(i)
    {
      ParamNamesDistinct();
      params := map[];
      var i := 0;
      while i < |m.groups|
        invariant 0 <= i <= |m.groups|
        invariant forall k :: 0 <= k < i ==> ParamName(k) in params && params[ParamName(k)] == m.groups[k]
        invariant forall key :: key in params ==> exists k :: 0 <= k < i && key == ParamName(k)
      {
        params := params[ParamName(i) := m.groups[i]];
        i := i + 1;
      }
    }

    /** `getBindings`: creates an empty list for a method that has none. */
    method GetBindings(m: HttpMethod)
      modifies this
      ensures bindingsMap == old(bindingsMap)[m := LookupIn(old(bindingsMap), m)]
      ensures noMatchHandler == old(noMatchHandler)
    {
      if m !in bindingsMap {
        bindingsMap := bindingsMap[m := []];
      }
    }

    /** The rewrite loop of `addPattern`: each token becomes a named group, a
        token name seen before throws. */
    method RewriteTokens(input: string) returns (r: Rewrite)
      ensures r == RewritePattern(input)
    {
      var sb := "";
      var groups: set<string> := {};
      var i := 0;
      while i < |input|
        invariant 0 <= i <= |input|
        invariant RewriteInvariant(input, i, sb, groups)
        decreases |input| - i
      {
        if input[i] == ':' && i + 1 < |input| && IsTokenStart(input[i + 1]) {
          var j := i + 2;
          while j < |input| && IsTokenPart(input[j])
            invariant i + 2 <= j <= |input|
            invariant forall k :: i + 2 <= k < j ==> IsTokenPart(input[k])
          {
            j := j + 1;
          }
          var group := input[i + 1..j];
          TokenStep(input, i, j, sb, groups);
          if group in groups {
            return Rejected(group);
          }
          sb := sb + NamedGroup(group);
          groups := groups + {group};
          i := j;
        } else {
          LiteralStep(input, i, sb, groups);
          sb := sb + [input[i]];
          i := i + 1;
        }
      }
      RewriteDone(input, sb, groups);
      return Rewritten(sb, groups);
    }

    /** `addPattern`. The method's list is created before the pattern is
        examined, so a rejected pattern still leaves a (possibly empty) list. */
    method AddPattern(m: HttpMethod, input: string, handler: H) returns (r: Outcome<Error>)
      modifies this
      ensures r == match PatternBinding(input, handler)
        case Success(_) => Pass
        case Failure(e) => Fail(e)
      ensures bindingsMap == old(bindingsMap)[m :=
        match PatternBinding(input, handler)
        case Success(b) => LookupIn(old(bindingsMap), m) + [b]
        case Failure(_) => LookupIn(old(bindingsMap), m)]
      ensures noMatchHandler == old(noMatchHandler)
    {
      GetBindings(m);
      var rw := RewriteTokens(input);
      if rw.Rejected? {
        return Fail(DuplicateIdentifier(rw.name));
      }
      if !engine.compiles(rw.regex) {
        return Fail(PatternSyntax(rw.regex));
      }
      bindingsMap := bindingsMap[m := bindingsMap[m] + [Binding(rw.regex, Some(rw.names), handler)]];
      r := Pass;
    }

    /** `addRegEx`. */
    method AddRegEx(m: HttpMethod, input: string, handler: H) returns (r: Outcome<Error>)
      modifies this
      ensures r == if engine.compiles(input) then Pass else Fail(PatternSyntax(input))
      ensures bindingsMap == old(bindingsMap)[m :=
        if engine.compiles(input) then LookupIn(old(bindingsMap), m) + [Binding(input, None, handler)] else LookupIn(old(bindingsMap), m)]
      ensures noMatchHandler == old(noMatchHandler)
    {
      GetBindings(m);
      if !engine.compiles(input) {
        return Fail(PatternSyntax(input));
      }
      bindingsMap := bindingsMap[m := bindingsMap[m] + [Binding(input, None, handler)]];
      r := Pass;
    }

    method MatchMethod(m: HttpMethod, pattern: string, handler: H) returns (r: Outcome<Error>)
      modifies this
      ensures r == match PatternBinding(pattern, handler)
        case Success(_) => Pass
        case Failure(e) => Fail(e)
      ensures bindingsMap == old(bindingsMap)[m :=
        match PatternBinding(pattern, handler)
        case Success(b) => LookupIn(old(bindingsMap), m) + [b]
        case Failure(_) => LookupIn(old(bindingsMap), m)]
      ensures noMatchHandler == old(noMatchHandler)
    {
      r := AddPattern(m, pattern, handler);
    }

    method MatchMethodWithRegEx(m: HttpMethod, regex: string, handler: H) returns (r: Outcome<Error>)
      modifies this
      ensures r == if engine.compiles(regex) then Pass else Fail(PatternSyntax(regex))
      ensures bindingsMap == old(bindingsMap)[m :=
        if engine.compiles(regex) then LookupIn(old(bindingsMap), m) + [Binding(regex, None, handler)] else LookupIn(old(bindingsMap), m)]
      ensures noMatchHandler == old(noMatchHandler)
    {
      r := AddRegEx(m, regex, handler);
    }

    /** `all`: the same binding appended for each of the nine methods. A
        pattern that throws does so at GET, the first method, and nothing
        after it runs. */
    method All(pattern: string, handler: H) returns (r: Outcome<Error>)
      modifies this
      ensures r.Pass? <==> PatternBinding(pattern, handler).Success?
      ensures r.Pass? ==> forall m :: m in bindingsMap &&
                           bindingsMap[m] == LookupIn(old(bindingsMap), m) + [PatternBinding(pattern, handler).value]
      ensures r.Fail? ==> r.error == PatternBinding(pattern, handler).error
      ensures r.Fail? ==> bindingsMap == old(bindingsMap)[GET := LookupIn(old(bindingsMap), GET)]
      ensures noMatchHandler == old(noMatchHandler)
    {
      ghost var o := bindingsMap;
      r := AddPattern(GET, pattern, handler);
      if r.Fail? {
        return;
      }
      ghost var b := PatternBinding(pattern, handler).value;
      assert Extended(bindingsMap, o, AllMethods[..1], b) by {
        assert AllMethods[..1] == [GET];
      }
      var i := 1;
      while i < |AllMethods|
        invariant 1 <= i <= |AllMethods|
        invariant r.Pass? && noMatchHandler == old(noMatchHandler)
        invariant Extended(bindingsMap, o, AllMethods[..i], b)
      {
        ghost var cur := bindingsMap;
        r := AddPattern(AllMethods[i], pattern, handler);
        AllMethodsNext(i);
        ExtendStep(o, cur, AllMethods[..i], AllMethods[i], b);
        i := i + 1;
      }
      forall m ensures m in bindingsMap && bindingsMap[m] == LookupIn(o, m) + [b] {
        EveryMethod(m);
        assert AllMethods[..|AllMethods|] == AllMethods;
      }
    }

    /** `allWithRegEx`: the same regex binding appended for each of the nine
        methods. */
    method AllWithRegEx(regex: string, handler: H) returns (r: Outcome<Error>)
      modifies this
      ensures r.Pass? <==> engine.compiles(regex)
      ensures r.Pass? ==> forall m :: m in bindingsMap &&
                           bindingsMap[m] == LookupIn(old(bindingsMap), m) + [Binding(regex, None, handler)]
      ensures r.Fail? ==> r.error == PatternSyntax(regex)
      ensures r.Fail? ==> bindingsMap == old(bindingsMap)[GET := LookupIn(old(bindingsMap), GET)]
      ensures noMatchHandler == old(noMatchHandler)
    {
      ghost var o := bindingsMap;
      r := AddRegEx(GET, regex, handler);
      if r.Fail? {
        return;
      }
      ghost var b := Binding(regex, None, handler);
      assert Extended(bindingsMap, o, AllMethods[..1], b) by {
        assert AllMethods[..1] == [GET];
      }
      var i := 1;
      while i < |AllMethods|
        invariant 1 <= i <= |AllMethods|
        invariant r.Pass? && noMatchHandler == old(noMatchHandler)
        invariant Extended(bindingsMap, o, AllMethods[..i], b)
      {
        ghost var cur := bindingsMap;
        r := AddRegEx(AllMethods[i], regex, handler);
        AllMethodsNext(i);
        ExtendStep(o, cur, AllMethods[..i], AllMethods[i], b);
        i := i + 1;
      }
      forall m ensures m in bindingsMap && bindingsMap[m] == LookupIn(o, m) + [b] {
        EveryMethod(m);
        assert AllMethods[..|AllMethods|] == AllMethods;
      }
    }

    /** `noMatch`: the handler used when no binding matches, stored as
        given; None (Java null) puts back the default 404. */
    method NoMatch(handler: Option<H>)
      modifies this
      ensures noMatchHandler == handler && bindingsMap == old(bindingsMap)
      ensures NotFound() == if handler.Some? then NoMatchHandled(handler.value) else Default404
    {
      noMatchHandler := handler;
    }
  }
}
