/** The part of ECMAScript regular expressions that globToRegExp can emit: its syntax, read
  from the source text, and its meaning. Without the `u` flag both are about UTF-16 code
  units, so a text here is a sequence of those, lone surrogates included.
*/
module Regex {
  datatype Option<T> = None | Some(value: T)

  type Unit = u: int | 0 <= u < 0x10000

  type Text = seq<Unit>

  const DOLLAR: Unit := 36
  const LPAREN: Unit := 40
  const RPAREN: Unit := 41
  const STAR: Unit := 42
  const PLUS: Unit := 43
  const DOT: Unit := 46
  const SLASH: Unit := 47
  const COLON: Unit := 58
  const QUERY: Unit := 63
  const LBRACKET: Unit := 91
  const BACKSLASH: Unit := 92
  const RBRACKET: Unit := 93
  const CARET: Unit := 94
  const LBRACE: Unit := 123
  const BAR: Unit := 124
  const RBRACE: Unit := 125

  datatype Class = Exactly(c: Unit) | NotSlash | Dot

  predicate LineTerminator(c: Unit) { c == 0x0A || c == 0x0D || c == 0x2028 || c == 0x2029 }

  predicate In(k: Class, c: Unit) {
    match k
    case Exactly(d) => c == d
    case NotSlash => c != SLASH
    case Dot => !LineTerminator(c)
  }

  datatype Regex = Empty | One(class_: Class) | Cat(first: Regex, second: Regex) | Star(body: Regex) | Opt(body: Regex)

  // ---- Meaning ----

  ghost predicate Accepts(r: Regex, s: Text)
    decreases r, |s|
  {
    match r
    case Empty => s == []
    case One(k) => |s| == 1 && In(k, s[0])
    case Cat(a, b) => exists k :: 0 <= k <= |s| && Accepts(a, s[..k]) && Accepts(b, s[k..])
    case Star(a) => s == [] || exists k :: 0 < k <= |s| && Accepts(a, s[..k]) && Accepts(r, s[k..])
    case Opt(a) => s == [] || Accepts(a, s)
  }

  /** A starred class accepts the strings made of its characters. */
  lemma {:induction false} StarOfClass(k: Class, s: Text)
    ensures Accepts(Star(One(k)), s) <==> forall i | 0 <= i < |s| :: In(k, s[i])
    decreases |s|
  {
    if s != [] {
      StarOfClass(k, s[1..]);
      if forall i | 0 <= i < |s| :: In(k, s[i]) {
        assert Accepts(One(k), s[..1]) && Accepts(Star(One(k)), s[1..]);
      }
      if Accepts(Star(One(k)), s) {
        var n :| 0 < n <= |s| && Accepts(One(k), s[..n]) && Accepts(Star(One(k)), s[n..]);
        assert n == 1 && s[..1][0] == s[0];
        forall i | 0 <= i < |s| ensures In(k, s[i]) {
          if i > 0 { assert s[i] == s[1..][i - 1]; }
        }
      }
    }
  }

  // ---- Syntax ----

  /** Syntax characters, which stand for themselves only behind a backslash. */
  predicate Special(c: Unit) {
    c in {BAR, BACKSLASH, LBRACE, RBRACE, LPAREN, RPAREN, LBRACKET, RBRACKET, CARET, DOLLAR, PLUS, QUERY, DOT, STAR}
  }

  predicate StartsWith(s: Text, p: Text) { p <= s }

  datatype Parsed = Parsed(regex: Regex, rest: Text)

  /** Terms up to a closing parenthesis, the final `$` or the end. */
  function ParseTerms(s: Text): (r: Option<Parsed>)
    ensures r.Some? ==> |r.value.rest| <= |s|
    decreases |s|, 2
  {
    if s == [] || s[0] == RPAREN || s[0] == DOLLAR then Some(Parsed(Empty, s))
    else
      var t := ParseTerm(s);
      if t.None? then None
      else
        var more := ParseTerms(t.value.rest);
        if more.None? then None else Some(Parsed(Cat(t.value.regex, more.value.regex), more.value.rest))
  }

  /** An atom with at most one quantifier. */
  function ParseTerm(s: Text): (r: Option<Parsed>)
    ensures r.Some? ==> |r.value.rest| < |s|
    decreases |s|, 1
  {
    var a := ParseAtom(s);
    if a.None? then None
    else if StartsWith(a.value.rest, [STAR]) then Some(Parsed(Star(a.value.regex), a.value.rest[1..]))
    else if StartsWith(a.value.rest, [QUERY]) then Some(Parsed(Opt(a.value.regex), a.value.rest[1..]))
    else a
  }

  function ParseAtom(s: Text): (r: Option<Parsed>)
    ensures r.Some? ==> |r.value.rest| < |s|
    decreases |s|, 0
  {
    if s == [] then None
    else if s[0] == DOT then Some(Parsed(One(Dot), s[1..]))
    else if s[0] == BACKSLASH then
      if |s| > 1 && Special(s[1]) then Some(Parsed(One(Exactly(s[1])), s[2..])) else None
    else if StartsWith(s, [LBRACKET, CARET, SLASH, RBRACKET]) then Some(Parsed(One(NotSlash), s[4..]))
    else if StartsWith(s, [LPAREN, QUERY, COLON]) then
      var inner := ParseTerms(s[3..]);
      if inner.Some? &&
        StartsWith(inner.value.rest, [RPAREN]) then Some(Parsed(inner.value.regex, inner.value.rest[1..])) else None
    else if Special(s[0]) then None
    else Some(Parsed(One(Exactly(s[0])), s[1..]))
  }

  /** The whole expression: anchored at both ends. */
  function ParseAnchored(s: Text): Option<Regex> {
    if !StartsWith(s, [CARET]) then None
    else
      var body := ParseTerms(s[1..]);
      if body.Some? && body.value.rest == [DOLLAR] then Some(body.value.regex) else None
  }
}
