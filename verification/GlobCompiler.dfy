/** The glob compiler of outcome-validator.ts.

  The compiler writes the text of a regular expression. Its meaning is proved in two steps:
  the text parses, whatever characters the pattern holds, and the expression it parses to
  accepts exactly the paths the glob describes.
*/
module GlobCompiler {
  import opened Regex

  datatype Piece = Literal(c: Unit) | Question | Star1 | Star2 | Star2Slash

  /** The pieces of a pattern, longest wildcard first. */
  function Pieces(pattern: Text): seq<Piece> {
    if pattern == [] then []
    else if pattern[0] == STAR then
      if |pattern| > 1 && pattern[1] == STAR then
        if |pattern| > 2 && pattern[2] == SLASH then [Star2Slash] + Pieces(pattern[3..])
        else [Star2] + Pieces(pattern[2..])
      else [Star1] + Pieces(pattern[1..])
    else if pattern[0] == QUERY then [Question] + Pieces(pattern[1..])
    else [Literal(pattern[0])] + Pieces(pattern[1..])
  }

  // ---- What a glob means ----

  /** The text a piece may stand for. */
  predicate Fits(p: Piece, x: Text) {
    match p
    case Literal(c) => x == [c]
    case Question => |x| == 1 && x[0] != SLASH
    case Star1 => SLASH !in x
    case Star2 => true
    case Star2Slash => x == [] || x[|x| - 1] == SLASH
  }

  function Joined(parts: seq<Text>): Text {
    if parts == [] then [] else parts[0] + Joined(parts[1..])
  }

  ghost predicate Cuts(pieces: seq<Piece>, parts: seq<Text>, path: Text) {
    |parts| == |pieces| && Joined(parts) == path && forall i | 0 <= i < |parts| :: Fits(pieces[i], parts[i])
  }

  /** A path matches when it can be cut into parts, one for each piece. */
  ghost predicate Matches(pieces: seq<Piece>, path: Text) {
    exists parts :: Cuts(pieces, parts, path)
  }

  predicate OneLine(path: Text) { forall i | 0 <= i < |path| :: !LineTerminator(path[i]) }

  // ---- The compiler ----

  function Escaped(c: Unit): Text { if Special(c) && c != STAR then [BACKSLASH, c] else [c] }

  function SourceOf(p: Piece): Text {
    match p
    case Literal(c) => Escaped(c)
    case Question => [LBRACKET, CARET, SLASH, RBRACKET]
    case Star1 => [LBRACKET, CARET, SLASH, RBRACKET, STAR]
    case Star2 => [DOT, STAR]
    case Star2Slash => [LPAREN, QUERY, COLON, DOT, STAR, SLASH, RPAREN, QUERY]
  }

  function SourcesOf(pieces: seq<Piece>): Text {
    if pieces == [] then [] else SourceOf(pieces[0]) + SourcesOf(pieces[1..])
  }

  method GlobToRegExp(pattern: Text) returns (source: Text)
    ensures source == [CARET] + SourcesOf(Pieces(pattern)) + [DOLLAR]
  {
    source := [CARET];
    var index := 0;
    while index < |pattern|
      invariant index <= |pattern|
      invariant source + SourcesOf(Pieces(pattern[index..])) == [CARET] + SourcesOf(Pieces(pattern))
      decreases |pattern| - index
    {
      ghost var start, before := index, source;
      index, source := EmitPiece(pattern, index, source);
      Emitted(pattern, start, before);
    }
    source := source + [DOLLAR];
  }

  /** One turn of the compiler's loop. */
  method EmitPiece(pattern: Text, start: nat, before: Text) returns (index: nat, source: Text)
    requires start < |pattern|
    ensures index == start + Width(pattern[start..])
    ensures source == before + SourceOf(FirstPiece(pattern[start..]))
  {
    index, source := start, before;
    var character := pattern[index];
    if character == STAR {
      if index + 1 < |pattern| && pattern[index + 1] == STAR {
        index := index + 1;
        if index + 1 < |pattern| && pattern[index + 1] == SLASH {
          index := index + 1;
          source := source + [LPAREN, QUERY, COLON, DOT, STAR, SLASH, RPAREN, QUERY];
        } else {
          source := source + [DOT, STAR];
        }
      } else {
        source := source + [LBRACKET, CARET, SLASH, RBRACKET, STAR];
      }
    } else if character == QUERY {
      source := source + [LBRACKET, CARET, SLASH, RBRACKET];
    } else {
      source := source + Escaped(character);
    }
    index := index + 1;
  }

  lemma Emitted(pattern: Text, start: nat, before: Text)
    requires start < |pattern|
    ensures var rest := pattern[start..];
      var index := start + Width(rest);
      (before + SourceOf(FirstPiece(rest))) + SourcesOf(Pieces(pattern[index..])) == before + SourcesOf(Pieces(rest))
  {
    hide SourceOf, FirstPiece, Width, Pieces, SourcesOf;
    var rest := pattern[start..];
    Unroll(rest);
    assert rest[Width(rest)..] == pattern[start + Width(rest)..];
  }

  function Width(pattern: Text): (n: nat)
    requires pattern != []
    ensures 0 < n <= |pattern|
  {
    if pattern[0] == STAR && |pattern| > 1 && pattern[1] == STAR then
      if |pattern| > 2 && pattern[2] == SLASH then 3 else 2
    else 1
  }

  function FirstPiece(pattern: Text): Piece
    requires pattern != []
  {
    if pattern[0] == STAR then if Width(pattern) == 3 then Star2Slash else if Width(pattern) == 2 then Star2 else Star1
    else if pattern[0] == QUERY then Question
    else Literal(pattern[0])
  }

  lemma Unroll(pattern: Text)
    requires pattern != []
    ensures Pieces(pattern) == [FirstPiece(pattern)] + Pieces(pattern[Width(pattern)..])
    ensures SourcesOf(Pieces(pattern)) == SourceOf(FirstPiece(pattern)) + SourcesOf(Pieces(pattern[Width(pattern)..]))
  {
  }

  // ---- The text parses ----

  function RegexOf(p: Piece): Regex {
    match p
    case Literal(c) => One(Exactly(c))
    case Question => One(NotSlash)
    case Star1 => Star(One(NotSlash))
    case Star2 => Star(One(Dot))
    case Star2Slash => Opt(Cat(Star(One(Dot)), Cat(One(Exactly(SLASH)), Empty)))
  }

  function RegexesOf(pieces: seq<Piece>): Regex {
    if pieces == [] then Empty else Cat(RegexOf(pieces[0]), RegexesOf(pieces[1..]))
  }

  /** A pattern's literals never include the wildcards. */
  predicate Plain(pieces: seq<Piece>) {
    forall i | 0 <= i < |pieces| && pieces[i].Literal? :: pieces[i].c != STAR && pieces[i].c != QUERY
  }

  lemma {:induction false} PiecesPlain(pattern: Text)
    ensures Plain(Pieces(pattern))
    decreases |pattern|
  {
    if pattern != [] {
      Unroll(pattern);
      PiecesPlain(pattern[Width(pattern)..]);
    }
  }

  /** What follows a piece in the emitted text is no quantifier and does not end a group. */
  predicate Follows(rest: Text) { rest != [] && rest[0] != STAR && rest[0] != QUERY && rest[0] != RPAREN }

  lemma SourceFollows(p: Piece, rest: Text)
    requires Plain([p])
    ensures Follows(SourceOf(p) + rest) && (SourceOf(p) + rest)[0] != DOLLAR
  {
    assert p.Literal? ==> [p][0].c != STAR && [p][0].c != QUERY;
  }

  lemma SlashParses(v: Text)
    requires v != [] && v[0] == RPAREN
    ensures ParseTerm([SLASH] + v) == Some(Parsed(One(Exactly(SLASH)), v))
  {
    assert ([SLASH] + v)[1..] == v && ([SLASH] + v)[0] == SLASH;
  }

  lemma Unquantified(s: Text, r: Regex, rest: Text)
    requires ParseAtom(s) == Some(Parsed(r, rest)) && Follows(rest)
    ensures ParseTerm(s) == Some(Parsed(r, rest))
  {
  }

  lemma Starred(s: Text, r: Regex, rest: Text)
    requires ParseAtom(s) == Some(Parsed(r, [STAR] + rest))
    ensures ParseTerm(s) == Some(Parsed(Star(r), rest))
  {
    assert ([STAR] + rest)[1..] == rest;
  }

  lemma Optional(s: Text, r: Regex, rest: Text)
    requires ParseAtom(s) == Some(Parsed(r, [QUERY] + rest))
    ensures ParseTerm(s) == Some(Parsed(Opt(r), rest))
  {
    assert ([QUERY] + rest)[1..] == rest && ([QUERY] + rest)[0] == QUERY;
  }

  lemma LiteralParses(c: Unit, rest: Text)
    requires c != STAR
    ensures ParseAtom(Escaped(c) + rest) == Some(Parsed(One(Exactly(c)), rest))
  {
    var s := Escaped(c) + rest;
    assert s[|Escaped(c)|..] == rest;
    if Special(c) {
      assert s[0] == BACKSLASH && s[1] == c;
    } else {
      assert s[0] == c && c != LBRACKET && c != LPAREN;
    }
  }

  lemma BracketParses(rest: Text)
    ensures ParseAtom([LBRACKET, CARET, SLASH, RBRACKET] + rest) == Some(Parsed(One(NotSlash), rest))
  {
    assert ([LBRACKET, CARET, SLASH, RBRACKET] + rest)[4..] == rest;
  }

  lemma DotParses(rest: Text)
    ensures ParseAtom([DOT] + rest) == Some(Parsed(One(Dot), rest))
  {
    assert ([DOT] + rest)[1..] == rest;
  }

  lemma TermsStep(s: Text, r: Regex, mid: Text, more: Regex, rest: Text)
    requires s != [] && s[0] != RPAREN && s[0] != DOLLAR && ParseTerm(s) == Some(Parsed(r, mid))
    requires ParseTerms(mid) == Some(Parsed(more, rest))
    ensures ParseTerms(s) == Some(Parsed(Cat(r, more), rest))
  {
  }

  lemma TermsEnd(rest: Text)
    ensures ParseTerms([RPAREN] + rest) == Some(Parsed(Empty, [RPAREN] + rest))
  {
  }

  lemma GroupEnd(s: Text, r: Regex, rest: Text)
    requires ParseTerms(s) == Some(Parsed(r, [RPAREN] + rest))
    ensures ParseAtom([LPAREN, QUERY, COLON] + s) == Some(Parsed(r, rest))
  {
    assert ([LPAREN, QUERY, COLON] + s)[3..] == s && ([RPAREN] + rest)[1..] == rest;
  }

  lemma GroupParses(rest: Text)
    ensures ParseAtom([LPAREN, QUERY, COLON, DOT, STAR, SLASH, RPAREN] + rest) ==
      Some(Parsed(Cat(Star(One(Dot)), Cat(One(Exactly(SLASH)), Empty)), rest))
  {
    hide ParseTerm, ParseTerms, ParseAtom;
    var t, u, v := [DOT, STAR, SLASH, RPAREN] + rest, [SLASH, RPAREN] + rest, [RPAREN] + rest;
    assert u == [SLASH] + v && t == [DOT] + ([STAR] + u) &&
      [LPAREN, QUERY, COLON, DOT, STAR, SLASH, RPAREN] + rest == [LPAREN, QUERY, COLON] + t;
    SlashParses(v);
    TermsEnd(rest);
    TermsStep(u, One(Exactly(SLASH)), v, Empty, v);
    DotParses([STAR] + u);
    Starred(t, One(Dot), u);
    TermsStep(t, Star(One(Dot)), u, Cat(One(Exactly(SLASH)), Empty), v);
    GroupEnd(t, Cat(Star(One(Dot)), Cat(One(Exactly(SLASH)), Empty)), rest);
  }

  lemma PieceParses(p: Piece, rest: Text)
    requires Plain([p]) && Follows(rest)
    ensures ParseTerm(SourceOf(p) + rest) == Some(Parsed(RegexOf(p), rest))
  {
    hide ParseTerm, ParseAtom, Escaped;
    var s := SourceOf(p) + rest;
    match p {
      case Literal(c) =>
        assert [p][0].c != STAR;
        LiteralParses(c, rest);
        Unquantified(s, One(Exactly(c)), rest);
      case Question =>
        BracketParses(rest);
        Unquantified(s, One(NotSlash), rest);
      case Star1 =>
        assert s == [LBRACKET, CARET, SLASH, RBRACKET] + ([STAR] + rest);
        BracketParses([STAR] + rest);
        Starred(s, One(NotSlash), rest);
      case Star2 =>
        assert s == [DOT] + ([STAR] + rest);
        DotParses([STAR] + rest);
        Starred(s, One(Dot), rest);
      case Star2Slash =>
        assert s == [LPAREN, QUERY, COLON, DOT, STAR, SLASH, RPAREN] + ([QUERY] + rest);
        GroupParses([QUERY] + rest);
        Optional(s, RegexOf(p).body, rest);
    }
  }

  lemma {:induction false} PiecesParse(pieces: seq<Piece>)
    requires Plain(pieces)
    ensures ParseTerms(SourcesOf(pieces) + [DOLLAR]) == Some(Parsed(RegexesOf(pieces), [DOLLAR]))
    decreases |pieces|
  {
    if pieces == [] {
      assert SourcesOf(pieces) + [DOLLAR] == [DOLLAR];
    } else {
      var p, rest := pieces[0], SourcesOf(pieces[1..]) + [DOLLAR];
      PiecesParse(pieces[1..]);
      assert SourcesOf(pieces) + [DOLLAR] == SourceOf(p) + rest;
      assert Plain([p]);
      SourceFollows(p, rest);
      RestFollows(pieces[1..]);
      PieceParses(p, rest);
    }
  }

  lemma RestFollows(pieces: seq<Piece>)
    requires Plain(pieces)
    ensures Follows(SourcesOf(pieces) + [DOLLAR])
  {
    if pieces != [] {
      assert Plain([pieces[0]]);
      SourceFollows(pieces[0], SourcesOf(pieces[1..]) + [DOLLAR]);
      assert SourcesOf(pieces) + [DOLLAR] == SourceOf(pieces[0]) + (SourcesOf(pieces[1..]) + [DOLLAR]);
    }
  }

  // ---- The expression means the glob ----

  lemma DirMeaning(x: Text)
    requires OneLine(x)
    ensures Accepts(RegexOf(Star2Slash), x) <==> Fits(Star2Slash, x)
  {
    var slash, dots := One(Exactly(SLASH)), Star(One(Dot));
    var dir := Cat(dots, Cat(slash, Empty));
    if x != [] && x[|x| - 1] == SLASH {
      var n := |x| - 1;
      StarOfClass(Dot, x[..n]);
      assert x[n..] == [SLASH] && x[n..][..1] == [SLASH] && x[n..][1..] == [];
      assert Accepts(slash, x[n..][..1]) && Accepts(Empty, x[n..][1..]);
      assert Accepts(Cat(slash, Empty), x[n..]);
      assert Accepts(dots, x[..n]);
      assert Accepts(dir, x);
    }
    if Accepts(dir, x) {
      var k :| 0 <= k <= |x| && Accepts(dots, x[..k]) && Accepts(Cat(slash, Empty), x[k..]);
      var j :| 0 <= j <= |x[k..]| && Accepts(slash, x[k..][..j]) && Accepts(Empty, x[k..][j..]);
      assert j == 1 && |x| == k + 1 && x[k..][..j][0] == x[k];
    }
  }

  lemma PieceMeaning(p: Piece, x: Text)
    requires OneLine(x)
    ensures Accepts(RegexOf(p), x) <==> Fits(p, x)
  {
    match p
    case Literal(c) =>
    case Question =>
    case Star1 =>
      StarOfClass(NotSlash, x);
    case Star2 =>
      StarOfClass(Dot, x);
    case Star2Slash =>
      DirMeaning(x);
  }

  /** The expression accepts exactly the paths that can be cut into fitting parts. */
  lemma {:induction false} PiecesMeaning(pieces: seq<Piece>, path: Text)
    requires OneLine(path)
    ensures Accepts(RegexesOf(pieces), path) <==> Matches(pieces, path)
    decreases |pieces|
  {
    hide Fits, RegexOf;
    if pieces == [] {
      if path == [] { assert Cuts(pieces, [], path); }
    } else {
      if Accepts(RegexesOf(pieces), path) {
        var k :| 0 <= k <= |path| && Accepts(RegexOf(pieces[0]), path[..k]) &&
          Accepts(RegexesOf(pieces[1..]), path[k..]);
        PieceMeaning(pieces[0], path[..k]);
        PiecesMeaning(pieces[1..], path[k..]);
        var parts :| Cuts(pieces[1..], parts, path[k..]);
        CutsPush(pieces, parts, path, k);
      }
      if Matches(pieces, path) {
        var parts :| Cuts(pieces, parts, path);
        var k := |parts[0]|;
        assert path == parts[0] + Joined(parts[1..]);
        assert path[..k] == parts[0] && path[k..] == Joined(parts[1..]);
        assert Cuts(pieces[1..], parts[1..], path[k..]);
        PieceMeaning(pieces[0], path[..k]);
        PiecesMeaning(pieces[1..], path[k..]);
      }
    }
  }

  lemma CutsPush(pieces: seq<Piece>, parts: seq<Text>, path: Text, k: nat)
    requires pieces != [] && k <= |path| && Fits(pieces[0], path[..k]) && Cuts(pieces[1..], parts, path[k..])
    ensures Cuts(pieces, [path[..k]] + parts, path)
  {
    var all := [path[..k]] + parts;
    assert all[1..] == parts;
    assert path == path[..k] + path[k..];
    forall i | 0 <= i < |all| ensures Fits(pieces[i], all[i]) {
      if i > 0 { assert pieces[i] == pieces[1..][i - 1]; }
    }
  }

  /** The compiled text of any pattern parses to the expression of its pieces. */
  lemma CompiledParses(pattern: Text)
    ensures ParseAnchored([CARET] + SourcesOf(Pieces(pattern)) + [DOLLAR]) == Some(RegexesOf(Pieces(pattern)))
  {
    var pieces := Pieces(pattern);
    PiecesPlain(pattern);
    PiecesParse(pieces);
    assert ([CARET] + SourcesOf(pieces) + [DOLLAR])[1..] == SourcesOf(pieces) + [DOLLAR];
  }

  /** On this path the compiled text of the pattern says what the glob says. */
  ghost predicate MeaningKept(pattern: Text, path: Text) {
    var r := ParseAnchored([CARET] + SourcesOf(Pieces(pattern)) + [DOLLAR]);
    r.Some? && (Accepts(r.value, path) <==> Matches(Pieces(pattern), path))
  }

  /** `**` matches every path, and its compiled text every path of one line. */
  lemma LineTerminatorEscapes(path: Text)
    ensures Matches(Pieces([STAR, STAR]), path)
    ensures MeaningKept([STAR, STAR], path) <==> OneLine(path)
  {
    var pieces, r := Pieces([STAR, STAR]), Cat(Star(One(Dot)), Empty);
    var stars: Text := [STAR, STAR];
    assert stars[2..] == [] && Pieces(stars) == [Star2] + Pieces(stars[2..]);
    assert Joined([path]) == path by { assert [path][1..] == []; }
    assert Cuts(pieces, [path], path);
    CompiledParses([STAR, STAR]);
    assert RegexesOf(pieces) == r;
    if OneLine(path) { PiecesMeaning(pieces, path); }
    if Accepts(r, path) {
      var k :| 0 <= k <= |path| && Accepts(Star(One(Dot)), path[..k]) && Accepts(Empty, path[k..]);
      assert path[..k] == path;
      StarOfClass(Dot, path);
    }
  }

  /** The compiler keeps the meaning of all patterns exactly on the paths of one line. */
  lemma CompilerPreservesMeaning(path: Text)
    ensures (forall pattern: Text :: MeaningKept(pattern, path)) <==> OneLine(path)
  {
    hide MeaningKept;
    LineTerminatorEscapes(path);
    if OneLine(path) {
      forall pattern: Text ensures MeaningKept(pattern, path) { OneLineKept(pattern, path); }
    }
  }

  lemma OneLineKept(pattern: Text, path: Text)
    requires OneLine(path)
    ensures MeaningKept(pattern, path)
  {
    CompiledParses(pattern);
    PiecesMeaning(Pieces(pattern), path);
  }

  // ---- Laws of the glob ----

  predicate NoWildcards(pattern: Text) { STAR !in pattern && QUERY !in pattern }

  /** A pattern without wildcards matches exactly itself. */
  lemma {:induction false} PlainMatchesItself(pattern: Text, path: Text)
    requires NoWildcards(pattern)
    ensures Matches(Pieces(pattern), path) <==> path == pattern
    decreases |pattern|
  {
    if pattern == [] {
      if path == [] { assert Cuts([], [], path); }
    } else {
      var pieces := Pieces(pattern);
      assert pieces == [Literal(pattern[0])] + Pieces(pattern[1..]);
      if path == pattern {
        PlainMatchesItself(pattern[1..], path[1..]);
        var parts :| Cuts(pieces[1..], parts, path[1..]);
        CutsPush(pieces, parts, path, 1);
      }
      if Matches(pieces, path) {
        var parts :| Cuts(pieces, parts, path);
        assert Fits(pieces[0], parts[0]);
        assert path == parts[0] + Joined(parts[1..]);
        assert Cuts(pieces[1..], parts[1..], path[1..]);
        PlainMatchesItself(pattern[1..], path[1..]);
      }
    }
  }

  /** Every path, wildcard characters and all, matches itself used as a pattern. */
  lemma {:induction false} EveryPathMatchesItself(path: Text)
    ensures Matches(Pieces(path), path)
    decreases |path|
  {
    if path == [] {
      assert Cuts([], [], path);
    } else {
      var w := Width(path);
      Unroll(path);
      EveryPathMatchesItself(path[w..]);
      var parts :| Cuts(Pieces(path)[1..], parts, path[w..]);
      CutsPush(Pieces(path), parts, path, w);
    }
  }
}
