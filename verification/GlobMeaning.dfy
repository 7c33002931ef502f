/** What a glob pattern means, read off its characters, and the text it is compiled to, spelled in code units. */
module GlobMeaning {
  import opened GlobCompiler
  import opened Regex

  /** The path matches the pattern: 42 is `*`, 47 is `/` and 63 is `?`. */
  ghost predicate Globs(pattern: Text, path: Text)
    decreases |pattern|
  {
    if pattern == [] then path == []
    else if [42, 42, 47] <= pattern then
      Globs(pattern[3..], path) || exists k :: 0 < k <= |path| && path[k - 1] == 47 && Globs(pattern[3..], path[k..])
    else if [42, 42] <= pattern then exists k :: 0 <= k <= |path| && Globs(pattern[2..], path[k..])
    else if pattern[0] == 42 then
      exists k :: 0 <= k <= |path| && 47 !in path[..k] && Globs(pattern[1..], path[k..])
    else if pattern[0] == 63 then path != [] && path[0] != 47 && Globs(pattern[1..], path[1..])
    else path != [] && path[0] == pattern[0] && Globs(pattern[1..], path[1..])
  }

  /** A path that matches can be cut behind what the first piece stands for. */
  lemma MatchesFirst(pieces: seq<Piece>, path: Text)
    requires pieces != []
    ensures Matches(pieces, path) <==>
      exists k :: 0 <= k <= |path| && GlobCompiler.Fits(pieces[0], path[..k]) && Matches(pieces[1..], path[k..])
  {
    hide GlobCompiler.Fits;
    if Matches(pieces, path) {
      var parts :| Cuts(pieces, parts, path);
      var k := |parts[0]|;
      assert path == parts[0] + Joined(parts[1..]);
      assert path[..k] == parts[0] && path[k..] == Joined(parts[1..]);
      assert Cuts(pieces[1..], parts[1..], path[k..]);
    }
    if k :| 0 <= k <= |path| && GlobCompiler.Fits(pieces[0], path[..k]) && Matches(pieces[1..], path[k..]) {
      var parts :| Cuts(pieces[1..], parts, path[k..]);
      CutsPush(pieces, parts, path, k);
    }
  }

  /** The path is some text that the piece may stand for, and what the rest of the pattern matches. */
  ghost predicate Splits(p: Piece, rest: Text, path: Text) {
    exists k :: 0 <= k <= |path| && GlobCompiler.Fits(p, path[..k]) && Globs(rest, path[k..])
  }

  /** What the first piece of a pattern reads off a path. */
  ghost predicate Reads(p: Piece, rest: Text, path: Text) {
    match p
    case Literal(c) => path != [] && path[0] == c && Globs(rest, path[1..])
    case Question => path != [] && path[0] != 47 && Globs(rest, path[1..])
    case Star1 => exists k :: 0 <= k <= |path| && 47 !in path[..k] && Globs(rest, path[k..])
    case Star2 => exists k :: 0 <= k <= |path| && Globs(rest, path[k..])
    case Star2Slash => Globs(rest, path) || exists k :: 0 < k <= |path| && path[k - 1] == 47 && Globs(rest, path[k..])
  }

  lemma GlobsReads(pattern: Text, path: Text)
    requires pattern != []
    ensures Globs(pattern, path) <==> Reads(FirstPiece(pattern), pattern[Width(pattern)..], path)
  {
    var n := |pattern|;
    assert [42, 42] <= pattern <==> n > 1 && pattern[0] == 42 && pattern[1] == 42;
    assert [42, 42, 47] <= pattern <==> n > 2 && pattern[0] == 42 && pattern[1] == 42 && pattern[2] == 47;
  }

  lemma ReadsSplits(p: Piece, rest: Text, path: Text)
    ensures Reads(p, rest, path) <==> Splits(p, rest, path)
  {
    hide Globs;
    match p
    case Literal(c) => SplitsOne(p, rest, path);
    case Question => SplitsOne(p, rest, path);
    case Star1 =>
    case Star2 =>
    case Star2Slash => SplitsFolders(rest, path);
  }

  lemma GlobsFirst(pattern: Text, path: Text)
    requires pattern != []
    ensures Globs(pattern, path) <==> Splits(FirstPiece(pattern), pattern[Width(pattern)..], path)
  {
    GlobsReads(pattern, path);
    ReadsSplits(FirstPiece(pattern), pattern[Width(pattern)..], path);
    hide Globs, Reads, Splits, FirstPiece, Width;
  }

  lemma SplitsOne(p: Piece, rest: Text, path: Text)
    requires p.Literal? || p.Question?
    ensures Splits(p, rest, path) <==>
      path != [] && (if p.Literal? then path[0] == p.c else path[0] != 47) && Globs(rest, path[1..])
  {
    hide Globs;
    if k :| 0 <= k <= |path| && GlobCompiler.Fits(p, path[..k]) && Globs(rest, path[k..]) {
      assert |path[..k]| == 1 && path[..k][0] == path[0] && k == 1;
    }
    if path != [] { assert path[..1] == [path[0]]; }
  }

  lemma SplitsFolders(rest: Text, path: Text)
    ensures Splits(Star2Slash, rest, path) <==>
      Globs(rest, path) || exists k :: 0 < k <= |path| && path[k - 1] == 47 && Globs(rest, path[k..])
  {
    hide Globs;
    assert path[0..] == path && path[..0] == [];
    assert GlobCompiler.Fits(Star2Slash, path[..0]);
    forall k | 0 < k <= |path| ensures GlobCompiler.Fits(Star2Slash, path[..k]) <==> path[k - 1] == 47 {
      assert path[..k][|path[..k]| - 1] == path[k - 1];
    }
  }

  /** Cutting a path into fitting parts is reading the pattern character by character. */
  lemma {:induction false} GlobsMeaning(pattern: Text, path: Text)
    ensures Matches(Pieces(pattern), path) <==> Globs(pattern, path)
    decreases |pattern|
  {
    if pattern == [] {
      if path == [] { assert Cuts([], [], path); }
    } else {
      var rest := pattern[Width(pattern)..];
      Unroll(pattern);
      MatchesFirst(Pieces(pattern), path);
      GlobsFirst(pattern, path);
      assert Pieces(pattern)[1..] == Pieces(rest) && Pieces(pattern)[0] == FirstPiece(pattern);
      hide Globs, Matches, GlobCompiler.Fits, Pieces, Width, FirstPiece;
      forall k | 0 <= k <= |path| ensures Matches(Pieces(rest), path[k..]) <==> Globs(rest, path[k..]) {
        GlobsMeaning(rest, path[k..]);
      }
    }
  }

  /** What is written for a piece: syntax characters other than the star are escaped by 92, a backslash. */
  lemma SourceSpelled(p: Piece)
    ensures SourceOf(p) == match p
      case Literal(c) => if c in {36, 40, 41, 43, 46, 63, 91, 92, 93, 94, 123, 124, 125} then [92, c] else [c]
      case Question => [91, 94, 47, 93]
      case Star1 => [91, 94, 47, 93, 42]
      case Star2 => [46, 42]
      case Star2Slash => [40, 63, 58, 46, 42, 47, 41, 63]
  {
  }

  /** On a path of one line, the compiled text accepts what the pattern says. */
  lemma CompiledGlobs(pattern: Text, path: Text)
    requires forall i | 0 <= i < |path| :: path[i] !in {10, 13, 8232, 8233}
    ensures var r := ParseAnchored([94] + SourcesOf(Pieces(pattern)) + [36]);
      r.Some? && (Accepts(r.value, path) <==> Globs(pattern, path))
  {
    OneLineKept(pattern, path);
    GlobsMeaning(pattern, path);
    hide Globs, Matches, ParseAnchored, SourcesOf, Pieces, Accepts;
  }

  method CompileGlob(pattern: Text) returns (source: Text)
    ensures |source| >= 2 && source[0] == 94 && source[|source| - 1] == 36
    ensures ParseAnchored(source).Some?
    ensures forall path: Text | forall i | 0 <= i < |path| :: path[i] !in {10, 13, 8232, 8233} ::
      Accepts(ParseAnchored(source).value, path) <==> Globs(pattern, path)
  {
    source := GlobToRegExp(pattern);
    CompiledGlobs(pattern, []);
    forall path: Text | forall i | 0 <= i < |path| :: path[i] !in {10, 13, 8232, 8233}
      ensures Accepts(ParseAnchored(source).value, path) <==> Globs(pattern, path)
    {
      CompiledGlobs(pattern, path);
    }
  }
}
