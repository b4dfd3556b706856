/** The deny patterns of artifact capture. The text of the regular expression built
    for a pattern is proved to denote what a direct matcher of the pattern accepts,
    and the rules are then stated about path names. */
module Glob {
  import opened Wrappers
  import opened Regex

  // ------------------------------------------------------------- compiling

  const DIRECTORIES := Then(Star(Dot), Then(Char('/'), Empty))

  function Compile(pattern: string): (r: Regex)
    ensures Writable(r)
  {
    if pattern == "" then Empty
    else if "**/" <= pattern then Then(Maybe(DIRECTORIES), Compile(pattern[3..]))
    else if "**" <= pattern then Then(Star(Dot), Compile(pattern[2..]))
    else if pattern[0] == '*' then Then(Star(NotSlash), Compile(pattern[1..]))
    else if pattern[0] == '?' then Then(NotSlash, Compile(pattern[1..]))
    else Then(Char(pattern[0]), Compile(pattern[1..]))
  }

  // The text of the regular expression for a pattern.
  method GlobToRegExp(pattern: string) returns (source: string)
    ensures source == Anchored(Compile(pattern))
    ensures Read(source) == Some(Compile(pattern))
  {
    source := "^";
    var i := 0;
    while i < |pattern|
      invariant i <= |pattern|
      invariant source + Write(Compile(pattern[i..])) == "^" + Write(Compile(pattern))
    {
      var piece, next := Piece(pattern, i);
      source := source + piece;
      i := next;
    }
    assert pattern[i..] == "";
    source := source + "$";
    ReadAnchored(Compile(pattern));
  }

  // One turn of the loop: the text of the token at i, and where the next one begins.
  method Piece(pattern: string, i: nat) returns (piece: string, next: nat)
    requires i < |pattern|
    ensures i < next <= |pattern|
    ensures Write(Compile(pattern[i..])) == piece + Write(Compile(pattern[next..]))
  {
    var c := pattern[i];
    var here := pattern[i..];
    assert here[1..] == pattern[i + 1..];
    if c == '*' {
      if i + 1 < |pattern| && pattern[i + 1] == '*' {
        assert here[2..] == pattern[i + 2..];
        if i + 2 < |pattern| && pattern[i + 2] == '/' {
          assert here[3..] == pattern[i + 3..];
          assert "**/" <= here;
          WriteDirectories();
          return "(?:.*/)?", i + 3;
        }
        assert "**" <= here && !("**/" <= here);
        return ".*", i + 2;
      }
      assert !("**" <= here);
      return "[^/]*", i + 1;
    }
    if c == '?' { return "[^/]", i + 1; }
    return Escaped(c), i + 1;
  }

  lemma WriteDirectories()
    ensures WriteTerm(Maybe(DIRECTORIES)) == "(?:.*/)?"
  {
    assert Write(Then(Char('/'), Empty)) == "/";
    assert Write(DIRECTORIES) == ".*/";
  }

  // ------------------------------------------------------ the direct match

  predicate GlobMatch(pattern: string, s: string)
    decreases |pattern|, |s|
  {
    if pattern == "" then s == ""
    else if "**/" <= pattern then
      GlobMatch(pattern[3..], s) || MatchBelow(pattern[3..], s)
    else if "**" <= pattern then
      GlobMatch(pattern[2..], s) || (s != "" && !LineTerminator(s[0]) && GlobMatch(pattern, s[1..]))
    else if pattern[0] == '*' then
      GlobMatch(pattern[1..], s) || (s != "" && s[0] != '/' && GlobMatch(pattern, s[1..]))
    else
      s != "" && (if pattern[0] == '?' then s[0] != '/' else s[0] == pattern[0]) && GlobMatch(pattern[1..], s[1..])
  }

  // The pattern matches what follows some slash, with no line terminator before it.
  predicate MatchBelow(pattern: string, s: string)
    decreases |pattern|, |s| + 1
  {
    && s != ""
    && ((s[0] == '/' && GlobMatch(pattern, s[1..])) || (!LineTerminator(s[0]) && MatchBelow(pattern, s[1..])))
  }

  // --------------------------------------------- what expressions accept

  predicate One(atom: Regex, c: char) {
    match atom
    case Char(d) => c == d
    case Dot => !LineTerminator(c)
    case _ => c != '/'
  }

  lemma AcceptsAtom(atom: Regex, s: string)
    requires Atom(atom)
    ensures Accepts(atom, s) <==> |s| == 1 && One(atom, s[0])
  {
  }

  lemma SplitOf(r: Regex, s: string) returns (i: nat)
    requires r.Then? && Accepts(r, s)
    ensures Splits(r, s, i)
  {
    i :| Splits(r, s, i);
  }

  lemma AcceptsThenAtom(atom: Regex, r: Regex, s: string)
    requires Atom(atom)
    ensures Accepts(Then(atom, r), s) <==> s != "" && One(atom, s[0]) && Accepts(r, s[1..])
  {
    if i: nat :| Splits(Then(atom, r), s, i) { AcceptsAtom(atom, s[..i]); }
    if s != "" && One(atom, s[0]) && Accepts(r, s[1..]) {
      AcceptsAtom(atom, s[..1]);
      assert Splits(Then(atom, r), s, 1);
    }
  }

  lemma AcceptsStar(atom: Regex, s: string)
    requires Atom(atom)
    ensures Accepts(Star(atom), s) <==> s == "" || (One(atom, s[0]) && Accepts(Star(atom), s[1..]))
  {
    if i: nat :| Repeats(Star(atom), s, i) { AcceptsAtom(atom, s[..i]); }
    if s != "" && One(atom, s[0]) && Accepts(Star(atom), s[1..]) {
      AcceptsAtom(atom, s[..1]);
      assert Repeats(Star(atom), s, 1);
    }
  }

  lemma AcceptsThenStar(atom: Regex, r: Regex, s: string)
    requires Atom(atom)
    ensures Accepts(Then(Star(atom), r), s) <==>
            Accepts(r, s) || (s != "" && One(atom, s[0]) && Accepts(Then(Star(atom), r), s[1..]))
  {
    if i: nat :| Splits(Then(Star(atom), r), s, i) { StarUnrolled(atom, r, s, i); }
    if Accepts(r, s) {
      assert s[0..] == s && Accepts(Star(atom), s[..0]);
      assert Splits(Then(Star(atom), r), s, 0);
    }
    if s != "" && One(atom, s[0]) && Accepts(Then(Star(atom), r), s[1..]) {
      var i := SplitOf(Then(Star(atom), r), s[1..]);
      StarRolled(atom, r, s, i);
    }
  }

  lemma StarUnrolled(atom: Regex, r: Regex, s: string, i: nat)
    requires Atom(atom) && Splits(Then(Star(atom), r), s, i)
    ensures Accepts(r, s) || (s != "" && One(atom, s[0]) && Accepts(Then(Star(atom), r), s[1..]))
  {
    AcceptsStar(atom, s[..i]);
    if i > 0 {
      assert s[1..][..i - 1] == s[..i][1..] && s[1..][i - 1..] == s[i..];
      assert Splits(Then(Star(atom), r), s[1..], i - 1);
    } else {
      assert s[0..] == s;
    }
  }

  lemma StarRolled(atom: Regex, r: Regex, s: string, i: nat)
    requires Atom(atom) && s != "" && One(atom, s[0]) && Splits(Then(Star(atom), r), s[1..], i)
    ensures Splits(Then(Star(atom), r), s, i + 1)
  {
    assert s[..i + 1][1..] == s[1..][..i] && s[i + 1..] == s[1..][i..];
    AcceptsStar(atom, s[..i + 1]);
  }

  lemma AcceptsThenMaybe(body: Regex, r: Regex, s: string)
    ensures Accepts(Then(Maybe(body), r), s) <==> Accepts(r, s) || Accepts(Then(body, r), s)
  {
    if i: nat :| Splits(Then(Maybe(body), r), s, i) {
      assert Accepts(Maybe(body), s[..i]);
      if Accepts(body, s[..i]) {
        assert Splits(Then(body, r), s, i);
      } else {
        assert s[..i] == "" && i == 0 && s[0..] == s;
      }
    }
    if Accepts(r, s) {
      assert s[0..] == s && Accepts(Maybe(body), s[..0]);
      assert Splits(Then(Maybe(body), r), s, 0);
    }
    if i: nat :| Splits(Then(body, r), s, i) {
      assert Accepts(Maybe(body), s[..i]);
      assert Splits(Then(Maybe(body), r), s, i);
    }
  }

  lemma AcceptsThenEmpty(r: Regex, s: string)
    ensures Accepts(Then(Empty, r), s) <==> Accepts(r, s)
  {
    assert s[0..] == s;
    if i: nat :| Splits(Then(Empty, r), s, i) { assert Accepts(Empty, s[..i]) && i == 0; }
    if Accepts(r, s) {
      assert Accepts(Empty, s[..0]);
      assert Splits(Then(Empty, r), s, 0);
    }
  }

  lemma AcceptsRegrouped(a: Regex, b: Regex, r: Regex, s: string)
    ensures Accepts(Then(Then(a, b), r), s) <==> Accepts(Then(a, Then(b, r)), s)
  {
    if j: nat :| Splits(Then(Then(a, b), r), s, j) {
      var i := SplitOf(Then(a, b), s[..j]);
      RegroupedRight(a, b, r, s, i, j);
    }
    if i: nat :| Splits(Then(a, Then(b, r)), s, i) {
      var k := SplitOf(Then(b, r), s[i..]);
      RegroupedLeft(a, b, r, s, i, k);
    }
  }

  lemma RegroupedRight(a: Regex, b: Regex, r: Regex, s: string, i: nat, j: nat)
    requires Splits(Then(Then(a, b), r), s, j) && Splits(Then(a, b), s[..j], i)
    ensures Splits(Then(a, Then(b, r)), s, i)
  {
    assert s[..j][..i] == s[..i] && s[i..][..j - i] == s[..j][i..] && s[i..][j - i..] == s[j..];
    assert Splits(Then(b, r), s[i..], j - i);
  }

  lemma RegroupedLeft(a: Regex, b: Regex, r: Regex, s: string, i: nat, k: nat)
    requires Splits(Then(a, Then(b, r)), s, i) && Splits(Then(b, r), s[i..], k)
    ensures Splits(Then(Then(a, b), r), s, i + k)
  {
    assert s[..i + k][..i] == s[..i] && s[..i + k][i..] == s[i..][..k] && s[i + k..] == s[i..][k..];
    assert Splits(Then(a, b), s[..i + k], i);
  }

  // ---------------------------------------------------- the main theorem

  // The expression a pattern compiles to accepts exactly what the pattern matches.
  lemma {:induction false} CompiledMatches(pattern: string, s: string)
    ensures Accepts(Compile(pattern), s) <==> GlobMatch(pattern, s)
    decreases |pattern|, |s|
  {
    if pattern == "" {
    } else if "**/" <= pattern {
      CompiledMatches(pattern[3..], s);
      AcceptsThenMaybe(DIRECTORIES, Compile(pattern[3..]), s);
      CompiledBelow(pattern[3..], s);
    } else if "**" <= pattern {
      StarMatches(pattern, pattern[2..], Dot, s);
    } else if pattern[0] == '*' {
      StarMatches(pattern, pattern[1..], NotSlash, s);
    } else {
      var atom := if pattern[0] == '?' then NotSlash else Char(pattern[0]);
      AcceptsThenAtom(atom, Compile(pattern[1..]), s);
      if s != "" { CompiledMatches(pattern[1..], s[1..]); }
    }
  }

  lemma {:induction false} StarMatches(pattern: string, rest: string, atom: Regex, s: string)
    requires |rest| < |pattern| && Atom(atom) && Compile(pattern) == Then(Star(atom), Compile(rest))
    requires forall t :: GlobMatch(pattern, t) <==>
                         GlobMatch(rest, t) || (t != "" && One(atom, t[0]) && GlobMatch(pattern, t[1..]))
    ensures Accepts(Compile(pattern), s) <==> GlobMatch(pattern, s)
    decreases |pattern|, |s|, 0
  {
    AcceptsThenStar(atom, Compile(rest), s);
    CompiledMatches(rest, s);
    if s != "" { StarMatches(pattern, rest, atom, s[1..]); }
  }

  lemma {:induction false} CompiledBelow(rest: string, s: string)
    ensures Accepts(Then(DIRECTORIES, Compile(rest)), s) <==> MatchBelow(rest, s)
    decreases |rest|, |s| + 1, 1
  {
    var r := Compile(rest);
    AcceptsRegrouped(Star(Dot), Then(Char('/'), Empty), r, s);
    BelowSlash(rest, s);
  }

  lemma {:induction false} BelowSlash(rest: string, s: string)
    ensures Accepts(Then(Star(Dot), Then(Then(Char('/'), Empty), Compile(rest))), s) <==> MatchBelow(rest, s)
    decreases |rest|, |s| + 1, 0
  {
    var r := Compile(rest);
    var slash := Then(Then(Char('/'), Empty), r);
    AcceptsThenStar(Dot, slash, s);
    AcceptsRegrouped(Char('/'), Empty, r, s);
    AcceptsThenAtom(Char('/'), Then(Empty, r), s);
    if s != "" {
      AcceptsThenEmpty(r, s[1..]);
      CompiledMatches(rest, s[1..]);
      BelowSlash(rest, s[1..]);
    }
  }
}
