/** What the deny patterns mean for a path name: which names each form of pattern
    covers, and exactly which names the default list keeps out. */
module DenyRules {
  import opened Wrappers
  import opened Regex
  import opened Glob

  predicate Literal(pattern: string) {
    '*' !in pattern && '?' !in pattern
  }

  predicate NoTerminator(s: string) {
    forall c | c in s :: !LineTerminator(c)
  }

  predicate EndsWith(s: string, suffix: string) {
    |suffix| <= |s| && s[|s| - |suffix|..] == suffix
  }

  // Separators of the platform, and its path functions.
  datatype Platform = Platform(sep: char, absolute: string -> bool, normalize: string -> string)

  function Slashed(s: string, sep: char): string {
    seq(|s|, i requires 0 <= i < |s| => if s[i] == sep then '/' else s[i])
  }

  ghost predicate Test(source: string, s: string) {
    Read(source).Some? && Accepts(Read(source).value, s)
  }

  ghost predicate MatchesDenyPattern(rel: string, pattern: string, sep: char) {
    var normalized := Slashed(pattern, sep);
    if '*' in normalized || '?' in normalized then Test(Anchored(Compile(normalized)), rel)
    else if EndsWith(normalized, "/**") then
      var prefix := normalized[..|normalized| - 3];
      rel == prefix || prefix + "/" <= rel
    else if "**/" <= normalized then
      var suffix := normalized[3..];
      rel == suffix || EndsWith(rel, "/" + suffix)
    else if EndsWith(normalized, ".*") then normalized[..|normalized| - 1] <= rel
    else rel == normalized
  }

  const DEFAULT_HARD_DENY := [
    ".git", ".git/**", ".env", ".env.*", "**/.env", "**/.env.*", ".ssh", ".ssh/**"]

  ghost predicate Denied(rel: string, hardDeny: seq<string>, sep: char) {
    exists k | 0 <= k < |hardDeny| :: MatchesDenyPattern(rel, hardDeny[k], sep)
  }

  ghost predicate IsAllowedRelativePath(rel: string, hardDeny: seq<string>, p: Platform) {
    && !p.absolute(rel) && '\0' !in rel
    && var normalized := p.normalize(Slashed(rel, p.sep));
       normalized != ".." && !("../" <= normalized) && !Denied(normalized, hardDeny, p.sep)
  }

  // ----------------------------------------------------- one rule for all

  lemma {:induction false} LiteralPrefix(p: string, rest: string, s: string)
    requires Literal(p)
    ensures GlobMatch(p + rest, s) <==> p <= s && GlobMatch(rest, s[|p|..])
  {
    if p == "" {
      assert p + rest == rest && s[0..] == s;
    } else {
      assert (p + rest)[0] == p[0] && (p + rest)[1..] == p[1..] + rest;
      if s != "" {
        LiteralPrefix(p[1..], rest, s[1..]);
        if |p| <= |s| { assert s[1..][|p| - 1..] == s[|p|..]; }
        assert p == [p[0]] + p[1..];
      }
    }
  }

  lemma LiteralMatches(p: string, s: string)
    requires Literal(p)
    ensures GlobMatch(p, s) <==> s == p
  {
    LiteralPrefix(p, "", s);
    assert p + "" == p;
    if p <= s && s[|p|..] == "" { assert s == p + s[|p|..]; }
  }

  // A pattern with a wild card always goes through the regular expression, so the
  // branches for a leading or trailing wild card never decide: every pattern means
  // what the direct matcher says.
  lemma DenyIsGlob(rel: string, pattern: string, sep: char)
    ensures MatchesDenyPattern(rel, pattern, sep) <==> GlobMatch(Slashed(pattern, sep), rel)
  {
    var n := Slashed(pattern, sep);
    if Literal(n) {
      LiteralMatches(n, rel);
      WildEnds(n);
    } else {
      ReadAnchored(Compile(n));
      CompiledMatches(n, rel);
    }
  }

  lemma WildEnds(n: string)
    ensures EndsWith(n, "/**") || EndsWith(n, ".*") || "**/" <= n ==> '*' in n
  {
    if EndsWith(n, "/**") { assert n[|n| - 3..][2] == n[|n| - 1]; }
    if EndsWith(n, ".*") { assert n[|n| - 2..][1] == n[|n| - 1]; }
    if "**/" <= n { assert n[0] == '*'; }
  }

  // --------------------------------------------------- forms of pattern

  lemma {:induction false} AnyTextMatches(s: string)
    ensures GlobMatch("**", s) <==> NoTerminator(s)
  {
    if s != "" {
      AnyTextMatches(s[1..]);
      assert s == [s[0]] + s[1..];
    }
  }

  lemma {:induction false} AnyNameMatches(s: string)
    ensures GlobMatch("*", s) <==> '/' !in s
  {
    if s != "" {
      AnyNameMatches(s[1..]);
      assert s == [s[0]] + s[1..];
    }
  }

  // Everything below a directory, as long as its name there has no line terminator.
  lemma DirectoryRule(p: string, s: string)
    requires Literal(p)
    ensures GlobMatch(p + "/**", s) <==> p + "/" <= s && NoTerminator(s[|p| + 1..])
  {
    var folder := p + "/";
    assert p + "/**" == folder + "**";
    LiteralPrefix(folder, "**", s);
    if folder <= s { AnyTextMatches(s[|folder|..]); }
  }

  // A directory and everything below it: the prefix rule, on names without line
  // terminators.
  lemma PrefixRule(p: string, s: string)
    requires Literal(p) && NoTerminator(s)
    ensures GlobMatch(p, s) || GlobMatch(p + "/**", s) <==> s == p || p + "/" <= s
  {
    LiteralMatches(p, s);
    DirectoryRule(p, s);
  }

  lemma ExtensionRule(p: string, s: string)
    requires Literal(p)
    ensures GlobMatch(p + "*", s) <==> p <= s && '/' !in s[|p|..]
  {
    LiteralPrefix(p, "*", s);
    if p <= s { AnyNameMatches(s[|p|..]); }
  }

  // A question mark at the end stands for one character that is no slash.
  lemma QuestionRule(p: string, s: string)
    requires Literal(p)
    ensures GlobMatch(p + "?", s) <==> |s| == |p| + 1 && p <= s && s[|p|] != '/'
  {
    LiteralPrefix(p, "?", s);
    if p <= s {
      var rest := s[|p|..];
      assert "?"[1..] == "";
      assert GlobMatch("?", rest) <==> rest != "" && rest[0] != '/' && GlobMatch("", rest[1..]);
    }
  }

  // The pattern matches what follows the slash at i.
  predicate MatchAfter(q: string, s: string, i: nat) {
    i < |s| && s[i] == '/' && NoTerminator(s[..i]) && GlobMatch(q, s[i + 1..])
  }

  lemma MatchAfterShift(q: string, s: string, i: nat)
    requires s != "" && i > 0
    ensures MatchAfter(q, s, i) <==> !LineTerminator(s[0]) && MatchAfter(q, s[1..], i - 1)
  {
    if i < |s| {
      assert s[..i] == [s[0]] + s[1..][..i - 1];
      assert s[1..][i..] == s[i + 1..];
    }
  }

  // A leading double star: the rest matches the whole name or what follows a slash.
  lemma {:induction false} BelowRule(q: string, s: string)
    ensures MatchBelow(q, s) <==> exists i :: MatchAfter(q, s, i)
  {
    if s != "" {
      BelowRule(q, s[1..]);
      if s[0] == '/' && GlobMatch(q, s[1..]) { assert MatchAfter(q, s, 0); }
      if !LineTerminator(s[0]) && MatchBelow(q, s[1..]) {
        var i: nat :| MatchAfter(q, s[1..], i);
        MatchAfterShift(q, s, i + 1);
      }
      if i: nat :| MatchAfter(q, s, i) {
        if i > 0 { MatchAfterShift(q, s, i); }
      }
    }
  }

  lemma DoubleStarRule(q: string, s: string)
    ensures GlobMatch("**/" + q, s) <==> GlobMatch(q, s) || exists i :: MatchAfter(q, s, i)
  {
    assert ("**/" + q)[3..] == q && "**/" <= "**/" + q;
    BelowRule(q, s);
  }

  // The suffix rule: a literal after a leading double star.
  lemma SuffixRule(q: string, s: string)
    requires Literal(q) && NoTerminator(s)
    ensures GlobMatch("**/" + q, s) <==> s == q || EndsWith(s, "/" + q)
  {
    DoubleStarRule(q, s);
    LiteralMatches(q, s);
    if EndsWith(s, "/" + q) {
      var i := |s| - |q| - 1;
      assert s[i..][0] == '/' && s[i..][1..] == q;
      assert s[i + 1..] == q;
      LiteralMatches(q, q);
      assert MatchAfter(q, s, i);
    }
    if i: nat :| MatchAfter(q, s, i) {
      LiteralMatches(q, s[i + 1..]);
      assert s[i..] == "/" + q;
    }
  }

  // ----------------------------------------------------- the default list

  function Folder(s: string): (r: string)
    ensures r <= s && (r == "" || r[|r| - 1] == '/') && forall k :: |r| <= k < |s| ==> s[k] != '/'
  {
    if s == "" then ""
    else if s[|s| - 1] == '/' then s
    else Folder(s[..|s| - 1])
  }

  function Name(s: string): string {
    s[|Folder(s)|..]
  }

  predicate Secret(name: string) {
    name == ".env" || ".env." <= name
  }

  // A pattern for names, after a leading double star: the name counts, and there
  // must be no line terminator in the folder.
  lemma NameRule(q: string, s: string)
    requires forall t :: GlobMatch(q, t) ==> '/' !in t
    ensures GlobMatch("**/" + q, s) <==> GlobMatch(q, Name(s)) && NoTerminator(Folder(s))
  {
    DoubleStarRule(q, s);
    if GlobMatch(q, s) { WholeName(s); }
    if i: nat :| MatchAfter(q, s, i) { FolderEnds(s, i); }
    if GlobMatch(q, Name(s)) && NoTerminator(Folder(s)) {
      if Folder(s) == "" {
        WholeName(s);
      } else {
        var i := |Folder(s)| - 1;
        assert Folder(s) == s[..i + 1] && s[..i] == Folder(s)[..i];
        assert MatchAfter(q, s, i);
      }
    }
  }

  lemma WholeName(s: string)
    ensures Folder(s) == "" <==> '/' !in s
    ensures Folder(s) == "" ==> Name(s) == s
  {
    if Folder(s) != "" { assert s[|Folder(s)| - 1] == '/'; }
  }

  lemma FolderEnds(s: string, i: nat)
    requires i < |s| && s[i] == '/' && '/' !in s[i + 1..]
    ensures Folder(s) == s[..i] + "/" && Name(s) == s[i + 1..]
  {
    LastSlash(s, Folder(s), i);
  }

  lemma LastSlash(s: string, f: string, i: nat)
    requires i < |s| && s[i] == '/' && '/' !in s[i + 1..]
    requires f <= s && (f == "" || f[|f| - 1] == '/') && forall k :: |f| <= k < |s| ==> s[k] != '/'
    ensures f == s[..i] + "/" && s[|f|..] == s[i + 1..]
  {
    assert forall k :: i < k < |s| ==> s[k] == s[i + 1..][k - i - 1] && s[k] != '/';
    assert forall k :: 0 <= k < |f| ==> s[k] == f[k];
    assert |f| == i + 1;
  }

  // Exactly the names the default list keeps out.
  lemma DefaultDenied(s: string)
    ensures Denied(s, DEFAULT_HARD_DENY, '/') <==>
            || s == ".git" || s == ".ssh"
            || ((".git/" <= s || ".ssh/" <= s) && NoTerminator(s))
            || (Secret(Name(s)) && NoTerminator(Folder(s)))
  {
    DeniedByGlob(s, DEFAULT_HARD_DENY);
    DefaultGlobs(s);
    HiddenDirectory(".git", s);
    HiddenDirectory(".ssh", s);
    SecretNames(s);
  }

  lemma DeniedByGlob(s: string, hardDeny: seq<string>)
    ensures Denied(s, hardDeny, '/') <==> exists k | 0 <= k < |hardDeny| :: GlobMatch(hardDeny[k], s)
  {
    forall k | 0 <= k < |hardDeny|
      ensures MatchesDenyPattern(s, hardDeny[k], '/') <==> GlobMatch(hardDeny[k], s)
    {
      DenyIsGlob(s, hardDeny[k], '/');
      assert Slashed(hardDeny[k], '/') == hardDeny[k];
    }
  }

  lemma DefaultGlobs(s: string)
    ensures (exists k | 0 <= k < |DEFAULT_HARD_DENY| :: GlobMatch(DEFAULT_HARD_DENY[k], s)) <==>
            || GlobMatch(".git", s) || GlobMatch(".git" + "/**", s)
            || GlobMatch(".ssh", s) || GlobMatch(".ssh" + "/**", s)
            || GlobMatch(".env", s) || GlobMatch(".env.*", s)
            || GlobMatch("**/" + ".env", s) || GlobMatch("**/" + ".env.*", s)
  {
    var d := DEFAULT_HARD_DENY;
    assert d[0] == ".git" && d[1] == ".git" + "/**" && d[6] == ".ssh" && d[7] == ".ssh" + "/**";
    assert d[2] == ".env" && d[3] == ".env.*" && d[4] == "**/" + ".env" && d[5] == "**/" + ".env.*";
    EightOf(d, s);
  }

  lemma EightOf(d: seq<string>, s: string)
    requires |d| == 8
    ensures (exists k | 0 <= k < |d| :: GlobMatch(d[k], s)) <==>
            || GlobMatch(d[0], s) || GlobMatch(d[1], s) || GlobMatch(d[2], s) || GlobMatch(d[3], s)
            || GlobMatch(d[4], s) || GlobMatch(d[5], s) || GlobMatch(d[6], s) || GlobMatch(d[7], s)
  {
  }

  lemma HiddenDirectory(p: string, s: string)
    requires Literal(p) && NoTerminator(p)
    ensures GlobMatch(p, s) || GlobMatch(p + "/**", s) <==> s == p || (p + "/" <= s && NoTerminator(s))
  {
    LiteralMatches(p, s);
    DirectoryRule(p, s);
    if p + "/" <= s { assert s == p + "/" + s[|p| + 1..]; }
  }

  lemma SecretNames(s: string)
    ensures GlobMatch(".env", s) || GlobMatch(".env.*", s) || GlobMatch("**/" + ".env", s)
            || GlobMatch("**/" + ".env.*", s)
            <==> Secret(Name(s)) && NoTerminator(Folder(s))
  {
    forall t ensures GlobMatch(".env", t) <==> t == ".env" { LiteralMatches(".env", t); }
    forall t ensures GlobMatch(".env.*", t) <==> ".env." <= t && '/' !in t {
      ExtensionRule(".env.", t);
      assert ".env.*" == ".env." + "*";
      if ".env." <= t { assert t == ".env." + t[5..]; }
    }
    NameRule(".env", s);
    NameRule(".env.*", s);
    if '/' !in s { assert Folder(s) == "" && Name(s) == s; }
  }

  lemma NoBackslash(s: string, pattern: string)
    requires '\\' !in pattern
    ensures MatchesDenyPattern(s, pattern, '\\') <==> MatchesDenyPattern(s, pattern, '/')
  {
    assert Slashed(pattern, '\\') == Slashed(pattern, '/');
  }

  lemma DefaultNoBackslash()
    ensures forall k | 0 <= k < |DEFAULT_HARD_DENY| :: '\\' !in DEFAULT_HARD_DENY[k]
  {
  }

  // No default pattern holds a backslash, so the separator of the platform does not change
  // what they deny.
  lemma SeparatorIsNoMatter(s: string, hardDeny: seq<string>)
    requires forall k | 0 <= k < |hardDeny| :: '\\' !in hardDeny[k]
    ensures Denied(s, hardDeny, '\\') <==> Denied(s, hardDeny, '/')
  {
    forall k | 0 <= k < |hardDeny|
      ensures MatchesDenyPattern(s, hardDeny[k], '\\') <==> MatchesDenyPattern(s, hardDeny[k], '/')
    {
      NoBackslash(s, hardDeny[k]);
    }
  }

  // What passes the check is inside the project and none of these names, whether the
  // platform separates by slashes or by backslashes.
  lemma AllowedMeansSafe(rel: string, p: Platform)
    requires p.sep == '/' || p.sep == '\\'
    ensures var normalized := p.normalize(Slashed(rel, p.sep));
            IsAllowedRelativePath(rel, DEFAULT_HARD_DENY, p) <==>
            && !p.absolute(rel) && '\0' !in rel && normalized != ".." && !("../" <= normalized)
            && normalized != ".git" && normalized != ".ssh"
            && (".git/" <= normalized || ".ssh/" <= normalized ==> !NoTerminator(normalized))
            && (Secret(Name(normalized)) ==> !NoTerminator(Folder(normalized)))
  {
    DefaultNoBackslash();
    SeparatorIsNoMatter(p.normalize(Slashed(rel, p.sep)), DEFAULT_HARD_DENY);
    DefaultDenied(p.normalize(Slashed(rel, p.sep)));
  }

  // The rule misses a name with a line terminator below the directory.
  lemma TerminatorIsMissed()
    ensures !Denied(".git/a\n", DEFAULT_HARD_DENY, '/')
  {
    var s := ".git/a\n";
    DefaultDenied(s);
    assert s[6] == '\n' && s[6] in s && s[5] == 'a';
    assert Folder(s[..5]) == ".git/";
    assert Folder(s[..6]) == Folder(s[..5]);
    assert Folder(s) == Folder(s[..6]);
  }
}
