/** The fragment of JavaScript regular expressions the artifact patterns compile to:
    what an expression matches, how it is written, and how its text is read back. */
module Regex {
  import opened Wrappers

  datatype Regex =
    | Empty
    | Char(c: char)
    | Dot
    | NotSlash
    | Star(body: Regex)
    | Maybe(body: Regex)
    | Then(first: Regex, rest: Regex)

  predicate LineTerminator(c: char) {
    c == '\n' || c == '\r' || c == '\U{2028}' || c == '\U{2029}'
  }

  // The whole text is matched; the dot stops at line terminators.
  ghost predicate Accepts(r: Regex, s: string)
    decreases r, |s|, 1
  {
    match r
    case Empty => s == ""
    case Char(c) => s == [c]
    case Dot => |s| == 1 && !LineTerminator(s[0])
    case NotSlash => |s| == 1 && s[0] != '/'
    case Star(_) => s == "" || exists i: nat :: Repeats(r, s, i)
    case Maybe(body) => s == "" || Accepts(body, s)
    case Then(_, _) => exists i: nat :: Splits(r, s, i)
  }

  ghost predicate Repeats(r: Regex, s: string, i: nat)
    requires r.Star?
    decreases r, |s|, 0
  {
    0 < i <= |s| && Accepts(r.body, s[..i]) && Accepts(r, s[i..])
  }

  ghost predicate Splits(r: Regex, s: string, i: nat)
    requires r.Then?
    decreases r, |s|, 0
  {
    i <= |s| && Accepts(r.first, s[..i]) && Accepts(r.rest, s[i..])
  }

  // -------------------------------------------------- written out and read

  const SYNTAX := "\\^$.*+?()[]{}|"

  function Escaped(c: char): string {
    if c in SYNTAX then ['\\', c] else [c]
  }

  predicate Atom(r: Regex) {
    r.Char? || r.Dot? || r.NotSlash?
  }

  // Terms in a row, a repetition being of one atom: what can be written without
  // more brackets than those of an optional group.
  predicate Writable(r: Regex) {
    match r
    case Empty => true
    case Then(first, rest) =>
      Writable(rest) &&
      (Atom(first) || (first.Star? && Atom(first.body)) || (first.Maybe? && Writable(first.body)))
    case _ => false
  }

  function WriteAtom(r: Regex): string
    requires Atom(r)
  {
    match r
    case Char(c) => Escaped(c)
    case Dot => "."
    case NotSlash => "[^/]"
  }

  function Write(r: Regex): string
    requires Writable(r)
  {
    if r.Empty? then ""
    else WriteTerm(r.first) + Write(r.rest)
  }

  function WriteTerm(t: Regex): string
    requires Atom(t) || (t.Star? && Atom(t.body)) || (t.Maybe? && Writable(t.body))
  {
    if Atom(t) then WriteAtom(t)
    else if t.Star? then WriteAtom(t.body) + "*"
    else "(?:" + Write(t.body) + ")?"
  }

  function Anchored(r: Regex): string
    requires Writable(r)
  {
    "^" + Write(r) + "$"
  }

  // Reads terms up to the end or a closing bracket.
  function ReadTerms(s: string): (result: Option<(Regex, string)>)
    ensures result.Some? ==> |result.value.1| <= |s|
    decreases |s|, 1
  {
    if s == "" || s[0] == ')' then Some((Empty, s))
    else
      var atom := ReadAtom(s);
      if atom.None? then None
      else
        var (term, more) := Quantified(atom.value.0, atom.value.1);
        var tail := ReadTerms(more);
        if tail.None? then None else Some((Then(term, tail.value.0), tail.value.1))
  }

  function Quantified(atom: Regex, more: string): (result: (Regex, string))
    ensures |result.1| <= |more|
  {
    if more != "" && more[0] == '*' then (Star(atom), more[1..])
    else if more != "" && more[0] == '?' then (Maybe(atom), more[1..])
    else (atom, more)
  }

  function ReadAtom(s: string): (result: Option<(Regex, string)>)
    requires s != ""
    ensures result.Some? ==> |result.value.1| < |s|
    decreases |s|, 0
  {
    if s[0] == '.' then Some((Dot, s[1..]))
    else if "[^/]" <= s then Some((NotSlash, s[4..]))
    else if "(?:" <= s then
      var inner := ReadTerms(s[3..]);
      if inner.Some? && inner.value.1 != "" && inner.value.1[0] == ')'
      then Some((inner.value.0, inner.value.1[1..])) else None
    else if s[0] == '\\' then
      if |s| > 1 && s[1] in SYNTAX then Some((Char(s[1]), s[2..])) else None
    else if s[0] in SYNTAX then None
    else Some((Char(s[0]), s[1..]))
  }

  function Read(source: string): Option<Regex> {
    if |source| < 2 || source[0] != '^' || source[|source| - 1] != '$' then None
    else
      var body := ReadTerms(source[1..|source| - 1]);
      if body.Some? && body.value.1 == "" then Some(body.value.0) else None
  }

  // Nothing that follows a term can be taken for its quantifier.
  predicate Continues(s: string) {
    s == "" || (s[0] != '*' && s[0] != '?')
  }

  lemma WriteContinues(r: Regex, after: string)
    requires Writable(r) && Continues(after)
    ensures Continues(Write(r) + after)
  {
    if r.Empty? {
      assert Write(r) + after == after;
    } else if r.first.Maybe? {
      assert WriteTerm(r.first)[0] == '(';
    } else {
      var atom := if r.first.Star? then r.first.body else r.first;
      assert WriteAtom(atom)[0] != '*' && WriteAtom(atom)[0] != '?';
      assert WriteTerm(r.first)[0] == WriteAtom(atom)[0];
    }
  }

  lemma ReadWrittenAtom(atom: Regex, after: string)
    requires Atom(atom)
    ensures var s := WriteAtom(atom) + after;
            s != "" && s[0] != ')' && ReadAtom(s) == Some((atom, after))
  {
    var s := WriteAtom(atom) + after;
    match atom {
      case Char(c) =>
        if c in SYNTAX { assert s[2..] == after; } else { assert s[1..] == after; }
      case Dot => assert s[1..] == after;
      case NotSlash => assert s[..4] == "[^/]" && s[4..] == after;
    }
  }

  // What is written is read back, whatever the literals.
  lemma {:induction false} ReadWritten(r: Regex, after: string)
    requires Writable(r) && (after == "" || after[0] == ')')
    ensures ReadTerms(Write(r) + after) == Some((r, after))
    decreases r
  {
    if r.Empty? {
      assert Write(r) + after == after;
    } else {
      var more := Write(r.rest) + after;
      WriteContinues(r.rest, after);
      ReadWritten(r.rest, after);
      assert Write(r) + after == WriteTerm(r.first) + more;
      ReadWrittenTerm(r.first, r.rest, more, after);
    }
  }

  lemma {:induction false} ReadWrittenTerm(t: Regex, rest: Regex, more: string, after: string)
    requires Atom(t) || (t.Star? && Atom(t.body)) || (t.Maybe? && Writable(t.body))
    requires Continues(more) && ReadTerms(more) == Some((rest, after))
    ensures ReadTerms(WriteTerm(t) + more) == Some((Then(t, rest), after))
    decreases t
  {
    if Atom(t) {
      ReadWrittenAtom(t, more);
      ReadFirst(WriteTerm(t) + more, t, more, t, more, rest, after);
    } else if t.Star? {
      ReadStar(t.body, rest, more, after);
      StarText(WriteAtom(t.body), more);
    } else {
      ReadWritten(t.body, ")?" + more);
      ReadMaybe(Write(t.body) + (")?" + more), t.body, rest, more, after);
      GroupText(Write(t.body), more);
    }
  }

  lemma StarText(atom: string, more: string)
    ensures (atom + "*") + more == atom + ("*" + more)
  {
  }

  lemma GroupText(body: string, more: string)
    ensures ("(?:" + body + ")?") + more == "(?:" + (body + (")?" + more))
  {
  }

  lemma ReadStar(atom: Regex, rest: Regex, more: string, after: string)
    requires Atom(atom) && ReadTerms(more) == Some((rest, after))
    ensures ReadTerms(WriteAtom(atom) + ("*" + more)) == Some((Then(Star(atom), rest), after))
  {
    var marked := "*" + more;
    assert marked[1..] == more;
    ReadWrittenAtom(atom, marked);
    ReadFirst(WriteAtom(atom) + marked, atom, marked, Star(atom), more, rest, after);
  }

  lemma ReadMaybe(inner: string, body: Regex, rest: Regex, more: string, after: string)
    requires ReadTerms(inner) == Some((body, ")?" + more)) && ReadTerms(more) == Some((rest, after))
    ensures ReadTerms("(?:" + inner) == Some((Then(Maybe(body), rest), after))
  {
    var closed, marked := ")?" + more, "?" + more;
    assert closed[1..] == marked && marked[1..] == more;
    ReadGroup(inner, body, closed);
    ReadFirst("(?:" + inner, body, marked, Maybe(body), more, rest, after);
  }

  lemma ReadGroup(inner: string, body: Regex, closed: string)
    requires ReadTerms(inner) == Some((body, closed)) && closed != "" && closed[0] == ')'
    ensures ReadAtom("(?:" + inner) == Some((body, closed[1..]))
  {
    var s := "(?:" + inner;
    assert s[..3] == "(?:" && s[3..] == inner;
  }

  lemma ReadFirst(s: string, atom: Regex, marked: string, term: Regex, more: string, rest: Regex, after: string)
    requires s != "" && s[0] != ')' && ReadAtom(s) == Some((atom, marked))
    requires Quantified(atom, marked) == (term, more) && ReadTerms(more) == Some((rest, after))
    ensures ReadTerms(s) == Some((Then(term, rest), after))
  {
  }

  lemma ReadAnchored(r: Regex)
    requires Writable(r)
    ensures Read(Anchored(r)) == Some(r)
  {
    var source := Anchored(r);
    assert source[1..|source| - 1] == Write(r) + "";
    ReadWritten(r, "");
  }
}
