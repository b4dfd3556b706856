/** What the queries of the timeline return, by positions in its rows. */
module TimelineQueries {
  import opened Wrappers
  import opened FeedTypes
  import opened Timeline
  import opened TimelineIndex

  // The row is asked for: of the run, if one is chosen, and an error, if only errors are.
  predicate Asked(e: Entry, run: Option<string>, errorsOnly: bool) {
    && (run.Some? ==> if e.runId.Some? then e.runId.value == run.value else run.value == NO_RUN)
    && (errorsOnly ==> e.error)
  }

  // The filtered view is the rows asked for, all of them and in order.
  lemma {:induction false} FilteredIsAsked(entries: seq<Entry>, run: Option<string>, errorsOnly: bool)
      returns (at: seq<nat>)
    ensures |at| == |Filtered(entries, run, errorsOnly)|
    ensures forall j, k | 0 <= j < k < |at| :: at[j] < at[k]
    ensures forall k | 0 <= k < |at| ::
              at[k] < |entries| && Asked(entries[at[k]], run, errorsOnly) &&
              Filtered(entries, run, errorsOnly)[k] == entries[at[k]]
    ensures forall i | 0 <= i < |entries| && Asked(entries[i], run, errorsOnly) :: i in at
  {
    if entries == [] {
      at := [];
    } else {
      var last := |entries| - 1;
      at := FilteredIsAsked(entries[..last], run, errorsOnly);
      if Asked(entries[last], run, errorsOnly) { at := at + [last]; }
    }
  }

  // The text occurs in the other somewhere.
  ghost predicate OccursIn(q: string, text: string) {
    exists i, j :: 0 <= i <= j <= |text| && text[i..j] == q
  }

  lemma ContainsIsOccurs(text: string, q: string)
    ensures Contains(text, q) <==> OccursIn(q, text)
  {
    if Contains(text, q) {
      var i :| 0 <= i <= |text| && q <= text[i..];
      assert text[i..i + |q|] == q;
    }
    if OccursIn(q, text) {
      var i, j :| 0 <= i <= j <= |text| && text[i..j] == q;
      assert text[i..][..|q|] == q;
    }
  }

  // The summary of an event row and its details, if it has any; the kept text of a message.
  predicate SearchedText(text: string, e: Entry, t: Texts) {
    if e.feedEvent.None? then text == e.searchText
    else
      var details := if e.details != "" then e.details else t.expansion(e.feedEvent.value);
      e.look.summary <= text &&
      (if details == "" then |text| == |e.look.summary|
       else text[|e.look.summary|..] == "\n" + details)
  }

  // A search finds, in order and once each, the rows in whose text the query occurs.
  lemma {:induction false} MatchesAreHits(entries: seq<Entry>, q: string, t: Texts)
    ensures var m := Matches(entries, q, t);
            && (forall j, k | 0 <= j < k < |m| :: m[j] < m[k])
            && forall i: nat :: i in m <==> i < |entries| && Hit(entries[i], q, t)
  {
    if entries != [] {
      var front := entries[..|entries| - 1];
      MatchesAreHits(front, q, t);
      assert forall k | 0 <= k < |Matches(front, q, t)| :: Matches(front, q, t)[k] in Matches(front, q, t);
    }
  }

  lemma HitIs(e: Entry, q: string, t: Texts) returns (text: string)
    ensures SearchedText(text, e, t) && (Hit(e, q, t) <==> OccursIn(q, t.lower(text)))
  {
    text := SearchText(e, t);
    ContainsIsOccurs(t.lower(text), q);
  }
}
