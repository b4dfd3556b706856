/** Which lines of a transcript become messages, and which text these carry. */
module TranscriptTexts {
  import opened Wrappers
  import opened Transcript

  // A text block that is not blank.
  predicate Speaks(b: Block, p: Parser) {
    b.TextBlock? && !p.blank(b.text)
  }

  // A line becomes a message exactly if it is a record of the assistant with text that is
  // not blank, and no block of it is broken; the time and the model are the record's.
  lemma MessageIff(line: seq<byte>, p: Parser)
    ensures MessageOf(line, p).Some? <==>
            && p.parse(line).Some? && p.parse(line).value.assistant
            && match p.parse(line).value.content
               case NoContent => false
               case Plain(text) => !p.blank(text)
               case Blocks(blocks) =>
                 (forall i | 0 <= i < |blocks| :: !blocks[i].BrokenBlock?) &&
                 exists i | 0 <= i < |blocks| :: Speaks(blocks[i], p)
    ensures MessageOf(line, p).Some? ==>
              var m, r := MessageOf(line, p).value, p.parse(line).value;
              && m.timestamp == r.timestamp && m.model == r.model
              && (r.content.Plain? ==> m.text == r.content.text)
              && (r.content.Blocks? ==> m.text == Joined(TextParts(r.content.blocks, p)))
  {
    if p.parse(line).Some? && p.parse(line).value.content.Blocks? {
      var blocks := p.parse(line).value.content.blocks;
      assert BrokenBlock in blocks <==> exists i | 0 <= i < |blocks| :: blocks[i].BrokenBlock?;
      SomePart(blocks, p);
    }
  }

  lemma SomePart(blocks: seq<Block>, p: Parser)
    ensures TextParts(blocks, p) != [] <==> exists i | 0 <= i < |blocks| :: Speaks(blocks[i], p)
  {
    var at := PartsAre(blocks, p);
    if TextParts(blocks, p) != [] { assert Speaks(blocks[at[0]], p); }
    if i :| 0 <= i < |blocks| && Speaks(blocks[i], p) { assert i in at; }
  }

  // The parts are the texts of the blocks that speak, in the order of the blocks.
  lemma {:induction false} PartsAre(blocks: seq<Block>, p: Parser) returns (at: seq<nat>)
    ensures |at| == |TextParts(blocks, p)|
    ensures forall j, k | 0 <= j < k < |at| :: at[j] < at[k]
    ensures forall k | 0 <= k < |at| ::
              at[k] < |blocks| && Speaks(blocks[at[k]], p) && TextParts(blocks, p)[k] == blocks[at[k]].text
    ensures forall i | 0 <= i < |blocks| && Speaks(blocks[i], p) :: i in at
  {
    if blocks == [] {
      at := [];
    } else {
      var last := |blocks| - 1;
      at := PartsAre(blocks[..last], p);
      if Speaks(blocks[last], p) { at := at + [last]; }
    }
  }

  // Where the k-th part begins.
  function PlaceOf(parts: seq<string>, k: nat): nat
    requires k <= |parts|
  {
    if k == 0 then 0 else |parts[0]| + 1 + PlaceOf(parts[1..], k - 1)
  }

  // The text of a message is its parts one after the other, each on a new line.
  lemma {:induction false} JoinedHolds(parts: seq<string>, k: nat)
    requires k < |parts|
    ensures var text, at := Joined(parts), PlaceOf(parts, k);
            && at + |parts[k]| <= |text| && text[at..at + |parts[k]|] == parts[k]
            && (k > 0 ==> at > 0 && text[at - 1] == '\n')
            && |text| + 1 == PlaceOf(parts, |parts|)
  {
    if |parts| == 1 {
      assert PlaceOf(parts[1..], 0) == 0;
    } else {
      var text, rest := Joined(parts), Joined(parts[1..]);
      JoinedHolds(parts[1..], if k == 0 then 0 else k - 1);
      assert text == parts[0] + "\n" + rest;
      if k > 0 {
        var at, before := PlaceOf(parts, k), |parts[0]| + 1;
        assert parts[1..][k - 1] == parts[k] && at == before + PlaceOf(parts[1..], k - 1);
        assert text[before..] == rest;
        assert text[at..at + |parts[k]|] == rest[at - before..at - before + |parts[k]|];
      }
    }
  }
}
