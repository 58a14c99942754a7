/** Turning a page's blocks into the `content` list of `get_page_content`:
    one entry per block whose payload has `rich_text` with non-empty joined
    text, tagged with the block's type. */
module Content {
  import opened Json
  import opened Notion

  /** `rt.get("plain_text", "")`: a missing `plain_text` counts as the empty string. */
  function PlainText(span: Span): string {
    span.plainText.GetOr("")
  }

  /** `"".join(rt.get("plain_text", "") for rt in spans)`. */
  function JoinedText(spans: seq<Span>): string {
    if spans == [] then "" else PlainText(spans[0]) + JoinedText(spans[1..])
  }

  /** Joining distributes over concatenation of span lists. */
  lemma {:induction false} JoinedTextAppend(a: seq<Span>, b: seq<Span>)
    ensures JoinedText(a + b) == JoinedText(a) + JoinedText(b)
  {
    if a == [] {
      assert a + b == b;
    } else {
      assert (a + b)[0] == a[0];
      assert (a + b)[1..] == a[1..] + b;
      JoinedTextAppend(a[1..], b);
    }
  }

  /** Each span's text sits, unchanged, between the text of the spans before
      it and the text of the spans after it: nothing is added, dropped or
      reordered. */
  lemma {:induction false} JoinedTextAround(spans: seq<Span>, i: int)
    requires 0 <= i < |spans|
    ensures JoinedText(spans) == JoinedText(spans[..i]) + PlainText(spans[i]) + JoinedText(spans[i + 1..])
  {
    var tail := [spans[i]] + spans[i + 1..];
    assert spans == spans[..i] + tail;
    JoinedTextAppend(spans[..i], tail);
    assert tail[1..] == spans[i + 1..];
    assert JoinedText(tail) == PlainText(spans[i]) + JoinedText(spans[i + 1..]);
  }

  /** The joined text is empty exactly when every span's text is empty. */
  lemma {:induction false} JoinedTextEmpty(spans: seq<Span>)
    ensures JoinedText(spans) == "" <==> forall i :: 0 <= i < |spans| ==> PlainText(spans[i]) == ""
  {
    if spans != [] {
      JoinedTextEmpty(spans[1..]);
      assert JoinedText(spans) == PlainText(spans[0]) + JoinedText(spans[1..]);
      if forall i :: 0 <= i < |spans| - 1 ==> PlainText(spans[1..][i]) == "" {
        forall i | 0 <= i < |spans| && JoinedText(spans) == "" ensures PlainText(spans[i]) == "" {
          if i == 0 {
            assert |PlainText(spans[0])| + |JoinedText(spans[1..])| == 0;
          } else {
            assert spans[i] == spans[1..][i - 1];
          }
        }
      }
    }
  }

  /** `block.get(block.get("type"), {})`: the payload stored under the block's own type. */
  function PayloadOf(block: Block): Payload {
    match block.kind
    case Some(k) => if k in block.payloads then block.payloads[k] else Payload(None)
    case None => Payload(None)
  }

  /** The block yields an entry: its payload has `rich_text` and the joined text is non-empty. */
  predicate Kept(block: Block) {
    PayloadOf(block).richText.Some? && JoinedText(PayloadOf(block).richText.value) != ""
  }

  /** One element of the `content` list. */
  datatype ContentEntry = ContentEntry(kind: string, text: string)

  function EntryOf(block: Block): ContentEntry
    requires Kept(block)
  {
    ContentEntry(block.kind.value, JoinedText(PayloadOf(block).richText.value))
  }

  /** The entries for a block list, built block by block from the front. */
  function ContentEntries(blocks: seq<Block>): seq<ContentEntry> {
    if blocks == [] then []
    else
      var last := blocks[|blocks| - 1];
      ContentEntries(blocks[..|blocks| - 1]) + (if Kept(last) then [EntryOf(last)] else [])
  }

  /** The positions of the kept blocks, in increasing order. */
  ghost function KeptIndices(blocks: seq<Block>): seq<nat> {
    if blocks == [] then []
    else KeptIndices(blocks[..|blocks| - 1]) + (if Kept(blocks[|blocks| - 1]) then [|blocks| - 1] else [])
  }

  /** `KeptIndices` lists, in increasing order, exactly the positions of the kept blocks. */
  lemma {:induction false} KeptIndicesAreKeptPositions(blocks: seq<Block>)
    ensures |KeptIndices(blocks)| <= |blocks|
    ensures forall i :: 0 <= i < |KeptIndices(blocks)| ==>
      KeptIndices(blocks)[i] < |blocks| && Kept(blocks[KeptIndices(blocks)[i]])
    ensures forall i, j :: 0 <= i < j < |KeptIndices(blocks)| ==> KeptIndices(blocks)[i] < KeptIndices(blocks)[j]
    ensures forall k :: 0 <= k < |blocks| && Kept(blocks[k]) ==> k in KeptIndices(blocks)
  {
    if blocks != [] {
      var n := |blocks| - 1;
      var front := blocks[..n];
      KeptIndicesAreKeptPositions(front);
      var idx := KeptIndices(front);
      assert KeptIndices(blocks) == idx + (if Kept(blocks[n]) then [n] else []);
      forall i | 0 <= i < |idx|
        ensures blocks[idx[i]] == front[idx[i]]
      {
      }
      forall k | 0 <= k < |blocks| && Kept(blocks[k])
        ensures k in KeptIndices(blocks)
      {
        if k < n {
          assert front[k] == blocks[k];
        }
      }
    }
  }

  /** Entry `i` of the content list is the entry of block `KeptIndices[i]`.
      With `KeptIndicesAreKeptPositions`: the content list is exactly the kept
      blocks, in their original order, each turned into its entry. */
  lemma {:induction false} ContentEntriesFollowKeptIndices(blocks: seq<Block>)
    ensures |ContentEntries(blocks)| == |KeptIndices(blocks)|
    ensures forall i :: 0 <= i < |KeptIndices(blocks)| ==>
      KeptIndices(blocks)[i] < |blocks| && Kept(blocks[KeptIndices(blocks)[i]]) &&
      ContentEntries(blocks)[i] == EntryOf(blocks[KeptIndices(blocks)[i]])
  {
    KeptIndicesAreKeptPositions(blocks);
    if blocks != [] {
      var n := |blocks| - 1;
      var front := blocks[..n];
      ContentEntriesFollowKeptIndices(front);
      KeptIndicesAreKeptPositions(front);
      var out, idx := ContentEntries(front), KeptIndices(front);
      assert ContentEntries(blocks) == out + (if Kept(blocks[n]) then [EntryOf(blocks[n])] else []);
      assert KeptIndices(blocks) == idx + (if Kept(blocks[n]) then [n] else []);
      forall i | 0 <= i < |idx|
        ensures blocks[idx[i]] == front[idx[i]]
      {
      }
    }
  }

  /** No entry has empty text. */
  lemma {:induction false} ContentEntriesNonEmpty(blocks: seq<Block>)
    ensures forall e :: e in ContentEntries(blocks) ==> e.text != ""
  {
    ContentEntriesFollowKeptIndices(blocks);
    forall e | e in ContentEntries(blocks) ensures e.text != "" {
      var i :| 0 <= i < |ContentEntries(blocks)| && ContentEntries(blocks)[i] == e;
    }
  }

  /** The extraction loop of `get_page_content`. */
  method ExtractContent(blocks: seq<Block>) returns (entries: seq<ContentEntry>)
    ensures entries == ContentEntries(blocks)
  {
    entries := [];
    for i := 0 to |blocks|
      invariant entries == ContentEntries(blocks[..i])
    {
      var block := blocks[i];
      var payload := PayloadOf(block);
      if payload.richText.Some? {
        var text := JoinedText(payload.richText.value);
        if text != "" {
          entries := entries + [ContentEntry(block.kind.value, text)];
        }
      }
      assert blocks[..i + 1][..i] == blocks[..i];
    }
    assert blocks[..|blocks|] == blocks;
  }
}
