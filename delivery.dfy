/**
 * Outbound delivery decision (`send_smart_response` in main.py): what the
 * bot sends to the chat for one answer text.
 */
module Delivery {
  import opened Text

  /** Above this many characters an answer is sent as a document. */
  const LongLimit := 2000
  /** Telegram's per-message size, used as the slice width of the chunking loop. */
  const ChunkSize := 4096
  /** The message sent just before a report document. */
  const ReportHeader := "\U{1F4DD} Here is your structured report:"
  /** The caption of the document (the file name itself carries a timestamp). */
  const DocumentCaption := "Meeting_Minutes.md"

  datatype Action =
    | SendMessage(text: string)
    | SendDocument(contents: string, caption: string)

  function Min(a: int, b: int): int { if a <= b then a else b }

  /** The answer looks like structured meeting notes. */
  predicate IsMeetingNotes(text: string)
  {
    Contains(text, "# Executive Summary") || Contains(text, "###")
  }

  /** The answer is delivered as a document rather than as chat messages. */
  predicate IsReport(text: string)
  {
    IsMeetingNotes(text) || |text| > LongLimit
  }

  /** The strings of `chunks` joined in order. */
  function Concat(chunks: seq<string>): string
  {
    if chunks == [] then [] else chunks[0] + Concat(chunks[1..])
  }

  /** The slice `text[x:x+4096]`, clamped at the end of the text as Python slices are. */
  function Slice(text: string, x: nat): (r: string)
    requires x <= |text|
    ensures r <= text[x..] && |r| <= ChunkSize
    ensures |r| < ChunkSize ==> x + |r| == |text|
  {
    text[x..Min(x + ChunkSize, |text|)]
  }

  /** The slices `text[x:x+4096]` for the offsets of `range(x, len(text), 4096)`. */
  function ChunksFrom(text: string, x: nat): seq<string>
    decreases |text| - x
  {
    if x >= |text| then [] else [Slice(text, x)] + ChunksFrom(text, x + ChunkSize)
  }

  /** What the loop sends: one slice per offset of `range(0, len(text), 4096)`. */
  function Chunks(text: string): (r: seq<string>)
    ensures Concat(r) == text
    ensures forall k :: 0 <= k < |r| ==> 0 < |r[k]| <= ChunkSize
    ensures r == [] <==> text == []
  {
    ChunksJoin(text, 0);
    ChunksBounded(text, 0);
    ChunksFrom(text, 0)
  }

  /** The chunks from offset `x` join back into `text[x..]`. */
  lemma {:induction false} ChunksJoin(text: string, x: nat)
    requires x <= |text|
    ensures Concat(ChunksFrom(text, x)) == text[x..]
    decreases |text| - x
  {
    if x < |text| {
      var y := Min(x + ChunkSize, |text|);
      ChunksJoin(text, y);
      if y < x + ChunkSize {
        assert ChunksFrom(text, x + ChunkSize) == [] && text[y..] == [];
      }
      assert text[x..] == text[x..y] + text[y..];
    }
  }

  /** Every chunk is non-empty and at most 4096 long, and there are ceil((len - x) / 4096) of them. */
  lemma {:induction false} ChunksBounded(text: string, x: nat)
    requires x <= |text|
    ensures forall k :: 0 <= k < |ChunksFrom(text, x)| ==> 0 < |ChunksFrom(text, x)[k]| <= ChunkSize
    ensures x == |text| <==> ChunksFrom(text, x) == []
    ensures x < |text| ==> (|ChunksFrom(text, x)| - 1) * ChunkSize < |text| - x <= |ChunksFrom(text, x)| * ChunkSize
    decreases |text| - x
  {
    if x + ChunkSize < |text| {
      ChunksBounded(text, x + ChunkSize);
    }
  }

  /** Chunk `k` is exactly the slice the loop takes at offset `4096 * k`. */
  lemma {:induction false} ChunkAt(text: string, x: nat, k: nat)
    requires x <= |text| && k < |ChunksFrom(text, x)|
    ensures x + k * ChunkSize < |text|
    ensures ChunksFrom(text, x)[k] == Slice(text, x + k * ChunkSize)
    decreases k
  {
    if k > 0 {
      ChunkAt(text, x + ChunkSize, k - 1);
    }
  }

  /** One chat message per chunk, in order. */
  function MessagesOf(chunks: seq<string>): (r: seq<Action>)
    ensures |r| == |chunks| && forall k :: 0 <= k < |r| ==> r[k] == SendMessage(chunks[k])
  {
    if chunks == [] then [] else [SendMessage(chunks[0])] + MessagesOf(chunks[1..])
  }

  /** The chunking loop of the plain-message branch. */
  method ChunkMessages(text: string) returns (sent: seq<string>)
    ensures sent == Chunks(text)
    ensures Concat(sent) == text
    ensures forall k :: 0 <= k < |sent| ==> 0 < |sent[k]| <= ChunkSize
  {
    sent := [];
    var x := 0;
    while x < |text|
      invariant sent + ChunksFrom(text, x) == Chunks(text)
      decreases |text| - x
    {
      assert ChunksFrom(text, x) == [Slice(text, x)] + ChunksFrom(text, x + ChunkSize);
      assert sent + ChunksFrom(text, x) == (sent + [Slice(text, x)]) + ChunksFrom(text, x + ChunkSize);
      sent := sent + [text[x..Min(x + ChunkSize, |text|)]];
      x := x + ChunkSize;
    }
  }

  /**
   * What `send_smart_response(text)` sends. The chunking branch is kept as
   * written; the ensures show it is never taken.
   */
  function Delivery(text: string): (acts: seq<Action>)
    ensures acts == [] <==> text == []
    ensures text != [] && IsReport(text) ==>
              acts == [SendMessage(ReportHeader), SendDocument(text, DocumentCaption)]
    ensures text != [] && !IsReport(text) ==> acts == [SendMessage(text)]
    ensures forall k :: 0 <= k < |acts| && acts[k].SendMessage? ==> |acts[k].text| <= ChunkSize
  {
    if text == [] then []
    else if IsReport(text) then
      [SendMessage(ReportHeader), SendDocument(text, DocumentCaption)]
    else if |text| > ChunkSize then MessagesOf(Chunks(text))
    else [SendMessage(text)]
  }

  /** Every non-empty answer reaches the chat whole: as the document, or as the one message. */
  lemma DeliveryCarriesText(text: string)
    requires text != []
    ensures SendDocument(text, DocumentCaption) in Delivery(text) || Delivery(text) == [SendMessage(text)]
    ensures IsReport(text) <==> SendDocument(text, DocumentCaption) in Delivery(text)
  {
  }
}
