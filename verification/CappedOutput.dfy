/** Output accumulation under a byte cap: the per-stream effect of `_PendingCommand.append`, the local process reader
    and the connector's pump. */
module CappedOutput {
  import opened Prelude
  import opened Utf8

  /** One captured stream of a pending command: the text chunks kept so far, the byte counter, the truncated flag. */
  datatype Stream = Stream(chunks: seq<string>, bytes: nat, truncated: bool)

  const EMPTY := Stream([], 0, false)

  /** Effect of one message on one stream. `None` is "no cap"; a cap of zero or less keeps nothing. */
  function Accept(cap: Option<int>, st: Stream, text: string): Stream {
    if cap.Some? && cap.value - st.bytes <= 0 then st.(truncated := true)
    else if cap.Some? && cap.value - st.bytes < |Encode(text)| then
      var kept := Truncated(text, cap.value - st.bytes);
      Stream(st.chunks + [kept], st.bytes + |Encode(kept)|, true)
    else
      Stream(st.chunks + [text], st.bytes + |Encode(text)|, st.truncated)
  }

  function AcceptAll(cap: Option<int>, texts: seq<string>): Stream {
    if texts == [] then EMPTY
    else Accept(cap, AcceptAll(cap, texts[..|texts| - 1]), texts[|texts| - 1])
  }

  function Text(st: Stream): string {
    Concat(st.chunks)
  }

  /** The reference: encode everything, cut once, decode once. */
  function OneShot(cap: Option<int>, all: string): string {
    if cap.None? then all else Truncated(all, Max(0, cap.value))
  }

  /** When the flag must be set: the cap is exceeded, or some message (possibly empty) met an already full buffer. */
  predicate Overflowed(cap: Option<int>, texts: seq<string>) {
    && cap.Some?
    && texts != []
    && (|| cap.value < |Encode(Concat(texts))|
        || cap.value <= |Encode(Concat(texts[..|texts| - 1]))|)
  }

  /** A text that does not fit after `a` truncates to `a` followed by its own truncation. */
  lemma TruncatedAppend(a: string, b: string, n: nat)
    requires |Encode(a)| <= n
    ensures Truncated(a + b, n) == a + Truncated(b, n - |Encode(a)|)
  {
    hide Encode, Decode;
    EncodeAppend(a, b);
    var cut := Min(n - |Encode(a)|, |Encode(b)|);
    assert Encode(a + b)[..Min(n, |Encode(a + b)|)] == Encode(a) + Encode(b)[..cut];
    DecodeEncodedPrefix(a, Encode(b)[..cut]);
  }

  /** Text past a full buffer changes nothing. */
  lemma TruncatedPastFull(a: string, b: string, n: nat)
    requires n <= |Encode(a)|
    ensures Truncated(a + b, n) == Truncated(a, n)
  {
    EncodeAppend(a, b);
    assert Encode(a + b)[..n] == Encode(a)[..n];
  }

  /** The stream holds the one-shot text of `all`, and its counter is the UTF-8 length of that text. */
  predicate Holds(cap: Option<int>, st: Stream, all: string) {
    && Text(st) == OneShot(cap, all)
    && st.bytes == |Encode(Text(st))|
  }

  lemma AppendChunk(st: Stream, kept: string)
    ensures Concat(st.chunks + [kept]) == Text(st) + kept
    ensures |Encode(Text(st) + kept)| == |Encode(Text(st))| + |Encode(kept)|
  {
    ConcatSnoc(st.chunks, kept);
    EncodeAppend(Text(st), kept);
  }

  lemma AcceptHolds(cap: Option<int>, st: Stream, a: string, text: string)
    requires Holds(cap, st, a)
    ensures Holds(cap, Accept(cap, st, text), a + text)
  {
    hide Encode, Truncated, Concat;
    if cap.None? {
      AppendChunk(st, text);
    } else {
      var n := Max(0, cap.value);
      KeptBytes(a, n);
      if n <= |Encode(a)| {
        TruncatedPastFull(a, text, n);
      } else {
        TruncatedShape(a, n);
        TruncatedAppend(a, text, n);
        TruncatedShape(text, n - |Encode(a)|);
        AppendChunk(st, text);
        AppendChunk(st, Truncated(text, n - |Encode(a)|));
      }
    }
  }

  /** Accumulating message by message keeps exactly the one-shot text; the counter is the UTF-8 length of what was
      kept and overshoots the cap by at most two bytes. */
  lemma {:induction false} AcceptAllIsOneShot(cap: Option<int>, texts: seq<string>)
    ensures var st := AcceptAll(cap, texts);
            && Text(st) == OneShot(cap, Concat(texts))
            && st.bytes == |Encode(Text(st))|
            && (cap.Some? ==> st.bytes <= Max(0, cap.value) + 2)
  {
    if texts == [] {
      assert Concat(texts) == "" && Encode("") == [] && Decode([]) == "";
    } else {
      var init, last := texts[..|texts| - 1], texts[|texts| - 1];
      assert texts == init + [last];
      AcceptAllIsOneShot(cap, init);
      AcceptHolds(cap, AcceptAll(cap, init), Concat(init), last);
      ConcatSnoc(init, last);
    }
    if cap.Some? {
      KeptAtMost(Concat(texts), Max(0, cap.value));
    }
  }

  /** The truncated flag is set exactly when `Overflowed`. */
  lemma {:induction false} TruncatedExactly(cap: Option<int>, texts: seq<string>)
    ensures AcceptAll(cap, texts).truncated <==> Overflowed(cap, texts)
  {
    if texts != [] {
      var init, last := texts[..|texts| - 1], texts[|texts| - 1];
      assert texts == init + [last];
      TruncatedExactly(cap, init);
      AcceptAllIsOneShot(cap, init);
      ConcatSnoc(init, last);
      EncodeAppend(Concat(init), last);
      if init != [] {
        OverflowedEarlier(cap, init);
      }
      if cap.Some? {
        KeptBytes(Concat(init), Max(0, cap.value));
        TruncatedShape(Concat(init), Max(0, cap.value));
      }
    }
  }

  /** The kept text reaches the cap exactly when the input does. */
  lemma KeptBytes(all: string, n: nat)
    ensures n <= |Encode(Truncated(all, n))| <==> n <= |Encode(all)|
  {
    TruncatedShape(all, n);
    if n < |Encode(all)| {
      TruncatedBytes(all, n);
    }
  }

  lemma KeptAtMost(all: string, n: nat)
    ensures |Encode(Truncated(all, n))| <= n + 2
  {
    TruncatedShape(all, n);
    if n < |Encode(all)| {
      TruncatedBytes(all, n);
    }
  }

  lemma OverflowedEarlier(cap: Option<int>, init: seq<string>)
    requires init != []
    ensures Overflowed(cap, init) ==> cap.value <= |Encode(Concat(init))|
  {
    var shorter := init[..|init| - 1];
    assert init == shorter + [init[|init| - 1]];
    ConcatSnoc(shorter, init[|init| - 1]);
    EncodeAppend(Concat(shorter), init[|init| - 1]);
  }

  // --- byte readers ------------------------------------------------------------------------------------------------

  /** A process pipe: `Read` returns the next nonempty chunk, and an empty chunk at end of file only. */
  class ByteStream {
    const chunks: seq<Bytes>
    var at: nat

    ghost predicate Valid()
      reads this
    {
      at <= |chunks| && forall i :: 0 <= i < |chunks| ==> chunks[i] != []
    }

    constructor (chunks: seq<Bytes>)
      requires forall i :: 0 <= i < |chunks| ==> chunks[i] != []
      ensures Valid() && this.chunks == chunks && at == 0
    {
      this.chunks := chunks;
      at := 0;
    }

    method Read() returns (chunk: Bytes)
      requires Valid()
      modifies this
      ensures Valid()
      ensures old(at) == |chunks| ==> chunk == [] && at == old(at)
      ensures old(at) < |chunks| ==> chunk == chunks[old(at)] && chunk != [] && at == old(at) + 1
    {
      if at == |chunks| {
        chunk := [];
      } else {
        chunk := chunks[at];
        at := at + 1;
      }
    }
  }

  /** The first `cap` bytes of `bs`; everything when there is no cap, nothing when the cap is negative. */
  function Prefix(cap: Option<int>, bs: Bytes): Bytes {
    if cap.None? then bs else bs[..Min(Max(0, cap.value), |bs|)]
  }

  /** What a capped byte loop holds after some chunks: pieces kept, bytes kept, excess seen. */
  datatype Capped = Capped(kept: seq<Bytes>, total: nat, exceeded: bool)

  function Absorb(cap: Option<int>, c: Capped, chunk: Bytes): Capped {
    if cap.Some? && cap.value - c.total <= 0 then c.(exceeded := true)
    else if cap.Some? && cap.value - c.total < |chunk| then
      Capped(c.kept + [chunk[..cap.value - c.total]], cap.value, true)
    else
      Capped(c.kept + [chunk], c.total + |chunk|, c.exceeded)
  }

  /** The state after the first `n` chunks. */
  function AbsorbFirst(cap: Option<int>, chunks: seq<Bytes>, n: nat): Capped
    requires n <= |chunks|
  {
    if n == 0 then Capped([], 0, false)
    else Absorb(cap, AbsorbFirst(cap, chunks, n - 1), chunks[n - 1])
  }

  lemma PrefixGrows(cap: int, seen: Bytes, chunk: Bytes)
    ensures Prefix(Some(cap), seen + chunk) ==
            Prefix(Some(cap), seen) +
            (if cap - |Prefix(Some(cap), seen)| <= 0 then []
             else chunk[..Min(cap - |Prefix(Some(cap), seen)|, |chunk|)])
  {
  }

  /** For every chunking: exactly the first `cap` bytes are kept and excess is flagged iff the stream is longer. */
  lemma {:induction false} AbsorbIsPrefix(cap: Option<int>, chunks: seq<Bytes>, n: nat)
    requires n <= |chunks|
    requires forall i :: 0 <= i < |chunks| ==> chunks[i] != []
    ensures var c, all := AbsorbFirst(cap, chunks, n), Concat(chunks[..n]);
            && Concat(c.kept) == Prefix(cap, all)
            && c.total == |Concat(c.kept)|
            && (c.exceeded <==> cap.Some? && Max(0, cap.value) < |all|)
  {
    assert Concat<byte>([]) == [];
    hide Concat;
    if n > 0 {
      var before, last := AbsorbFirst(cap, chunks, n - 1), chunks[n - 1];
      AbsorbIsPrefix(cap, chunks, n - 1);
      assert chunks[..n] == chunks[..n - 1] + [last];
      ConcatSnoc(chunks[..n - 1], last);
      ConcatSnoc(before.kept, last);
      if cap.Some? {
        PrefixGrows(cap.value, Concat(chunks[..n - 1]), last);
        if 0 < cap.value - before.total < |last| {
          ConcatSnoc(before.kept, last[..cap.value - before.total]);
        }
      }
    }
  }

  class CappedReader {
    const stream: ByteStream?
    const maxBytes: Option<int>
    var kept: seq<Bytes>
    var total: nat
    var exceeded: bool

    constructor (stream: ByteStream?, maxBytes: Option<int>)
      ensures this.stream == stream && this.maxBytes == maxBytes
      ensures Value() == Capped([], 0, false)
    {
      this.stream := stream;
      this.maxBytes := maxBytes;
      kept, total, exceeded := [], 0, false;
    }

    function Value(): Capped
      reads this
    {
      Capped(kept, total, exceeded)
    }

    /** Drains the pipe and keeps exactly the first `maxBytes` bytes, however the pipe was chunked. */
    method ReadAll()
      requires stream != null ==> stream.Valid() && stream.at == 0
      requires Value() == Capped([], 0, false)
      modifies this, stream
      ensures stream == null ==> Value() == old(Value())
      ensures stream != null ==> stream.at == |stream.chunks|
      ensures stream != null ==>
                var all := Concat(stream.chunks);
                && Concat(kept) == Prefix(maxBytes, all)
                && total == |Concat(kept)|
                && (exceeded <==> maxBytes.Some? && Max(0, maxBytes.value) < |all|)
    {
      if stream == null {
        return;
      }
      while true
        invariant stream.Valid()
        invariant Value() == AbsorbFirst(maxBytes, stream.chunks, stream.at)
        decreases |stream.chunks| - stream.at
      {
        var chunk := stream.Read();
        if chunk == [] {
          break;
        }
        if maxBytes.None? {
          kept, total := kept + [chunk], total + |chunk|;
          continue;
        }
        var remaining := maxBytes.value - total;
        if remaining <= 0 {
          exceeded := true;
          continue;
        }
        if |chunk| > remaining {
          kept, total, exceeded := kept + [chunk[..remaining]], total + remaining, true;
        } else {
          kept, total := kept + [chunk], total + |chunk|;
        }
      }
      AbsorbIsPrefix(maxBytes, stream.chunks, stream.at);
      assert stream.chunks[..stream.at] == stream.chunks;
    }

    /** `text`: what the process output reads as. */
    function Text(): string
      reads this
    {
      Decode(Concat(kept))
    }
  }

  // --- the connector's pump ----------------------------------------------------------------------------------------

  function DecodeEach(pieces: seq<Bytes>): seq<string> {
    if pieces == [] then []
    else DecodeEach(pieces[..|pieces| - 1]) + [Decode(pieces[|pieces| - 1])]
  }

  lemma NothingDecoded()
    ensures DecodeEach([]) == []
  {
  }

  lemma DecodeEachNext(pieces: seq<Bytes>, piece: Bytes)
    ensures DecodeEach(pieces + [piece]) == DecodeEach(pieces) + [Decode(piece)]
  {
    assert (pieces + [piece])[..|pieces|] == pieces;
  }

  lemma PumpedAll(cap: nat, chunks: seq<Bytes>)
    requires forall i :: 0 <= i < |chunks| ==> chunks[i] != []
    ensures var c := AbsorbFirst(Some(cap), chunks, |chunks|);
            && Concat(c.kept) == Prefix(Some(cap), Concat(chunks))
            && c.total == |Concat(c.kept)|
            && (c.exceeded <==> cap < |Concat(chunks)|)
  {
    AbsorbIsPrefix(Some(cap), chunks, |chunks|);
    assert chunks[..|chunks|] == chunks;
  }

  /** One stream of one command: drains it, and forwards the capped prefix piece by piece, each piece decoded on its
      own. `pieces` names the bytes behind each text sent. */
  method Pump(stream: ByteStream?, cap: nat)
    returns (sent: seq<string>, used: nat, truncated: bool, ghost pieces: seq<Bytes>)
    requires stream != null ==> stream.Valid() && stream.at == 0
    modifies stream
    ensures stream == null ==> sent == []
    ensures stream != null ==> stream.at == |stream.chunks|
    ensures stream != null ==>
              var all := Concat(stream.chunks);
              && sent == DecodeEach(pieces)
              && pieces == AbsorbFirst(Some(cap), stream.chunks, |stream.chunks|).kept
              && Concat(pieces) == Prefix(Some(cap), all)
              && used == |Concat(pieces)|
              && (truncated <==> cap < |all|)
  {
    hide DecodeEach, Decode, Concat, Prefix;
    sent, used, truncated, pieces := [], 0, false, [];
    if stream == null {
      return;
    }
    ghost var c := Capped([], 0, false);
    NothingDecoded();
    while true
      invariant stream.Valid()
      invariant sent == DecodeEach(pieces)
      invariant c == AbsorbFirst(Some(cap), stream.chunks, stream.at)
      invariant c.kept == pieces && c.total == used && c.exceeded == truncated
      decreases |stream.chunks| - stream.at
    {
      var chunk := stream.Read();
      if chunk == [] {
        break;
      }
      c := Absorb(Some(cap), c, chunk);
      var remaining := cap - used;
      if remaining <= 0 {
        truncated := true;
        continue;
      }
      if |chunk| > remaining {
        chunk := chunk[..remaining];
        truncated := true;
      }
      used := used + |chunk|;
      DecodeEachNext(pieces, chunk);
      pieces, sent := pieces + [chunk], sent + [Decode(chunk)];
    }
    PumpedAll(cap, stream.chunks);
  }
}
