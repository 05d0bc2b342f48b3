/** When the text a connector forwards piece by piece is the text the process wrote. The connector decodes every chunk
    it reads on its own, so a chunk boundary inside a character shows. */
module ConnectorText {
  import opened Prelude
  import opened Utf8
  import opened CappedOutput

  /** How many bytes do not continue a character. */
  function Leads(bs: Bytes): nat {
    if bs == [] then 0 else (if IsContinuation(bs[0]) then 0 else 1) + Leads(bs[1..])
  }

  lemma {:induction false} LeadsConcat(a: Bytes, b: Bytes)
    ensures Leads(a + b) == Leads(a) + Leads(b)
  {
    if a == [] {
      assert a + b == b;
    } else {
      assert (a + b)[1..] == a[1..] + b;
      LeadsConcat(a[1..], b);
    }
  }

  lemma {:induction false} NoLeads(bs: Bytes)
    requires forall i :: 0 <= i < |bs| ==> IsContinuation(bs[i])
    ensures Leads(bs) == 0
  {
    if bs != [] {
      NoLeads(bs[1..]);
    }
  }

  /** Only the first byte of an encoded character does not continue one. */
  lemma CharShape(c: char)
    ensures var bs := EncodeChar(c);
            !IsContinuation(bs[0]) && forall i :: 1 <= i < |bs| ==> IsContinuation(bs[i])
  {
  }

  lemma {:induction false} LeadsOfText(s: string)
    ensures Leads(Encode(s)) == |s|
  {
    if s != "" {
      var bs := EncodeChar(s[0]);
      CharShape(s[0]);
      NoLeads(bs[1..]);
      LeadsConcat(bs, Encode(s[1..]));
      LeadsOfText(s[1..]);
    }
  }

  lemma SubpartShape(bs: Bytes)
    requires bs != []
    ensures IsContinuation(bs[0]) ==> Subpart(bs) == 1
    ensures forall i :: 1 <= i < Subpart(bs) ==> IsContinuation(bs[i])
  {
  }

  /** Decoding gives at least one character for every lead byte, and one more if the bytes begin inside a character. */
  lemma {:induction false} DecodeAtLeast(bs: Bytes)
    ensures |Decode(bs)| >= Leads(bs) + if bs != [] && IsContinuation(bs[0]) then 1 else 0
    decreases |bs|
  {
    hide Subpart, FirstChar;
    if bs != [] {
      var k := Subpart(bs);
      SubpartShape(bs);
      NoLeads(bs[1..k]);
      LeadsConcat(bs[1..k], bs[k..]);
      assert bs[1..] == bs[1..k] + bs[k..];
      DecodeAtLeast(bs[k..]);
    }
  }

  predicate Nonempty(pieces: seq<Bytes>) {
    forall i :: 0 <= i < |pieces| ==> pieces[i] != []
  }

  /** No piece begins inside a character. */
  predicate Aligned(pieces: seq<Bytes>)
    requires Nonempty(pieces)
  {
    forall i :: 0 <= i < |pieces| ==> !IsContinuation(pieces[i][0])
  }

  lemma {:induction false} SentAtLeast(pieces: seq<Bytes>)
    requires Nonempty(pieces)
    ensures |Concat(DecodeEach(pieces))| >= Leads(Concat(pieces)) + if Aligned(pieces) then 0 else 1
  {
    hide Decode, Leads, IsContinuation;
    if pieces == [] {
      assert Concat(pieces) == [];
      NoLeads([]);
    } else {
      var init, last := pieces[..|pieces| - 1], pieces[|pieces| - 1];
      assert pieces == init + [last];
      SentAtLeast(init);
      ConcatSnoc(init, last);
      ConcatSnoc(DecodeEach(init), Decode(last));
      LeadsConcat(Concat(init), last);
      DecodeAtLeast(last);
      assert forall i :: 0 <= i < |init| ==> init[i] == pieces[i];
    }
  }

  /** A byte that does not continue a character stands at the boundary between two. */
  lemma Boundary(s: string, b: nat)
    requires b < |Encode(s)| && !IsContinuation(Encode(s)[b])
    ensures var k := FittingChars(s, b);
            Encode(s[..k]) == Encode(s)[..b] && Encode(s[k..]) == Encode(s)[b..]
  {
    hide EncodeChar, IsContinuation, FittingChars, Encode;
    var k := FittingChars(s, b);
    assert s[..|s|] == s;
    assert s == s[..k] + s[k..];
    EncodeAppend(s[..k], s[k..]);
    var front := Encode(s[..k]);
    CharShape(s[k]);
    EncodeHead(s[k..]);
    var j := b - |front|;
    assert Encode(s)[b] == EncodeChar(s[k])[j];
  }

  lemma EncodeHead(s: string)
    requires s != ""
    ensures Encode(s) == EncodeChar(s[0]) + Encode(s[1..])
  {
    hide EncodeChar;
  }

  lemma {:induction false} AlignedIsFaithful(pieces: seq<Bytes>, s: string)
    requires Nonempty(pieces) && Aligned(pieces) && Concat(pieces) == Encode(s)
    ensures Concat(DecodeEach(pieces)) == s
    decreases |pieces|
  {
    hide Decode, IsContinuation, FittingChars;
    if pieces == [] {
      assert |Encode(s)| == 0;
      assert s == "";
    } else {
      var init, last := pieces[..|pieces| - 1], pieces[|pieces| - 1];
      assert pieces == init + [last];
      ConcatSnoc(init, last);
      ConcatSnoc(DecodeEach(init), Decode(last));
      var b := |Concat(init)|;
      assert Encode(s)[b] == last[0] && Encode(s)[..b] == Concat(init) && Encode(s)[b..] == last;
      Boundary(s, b);
      var k := FittingChars(s, b);
      assert forall i :: 0 <= i < |init| ==> init[i] == pieces[i];
      AlignedIsFaithful(init, s[..k]);
      DecodeEncode(s[k..]);
      assert s == s[..k] + s[k..];
    }
  }

  /** Forwarding keeps the text exactly when no piece begins inside a character; otherwise the text gets longer. */
  lemma FaithfulExactly(pieces: seq<Bytes>, s: string)
    requires Nonempty(pieces) && Concat(pieces) == Encode(s)
    ensures Concat(DecodeEach(pieces)) == s <==> Aligned(pieces)
    ensures !Aligned(pieces) ==> |Concat(DecodeEach(pieces))| > |s|
  {
    hide Decode, Leads, Aligned;
    LeadsOfText(s);
    SentAtLeast(pieces);
    if Aligned(pieces) {
      AlignedIsFaithful(pieces, s);
    }
  }

  lemma {:induction false} ConcatPrefix(chunks: seq<Bytes>, n: nat)
    requires n <= |chunks|
    ensures |Concat(chunks[..n])| <= |Concat(chunks)|
    decreases |chunks| - n
  {
    if n == |chunks| {
      assert chunks[..n] == chunks;
    } else {
      assert chunks[..n + 1] == chunks[..n] + [chunks[n]];
      ConcatSnoc(chunks[..n], chunks[n]);
      ConcatPrefix(chunks, n + 1);
    }
  }

  lemma {:induction false} UncappedKeepsAll(cap: nat, chunks: seq<Bytes>, n: nat)
    requires n <= |chunks| && Nonempty(chunks) && |Concat(chunks)| <= cap
    ensures var c := AbsorbFirst(Some(cap), chunks, n);
            c.kept == chunks[..n] && c.total == |Concat(chunks[..n])|
  {
    hide Concat;
    if n == 0 {
      assert chunks[..0] == [] && |Concat<byte>([])| == 0 by { EmptyConcat(); }
    } else {
      UncappedKeepsAll(cap, chunks, n - 1);
      ConcatPrefix(chunks, n);
      assert chunks[..n] == chunks[..n - 1] + [chunks[n - 1]];
      ConcatSnoc(chunks[..n - 1], chunks[n - 1]);
    }
  }

  lemma EmptyConcat()
    ensures Concat<byte>([]) == []
  {
  }

  // --- Under the connector's cap -----------------------------------------------------------------------------------

  /** The bytes up to a cut: the characters that fit, and the part of the next one. */
  lemma CutShape(s: string, n: nat)
    requires n < |Encode(s)|
    ensures var k := FittingChars(s, n);
            k < |s| && Encode(s)[..n] == Encode(s[..k]) + EncodeChar(s[k])[..n - |Encode(s[..k])|]
  {
    hide EncodeChar, FittingChars, Encode;
    var k := FittingChars(s, n);
    assert s[..|s|] == s;
    assert s == s[..k] + s[k..];
    EncodeAppend(s[..k], s[k..]);
    EncodeHead(s[k..]);
  }

  /** A cut text has as many lead bytes as it decodes to characters. */
  lemma LeadsOfCut(s: string, n: nat)
    requires n <= |Encode(s)|
    ensures Leads(Encode(s)[..n]) == |Truncated(s, n)|
  {
    hide EncodeChar, Leads, Truncated, FittingChars, Encode;
    TruncatedShape(s, n);
    if n == |Encode(s)| {
      assert Encode(s)[..n] == Encode(s);
      LeadsOfText(s);
    } else {
      CutShape(s, n);
      var k := FittingChars(s, n);
      var whole := Encode(s[..k]);
      LeadsConcat(whole, EncodeChar(s[k])[..n - |whole|]);
      LeadsOfText(s[..k]);
      LeadsOfPart(s[k], n - |whole|);
    }
  }

  lemma LeadsOfPart(c: char, cut: nat)
    requires cut < Width(c)
    ensures Leads(EncodeChar(c)[..cut]) == if cut == 0 then 0 else 1
  {
    hide EncodeChar, IsContinuation;
    CharShape(c);
    var part := EncodeChar(c)[..cut];
    if cut > 0 {
      assert part[0] == EncodeChar(c)[0];
      assert forall i :: 0 <= i < |part[1..]| ==> part[1..][i] == EncodeChar(c)[i + 1];
      NoLeads(part[1..]);
    }
  }

  lemma AlignedIsDecoded(pieces: seq<Bytes>, s: string, n: nat)
    requires Nonempty(pieces) && Aligned(pieces) && n <= |Encode(s)| && Concat(pieces) == Encode(s)[..n]
    ensures Concat(DecodeEach(pieces)) == Truncated(s, n)
  {
    hide Decode, IsContinuation, FittingChars;
    if pieces == [] {
      assert Encode(s)[..n] == [];
      NothingToDecode();
    } else {
      var init, last := pieces[..|pieces| - 1], pieces[|pieces| - 1];
      assert pieces == init + [last];
      ConcatSnoc(init, last);
      ConcatSnoc(DecodeEach(init), Decode(last));
      var b := |Concat(init)|;
      assert Encode(s)[..n][b] == last[0] && Encode(s)[..n][..b] == Concat(init);
      assert Encode(s)[b] == last[0] && Encode(s)[..b] == Encode(s)[..n][..b];
      Boundary(s, b);
      var k := FittingChars(s, b);
      assert forall i :: 0 <= i < |init| ==> init[i] == pieces[i];
      AlignedIsFaithful(init, s[..k]);
      DecodeEncodedPrefix(s[..k], last);
      assert Encode(s)[..n] == Encode(s[..k]) + last;
    }
  }

  lemma NothingToDecode()
    ensures Decode([]) == ""
  {
  }

  /** Pieces that add up to a cut text: they decode to what one decoding of the cut text gives exactly when none begins
      inside a character. */
  lemma CutExactly(pieces: seq<Bytes>, s: string, n: nat)
    requires Nonempty(pieces) && n <= |Encode(s)| && Concat(pieces) == Encode(s)[..n]
    ensures Concat(DecodeEach(pieces)) == Truncated(s, n) <==> Aligned(pieces)
    ensures !Aligned(pieces) ==> |Concat(DecodeEach(pieces))| > |Truncated(s, n)|
  {
    hide Decode, Leads, Aligned, Truncated;
    LeadsOfCut(s, n);
    SentAtLeast(pieces);
    if Aligned(pieces) {
      AlignedIsDecoded(pieces, s, n);
    }
  }

  lemma {:induction false} KeptNonempty(cap: nat, chunks: seq<Bytes>, n: nat)
    requires n <= |chunks| && Nonempty(chunks)
    ensures Nonempty(AbsorbFirst(Some(cap), chunks, n).kept)
  {
    if n > 0 {
      KeptNonempty(cap, chunks, n - 1);
    }
  }

  /** What the connector's pump sends of a process that wrote `s`, however its reads were cut and whatever its cap: the
      text cut at the cap (the whole characters that fit, and one U+FFFD if the cap falls inside one) exactly when no
      piece it forwards begins inside a character, and something longer otherwise. Within the cap this is `s` itself,
      and all reads are forwarded. */
  lemma PumpFaithfulExactly(cap: nat, chunks: seq<Bytes>, s: string)
    requires Nonempty(chunks) && Concat(chunks) == Encode(s)
    ensures var kept := AbsorbFirst(Some(cap), chunks, |chunks|).kept;
            && Nonempty(kept)
            && (Concat(DecodeEach(kept)) == Truncated(s, cap) <==> Aligned(kept))
            && (!Aligned(kept) ==> |Concat(DecodeEach(kept))| > |Truncated(s, cap)|)
            && (|Encode(s)| <= cap ==> kept == chunks && Truncated(s, cap) == s)
  {
    hide AbsorbFirst, DecodeEach, Aligned, Concat, Encode, Decode;
    KeptNonempty(cap, chunks, |chunks|);
    PumpedAll(cap, chunks);
    var kept := AbsorbFirst(Some(cap), chunks, |chunks|).kept;
    var n := Min(cap, |Encode(s)|);
    CutExactly(kept, s, n);
    assert Truncated(s, n) == Truncated(s, cap);
    if |Encode(s)| <= cap {
      UncappedKeepsAll(cap, chunks, |chunks|);
      assert chunks[..|chunks|] == chunks;
      TruncatedShape(s, cap);
    }
  }

  /** From the process on the device to the result on the server: if no forwarded piece begins inside a character, the
      accumulated text is what was written, cut at the device's cap and then at the server's; and if both caps are large
      enough it is what was written, not flagged. */
  lemma EndToEnd(deviceCap: nat, serverCap: Option<int>, chunks: seq<Bytes>, s: string)
    requires Nonempty(chunks) && Concat(chunks) == Encode(s)
    requires Nonempty(AbsorbFirst(Some(deviceCap), chunks, |chunks|).kept)
    requires Aligned(AbsorbFirst(Some(deviceCap), chunks, |chunks|).kept)
    ensures var received := AcceptAll(serverCap, DecodeEach(AbsorbFirst(Some(deviceCap), chunks, |chunks|).kept));
            && Text(received) == OneShot(serverCap, Truncated(s, deviceCap))
            && (|Encode(s)| <= deviceCap && (serverCap.Some? ==> |Encode(s)| <= serverCap.value) ==>
                  Text(received) == s && !received.truncated)
  {
    hide AbsorbFirst, Aligned, Concat, Encode, AcceptAll, Decode, DecodeEach, Truncated, Overflowed;
    PumpFaithfulExactly(deviceCap, chunks, s);
    var sent := DecodeEach(AbsorbFirst(Some(deviceCap), chunks, |chunks|).kept);
    AcceptAllIsOneShot(serverCap, sent);
    if |Encode(s)| <= deviceCap && (serverCap.Some? ==> |Encode(s)| <= serverCap.value) {
      TruncatedExactly(serverCap, sent);
      if serverCap.Some? {
        TruncatedShape(s, Max(0, serverCap.value));
      }
      NotOverflowed(serverCap, chunks, s);
    }
  }

  lemma NotOverflowed(cap: Option<int>, chunks: seq<Bytes>, s: string)
    requires Nonempty(chunks) && Concat(DecodeEach(chunks)) == s && (cap.Some? ==> |Encode(s)| <= cap.value)
    ensures !Overflowed(cap, DecodeEach(chunks))
  {
    hide Aligned, Concat, Encode, Decode;
    if chunks != [] {
      var sent := DecodeEach(chunks);
      var init, last := DecodeEach(chunks[..|chunks| - 1]), Decode(chunks[|chunks| - 1]);
      assert sent == init + [last] && sent[..|sent| - 1] == init;
      ConcatSnoc(init, last);
      EncodeAppend(Concat(init), last);
      SomethingSent(chunks[|chunks| - 1]);
    }
  }

  lemma SomethingSent(piece: Bytes)
    requires piece != []
    ensures Decode(piece) != "" && |Encode(Decode(piece))| >= 1
  {
    hide Subpart, FirstChar;
  }

  // --- A split character -------------------------------------------------------------------------------------------

  function Replacements(n: nat): string {
    if n == 0 then "" else [REPLACEMENT] + Replacements(n - 1)
  }

  lemma {:induction false} LooseBytes(bs: Bytes)
    requires forall i :: 0 <= i < |bs| ==> IsContinuation(bs[i])
    ensures Decode(bs) == Replacements(|bs|)
  {
    if bs != [] {
      SubpartShape(bs);
      LooseBytes(bs[1..]);
    }
  }

  /** Any character of more than one byte that a read cuts after its first `k` bytes: one U+FFFD for the front, and one
      for each of the bytes left over. */
  lemma SplitCharacter(c: char, k: nat)
    requires 0 < k < Width(c)
    ensures var bs := EncodeChar(c);
            Concat(DecodeEach([bs[..k], bs[k..]])) == Replacements(1 + Width(c) - k)
  {
    hide Decode, EncodeChar, IsContinuation;
    var bs := EncodeChar(c);
    CharShape(c);
    DecodeCutChar(c, k);
    assert forall i :: 0 <= i < |bs[k..]| ==> bs[k..][i] == bs[i + k];
    LooseBytes(bs[k..]);
    TwoPieces(bs[..k], bs[k..]);
  }

  lemma TwoPieces(a: Bytes, b: Bytes)
    ensures Concat(DecodeEach([a, b])) == Decode(a) + Decode(b)
  {
    hide Decode, Concat, DecodeEach;
    DecodeTwo(a, b);
    ConcatTwo(Decode(a), Decode(b));
  }

  lemma DecodeTwo(a: Bytes, b: Bytes)
    ensures DecodeEach([a, b]) == [Decode(a), Decode(b)]
  {
    hide Decode;
    assert [a, b][..1] == [a] && [a][..0] == [];
    assert DecodeEach([a]) == [Decode(a)];
  }

  lemma ConcatTwo(x: string, y: string)
    ensures Concat([x, y]) == x + y
  {
    assert [x, y][1..] == [y] && [y][1..] == [];
    assert Concat([y]) == y;
  }

  /** For example, the letter U+00E9 split between two reads arrives as two U+FFFD. */
  lemma SplitLetter()
    ensures Encode("\U{00E9}") == [0xC3, 0xA9]
    ensures Concat(DecodeEach([[0xC3], [0xA9]])) == [REPLACEMENT, REPLACEMENT]
  {
    hide Decode;
    var bs := EncodeChar('\U{00E9}');
    assert bs == [0xC3, 0xA9] && bs[..1] == [0xC3] && bs[1..] == [0xA9];
    SplitCharacter('\U{00E9}', 1);
    assert Replacements(2) == [REPLACEMENT] + ([REPLACEMENT] + Replacements(0));
  }
}
