/**
  The re-encrypting bridge between a client and a WebSocket upstream
  (tgproxy/bridge.py): both directions, and what arrives at the other end.
  */
module Bridge {
  import opened Common
  import opened Numbers
  import opened Obfuscation
  import opened Splitter

  /** The chunks `reader.read` returns before it returns nothing. */
  function UntilEof(chunks: seq<Bytes>): seq<Bytes> {
    if chunks == [] || chunks[0] == [] then [] else [chunks[0]] + UntilEof(chunks[1..])
  }

  /** Chunks re-encrypted one after the other. */
  function ReencryptEach(p: Primitives, from: Positioned, to: Positioned, chunks: seq<Bytes>): (r: seq<Bytes>)
    ensures |r| == |chunks|
    decreases |chunks|
  {
    if chunks == [] then []
    else
      var last := |chunks| - 1;
      var done := |Concat(chunks[..last])|;
      ReencryptEach(p, from, to, chunks[..last])
      + [Reencrypt(p, Moved(from, done), Moved(to, done), chunks[last])]
  }

  function Moved(at: Positioned, count: nat): Positioned { at.(position := at.position + count) }

  /** Re-encrypting piecewise re-encrypts the stream. */
  lemma {:induction false} PiecesAreTheStream(p: Primitives, from: Positioned, to: Positioned, chunks: seq<Bytes>)
    ensures Concat(ReencryptEach(p, from, to, chunks)) == Reencrypt(p, from, to, Concat(chunks))
    decreases |chunks|
  {
    if chunks != [] {
      var last := |chunks| - 1;
      var earlier, chunk := Concat(chunks[..last]), chunks[last];
      PiecesAreTheStream(p, from, to, chunks[..last]);
      assert chunks == chunks[..last] + [chunk];
      ConcatAppend(chunks[..last], [chunk]);
      ConcatOne(chunk);
      var more := Reencrypt(p, Moved(from, |earlier|), Moved(to, |earlier|), chunk);
      ConcatAppend(ReencryptEach(p, from, to, chunks[..last]), [more]);
      ConcatOne(more);
      CryptConcat(p, from.cipher, from.position, earlier, chunk);
      CryptConcat(p, to.cipher, to.position, Crypt(p, from.cipher, from.position, earlier),
                  Crypt(p, from.cipher, from.position + |earlier|, chunk));
    }
  }

  /** The frames `tcp_to_ws` hands to the WebSocket for the chunks read; `eof` if the client closed its side. */
  function Upload(p: Primitives, from: Positioned, to: Positioned, splitter: Option<Wire>, chunks: seq<Bytes>, eof: bool)
    : seq<Bytes>
  {
    var encrypted := ReencryptEach(p, from, to, chunks);
    match splitter
    case None => encrypted
    case Some(w) => var (s, parts) := Fed(w, encrypted); parts + (if eof then Flushed(s) else [])
  }

  lemma OneMoreRead(chunks: seq<Bytes>, i: nat)
    requires i < |chunks| && UntilEof(chunks[..i]) == chunks[..i]
    ensures chunks[i] != [] ==> UntilEof(chunks[..i + 1]) == chunks[..i + 1]
    ensures chunks[i] == [] ==> UntilEof(chunks) == chunks[..i]
  {
    if i == 0 {
      assert chunks[..1][1..] == [];
    } else {
      assert chunks[..i][1..] == chunks[1..][..i - 1];
      assert chunks[..i + 1][1..] == chunks[1..][..i];
      assert chunks[..i] == [chunks[0]] + UntilEof(chunks[1..][..i - 1]);
      assert UntilEof(chunks[1..][..i - 1]) == chunks[..i][1..];
      OneMoreRead(chunks[1..], i - 1);
      assert chunks[..i + 1] == [chunks[0]] + chunks[1..][..i];
      assert chunks[..i] == [chunks[0]] + chunks[1..][..i - 1];
    }
  }

  /** Chunks read before the end of the stream are a beginning of all that are. */
  lemma {:induction false} ReadSoFar(chunks: seq<Bytes>, i: nat)
    requires i <= |chunks| && UntilEof(chunks[..i]) == chunks[..i]
    ensures i <= |UntilEof(chunks)| && UntilEof(chunks)[..i] == chunks[..i]
    decreases i
  {
    if i > 0 {
      assert chunks[..i][1..] == chunks[1..][..i - 1];
      assert chunks[..i] == [chunks[0]] + UntilEof(chunks[1..][..i - 1]);
      assert UntilEof(chunks[1..][..i - 1]) == chunks[..i][1..];
      ReadSoFar(chunks[1..], i - 1);
      assert UntilEof(chunks)[..i] == [chunks[0]] + UntilEof(chunks[1..])[..i - 1];
    }
  }

  /**
    `tcp_to_ws`. The reader returns `chunks` in turn, an empty one at the end
    of the stream; when they run out the connection is lost. The WebSocket takes
    `sends` calls and fails at the next; then exactly the frames of the chunks
    before have been taken.
    */
  method TcpToWs(chunks: seq<Bytes>, cltDec: CtrStream, tgEnc: CtrStream, splitter: MsgSplitter?, sends: nat)
    returns (sent: seq<Bytes>, ok: bool, ghost passed: nat)
    requires cltDec.p == tgEnc.p && cltDec != tgEnc
    requires splitter != null ==> splitter.dec !in {cltDec, tgEnc} && splitter.Valid()
                                  && splitter.View() == State(HANDSHAKE_LEN, [], false)
    modifies cltDec, tgEnc, if splitter == null then {} else {splitter, splitter.dec}
    ensures var p, from, to := cltDec.p, old(Positioned(cltDec.cipher, cltDec.position)),
                               old(Positioned(tgEnc.cipher, tgEnc.position));
            var wire := if splitter == null then None else Some(splitter.w);
            if ok then sent == Upload(p, from, to, wire, UntilEof(chunks), [] in chunks)
            else passed <= |UntilEof(chunks)| && sent == Upload(p, from, to, wire, UntilEof(chunks)[..passed], false)
  {
    hide Reencrypt, ReencryptEach, Crypt, UntilEof, Step, Fed, MsgSplitter.Valid;
    NothingYet(cltDec.p, Positioned(cltDec.cipher, cltDec.position), Positioned(tgEnc.cipher, tgEnc.position),
               if splitter == null then None else Some(splitter.w));
    ghost var p, from, to := cltDec.p, Positioned(cltDec.cipher, cltDec.position), Positioned(tgEnc.cipher, tgEnc.position);
    sent, ok, passed := [], true, 0;
    var i, left := 0, sends;
    assert chunks[..0] == [];
    while i < |chunks|
      invariant ok && i <= |chunks| && UntilEof(chunks[..i]) == chunks[..i] && [] !in chunks[..i]
      invariant cltDec.position == from.position + |Concat(chunks[..i])|
      invariant tgEnc.position == to.position + |Concat(chunks[..i])|
      invariant splitter != null ==> splitter.Valid()
      invariant if splitter == null then sent == ReencryptEach(p, from, to, chunks[..i])
                else (splitter.View(), sent) == Fed(splitter.w, ReencryptEach(p, from, to, chunks[..i]))
    {
      var chunk := chunks[i];
      OneMoreRead(chunks, i);
      if chunk == [] {
        if splitter != null {
          var tail := splitter.Flush();
          if tail != [] && left == 0 {
            ReadSoFar(chunks, i);
            assert sent + [] == sent;
            return sent, false, i;
          }
          sent := sent + tail;
        }
        return;
      }
      OneMoreChunkEncrypted(p, from, to, chunks, i);
      var plain := cltDec.Update(chunk);
      chunk := tgEnc.Update(plain);
      if splitter != null {
        FedOneMore(splitter.w, ReencryptEach(p, from, to, chunks[..i]), chunk);
        var parts := splitter.Split(chunk);
        if parts != [] && left == 0 {
          ReadSoFar(chunks, i);
          assert sent + [] == sent;
          return sent, false, i;
        }
        left := if parts == [] then left else left - 1;
        sent := sent + parts;
      } else {
        if left == 0 {
          ReadSoFar(chunks, i);
          return sent, false, i;
        }
        left := left - 1;
        sent := sent + [chunk];
      }
      i := i + 1;
    }
    assert chunks[..i] == chunks;
  }

  lemma OneMoreChunkEncrypted(p: Primitives, from: Positioned, to: Positioned, chunks: seq<Bytes>, i: nat)
    requires i < |chunks|
    ensures var done := |Concat(chunks[..i])|;
            && ReencryptEach(p, from, to, chunks[..i + 1]) ==
               ReencryptEach(p, from, to, chunks[..i]) + [Reencrypt(p, Moved(from, done), Moved(to, done), chunks[i])]
            && |Concat(chunks[..i + 1])| == done + |chunks[i]|
            && Reencrypt(p, Moved(from, done), Moved(to, done), chunks[i])
               == Crypt(p, to.cipher, to.position + done, Crypt(p, from.cipher, from.position + done, chunks[i]))
  {
    assert chunks[..i + 1][..i] == chunks[..i];
    assert chunks[..i + 1] == chunks[..i] + [chunks[i]];
    ConcatAppend(chunks[..i], [chunks[i]]);
    ConcatOne(chunks[i]);
  }

  lemma NothingYet(p: Primitives, from: Positioned, to: Positioned, splitter: Option<Wire>)
    ensures UntilEof([]) == [] && ReencryptEach(p, from, to, []) == []
    ensures splitter.Some? ==> Fed(splitter.value, []) == (State(HANDSHAKE_LEN, [], false), [])
  {
  }

  lemma FedOneMore(w: Wire, chunks: seq<Bytes>, chunk: Bytes)
    ensures var (before, parts) := Fed(w, chunks);
            var (after, more) := Step(w, before, chunk);
            Fed(w, chunks + [chunk]) == (after, parts + more)
  {
    hide Step;
    assert (chunks + [chunk])[..|chunks|] == chunks;
  }

  // -------------------------------------------------------------- end to end

  /**
    The upstream decrypts, from keystream offset 64 of the relay's handshake,
    exactly what the client encrypted behind its own: for every secret, every
    pair of handshakes and every chunking, split into frames or not.
    */
  lemma UpstreamReadsTheClient(p: Primitives, clientPrekeyIv: Bytes, secret: Bytes, relayInit: Bytes,
                               splitter: Option<Wire>, plain: Bytes, chunks: seq<Bytes>)
    requires |clientPrekeyIv| == PREKEY_LEN + IV_LEN && |relayInit| == HANDSHAKE_LEN
    requires Concat(chunks) == Crypt(p, SecretCipher(p, clientPrekeyIv, secret), HANDSHAKE_LEN, plain)
    ensures var ctx := BuildCryptoCtx(p, clientPrekeyIv, secret, relayInit);
            var sent := Upload(p, ctx.cltDec, ctx.tgEnc, splitter, chunks, true);
            Crypt(p, PlainCipher(PrekeyIv(relayInit)), HANDSHAKE_LEN, Concat(sent)) == plain
  {
    hide Reencrypt, Fed, Crypt, SecretCipher, PlainCipher;
    var ctx := BuildCryptoCtx(p, clientPrekeyIv, secret, relayInit);
    var encrypted := ReencryptEach(p, ctx.cltDec, ctx.tgEnc, chunks);
    PiecesAreTheStream(p, ctx.cltDec, ctx.tgEnc, chunks);
    if splitter.Some? {
      PartsAreTheStream(splitter.value, encrypted);
    }
    ReencryptionIsTransparent(p, ctx.cltDec, ctx.tgEnc, plain);
  }

  /**
    With the splitter `_handle_client` makes, the parts before a zero-length
    header are, decrypted, exactly the frames of one parse of the client's
    plain stream: its cipher and the bridge's stand at the same place.
    */
  lemma EachPartIsOneClientFrame(p: Primitives, clientPrekeyIv: Bytes, secret: Bytes, relayInit: Bytes,
                                 proto: nat, plain: Bytes, chunks: seq<Bytes>, eof: bool)
    requires |clientPrekeyIv| == PREKEY_LEN + IV_LEN && |relayInit| == HANDSHAKE_LEN
    requires Concat(chunks) == Crypt(p, SecretCipher(p, clientPrekeyIv, secret), HANDSHAKE_LEN, plain)
    ensures var relay := PlainCipher(PrekeyIv(relayInit));
            var ctx := BuildCryptoCtx(p, clientPrekeyIv, secret, relayInit);
            var sent := Upload(p, ctx.cltDec, ctx.tgEnc, Some(Wire(p, relay, proto)), chunks, eof);
            var received := Decrypted(Wire(p, relay, proto), HANDSHAKE_LEN, sent);
            var frames := Parse(proto, plain).frames;
            && |frames| <= |sent|
            && received[..|frames|] == frames
            && (forall frame :: frame in frames ==> frame != [] && FrameLen(proto, frame) == Some(|frame|))
  {
    hide Reencrypt, Fed, Crypt, SecretCipher, PlainCipher, FrameLen, Cut, Parse, Plain;
    var ctx := BuildCryptoCtx(p, clientPrekeyIv, secret, relayInit);
    var w := Wire(p, PlainCipher(PrekeyIv(relayInit)), proto);
    var encrypted := ReencryptEach(p, ctx.cltDec, ctx.tgEnc, chunks);
    var sent := Upload(p, ctx.cltDec, ctx.tgEnc, Some(w), chunks, eof);
    PiecesAreTheStream(p, ctx.cltDec, ctx.tgEnc, chunks);
    ReencryptionIsTransparent(p, ctx.cltDec, ctx.tgEnc, plain);
    PlainIsCrypt(w, HANDSHAKE_LEN, Concat(encrypted));
    ChunksDoNotMatter(w, encrypted);
    CutIsParse(w, HANDSHAKE_LEN, Concat(encrypted));
    ParsedAreFrames(proto, plain);
    var cut := Cut(w, HANDSHAKE_LEN, Concat(encrypted));
    DecryptedTake(w, HANDSHAKE_LEN, sent, |cut.frames|);
    assert sent[..|cut.frames|] == Fed(w, encrypted).1[..|cut.frames|];
  }

  // ---------------------------------------------------------------- download

  /** `ws_to_tcp`: every message received is re-encrypted and written, until the upstream closes. */
  method WsToTcp(messages: seq<Bytes>, tgDec: CtrStream, cltEnc: CtrStream) returns (written: Bytes)
    requires tgDec.p == cltEnc.p && tgDec != cltEnc
    modifies tgDec, cltEnc
    ensures written == Reencrypt(tgDec.p, old(Positioned(tgDec.cipher, tgDec.position)),
                                 old(Positioned(cltEnc.cipher, cltEnc.position)), Concat(messages))
  {
    hide Reencrypt;
    ghost var p, from, to := tgDec.p, Positioned(tgDec.cipher, tgDec.position), Positioned(cltEnc.cipher, cltEnc.position);
    written := [];
    var i := 0;
    assert messages[..0] == [];
    while i < |messages|
      invariant i <= |messages|
      invariant tgDec.position == from.position + |Concat(messages[..i])|
      invariant cltEnc.position == to.position + |Concat(messages[..i])|
      invariant written == Concat(ReencryptEach(p, from, to, messages[..i]))
    {
      OneMoreChunkEncrypted(p, from, to, messages, i);
      var plain := tgDec.Update(messages[i]);
      var data := cltEnc.Update(plain);
      ConcatAppend(ReencryptEach(p, from, to, messages[..i]), [data]);
      ConcatOne(data);
      written := written + data;
      i := i + 1;
    }
    assert messages[..i] == messages;
    PiecesAreTheStream(p, from, to, messages);
  }

  /** And the client decrypts, with the reversed halves of its handshake, what the upstream encrypted for the proxy. */
  lemma ClientReadsTheUpstream(p: Primitives, clientPrekeyIv: Bytes, secret: Bytes, relayInit: Bytes,
                               plain: Bytes, messages: seq<Bytes>)
    requires |clientPrekeyIv| == PREKEY_LEN + IV_LEN && |relayInit| == HANDSHAKE_LEN
    requires Concat(messages) == Crypt(p, PlainCipher(Reversed(PrekeyIv(relayInit))), 0, plain)
    ensures var ctx := BuildCryptoCtx(p, clientPrekeyIv, secret, relayInit);
            var written := Concat(ReencryptEach(p, ctx.tgDec, ctx.cltEnc, messages));
            Crypt(p, SecretCipher(p, Reversed(clientPrekeyIv), secret), 0, written) == plain
  {
    hide Reencrypt, ReencryptEach, Crypt, SecretCipher, PlainCipher;
    var ctx := BuildCryptoCtx(p, clientPrekeyIv, secret, relayInit);
    PiecesAreTheStream(p, ctx.tgDec, ctx.cltEnc, messages);
    ReencryptionIsTransparent(p, ctx.tgDec, ctx.cltEnc, plain);
  }
}
