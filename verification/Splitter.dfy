/**
  Cutting the re-encrypted upload into MTProto frames (tgproxy/bridge.py).

  `Cut` is the reference: delete one frame from the front, again and again.
  The class below walks its buffer with an offset and deletes once.
  */
module Splitter {
  import opened Common
  import opened Numbers
  import opened Obfuscation

  const PROTO_ABRIDGED_INT: nat := 0xEFEFEFEF
  const PROTO_INTERMEDIATE_INT: nat := 0xEEEEEEEE
  const PROTO_PADDED_INTERMEDIATE_INT: nat := 0xDDDDDDDD

  /** The protocol number `_handle_client` gives the splitter for a transport tag. */
  function ProtoOf(tag: Bytes): nat {
    if tag == PROTO_TAG_ABRIDGED then PROTO_ABRIDGED_INT
    else if tag == PROTO_TAG_INTERMEDIATE then PROTO_INTERMEDIATE_INT
    else PROTO_PADDED_INTERMEDIATE_INT
  }

  /**
    Length of the frame at the front of decrypted bytes: `None` while more
    bytes are needed, 0 for a header that announces no payload.
    */
  function FrameLen(proto: nat, plain: Bytes): (r: Option<nat>)
    ensures r.Some? ==> plain != [] && r.value <= |plain|
  {
    if plain == [] then None
    else if proto == PROTO_ABRIDGED_INT then
      if plain[0] in {0x7f, 0xff} && |plain| < 4 then None
      else
        var header := if plain[0] in {0x7f, 0xff} then 4 else 1;
        var payload := if plain[0] in {0x7f, 0xff} then LE(plain[1..4]) * 4 else plain[0] as nat % 0x80 * 4;
        Whole(header, payload, |plain|)
    else if proto in {PROTO_INTERMEDIATE_INT, PROTO_PADDED_INTERMEDIATE_INT} then
      if |plain| < 4 then None else Whole(4, LE(plain[..4]) % 0x8000_0000, |plain|)
    else Some(0)
  }

  function Whole(header: nat, payload: nat, available: nat): Option<nat> {
    if payload == 0 then Some(0) else if available < header + payload then None else Some(header + payload)
  }

  /** Bytes that arrive later do not change a length already known. */
  lemma FrameLenIsStable(proto: nat, plain: Bytes, more: Bytes)
    requires FrameLen(proto, plain).Some?
    ensures FrameLen(proto, plain + more) == FrameLen(proto, plain)
  {
    if |plain| >= 4 {
      assert (plain + more)[1..4] == plain[1..4];
      assert (plain + more)[..4] == plain[..4];
    }
  }

  /** What a splitter is made for: the relay's cipher and the client's protocol. */
  datatype Wire = Wire(p: Primitives, relay: Cipher, proto: nat)

  /** Decryption of relay ciphertext that starts at a given keystream position. */
  function Plain(w: Wire, position: nat, data: Bytes): (plain: Bytes)
    ensures |plain| == |data|
  {
    Crypt(w.p, w.relay, position, data)
  }

  lemma PlainConcat(w: Wire, position: nat, data: Bytes, more: Bytes)
    ensures Plain(w, position, data + more) == Plain(w, position, data) + Plain(w, position + |data|, more)
  {
    CryptConcat(w.p, w.relay, position, data, more);
  }

  lemma PlainIsCrypt(w: Wire, position: nat, data: Bytes)
    ensures Plain(w, position, data) == Crypt(w.p, w.relay, position, data)
  {
  }

  lemma PlainTake(w: Wire, position: nat, data: Bytes, n: nat)
    requires n <= |data|
    ensures Plain(w, position, data)[..n] == Plain(w, position, data[..n])
  {
    CryptSlice(w.p, w.relay, position, data, 0, n);
  }

  lemma PlainDrop(w: Wire, position: nat, data: Bytes, n: nat)
    requires n <= |data|
    ensures Plain(w, position, data)[n..] == Plain(w, position + n, data[n..])
  {
    CryptSlice(w.p, w.relay, position, data, n, |data|);
  }

  /** Whole frames, then the rest; `broken` if the rest starts with a zero-length header. */
  datatype Cutting = Cutting(frames: seq<Bytes>, rest: Bytes, broken: bool)

  function Cut(w: Wire, position: nat, data: Bytes): Cutting
    decreases |data|
  {
    match FrameLen(w.proto, Plain(w, position, data))
    case None => Cutting([], data, false)
    case Some(n) =>
      if n == 0 then Cutting([], data, true)
      else
        var next := Cut(w, position + n, data[n..]);
        Cutting([data[..n]] + next.frames, next.rest, next.broken)
  }

  lemma CutOnce(w: Wire, position: nat, data: Bytes)
    ensures Cut(w, position, data) ==
            match FrameLen(w.proto, Plain(w, position, data)) {
              case None => Cutting([], data, false)
              case Some(n) =>
                if n == 0 then Cutting([], data, true)
                else var next := Cut(w, position + n, data[n..]);
                     Cutting([data[..n]] + next.frames, next.rest, next.broken)
            }
  {
  }

  /** Everything fed comes out again, in order. */
  lemma {:induction false} CutKeepsBytes(w: Wire, position: nat, data: Bytes)
    ensures Concat(Cut(w, position, data).frames) + Cut(w, position, data).rest == data
    decreases |data|
  {
    hide FrameLen, Plain;
    var length := FrameLen(w.proto, Plain(w, position, data));
    if length.Some? && length.value > 0 {
      var n := length.value;
      CutKeepsBytes(w, position + n, data[n..]);
      var next := Cut(w, position + n, data[n..]);
      assert Cut(w, position, data).frames[1..] == next.frames;
      assert data[..n] + data[n..] == data;
      assert data[..n] + (Concat(next.frames) + next.rest) == (data[..n] + Concat(next.frames)) + next.rest;
    }
  }

  /** Cutting what has arrived so far and then the rest is cutting the whole. */
  lemma {:induction false} CutExtends(w: Wire, position: nat, data: Bytes, more: Bytes)
    ensures var first, whole := Cut(w, position, data), Cut(w, position, data + more);
            var from := position + |data| - |first.rest|;
            && |first.rest| <= |data|
            && if first.broken then whole == first.(rest := first.rest + more)
               else var second := Cut(w, from, first.rest + more);
                    whole == Cutting(first.frames + second.frames, second.rest, second.broken)
    decreases |data|
  {
    hide FrameLen, Plain, Cut;
    var length := FrameLen(w.proto, Plain(w, position, data));
    CutOnce(w, position, data);
    if length.None? {
      var whole := Cut(w, position, data + more);
      assert [] + whole.frames == whole.frames;
    } else {
      var n := length.value;
      PlainConcat(w, position, data, more);
      FrameLenIsStable(w.proto, Plain(w, position, data), Plain(w, position + |data|, more));
      CutOnce(w, position, data + more);
      if n > 0 {
        CutExtends(w, position + n, data[n..], more);
        assert (data + more)[..n] == data[..n];
        assert (data + more)[n..] == data[n..] + more;
        var next := Cut(w, position + n, data[n..]);
        var second := Cut(w, position + |data| - |next.rest|, next.rest + more);
        assert [data[..n]] + (next.frames + second.frames) == ([data[..n]] + next.frames) + second.frames;
      }
    }
  }

  /** What is left after cutting is not the beginning of a complete frame. */
  lemma {:induction false} CutLeavesNoFrame(w: Wire, position: nat, data: Bytes)
    ensures var cut := Cut(w, position, data);
            && |cut.rest| <= |data|
            && FrameLen(w.proto, Plain(w, position + |data| - |cut.rest|, cut.rest)) == (if cut.broken then Some(0) else None)
    decreases |data|
  {
    hide FrameLen, Plain;
    var length := FrameLen(w.proto, Plain(w, position, data));
    if length.Some? && length.value > 0 {
      CutLeavesNoFrame(w, position + length.value, data[length.value..]);
    }
  }

  // --------------------------------------------- the frames of a plain stream

  /** One recursive parse of a plain stream into its frames. */
  function Parse(proto: nat, plain: Bytes): Cutting
    decreases |plain|
  {
    match FrameLen(proto, plain)
    case None => Cutting([], plain, false)
    case Some(n) =>
      if n == 0 then Cutting([], plain, true)
      else var next := Parse(proto, plain[n..]);
           Cutting([plain[..n]] + next.frames, next.rest, next.broken)
  }

  /** Every part of a parse is one frame: its header announces its own length. */
  lemma {:induction false} ParsedAreFrames(proto: nat, plain: Bytes)
    ensures forall frame :: frame in Parse(proto, plain).frames ==> frame != [] && FrameLen(proto, frame) == Some(|frame|)
    decreases |plain|
  {
    var length := FrameLen(proto, plain);
    if length.Some? && length.value > 0 {
      FrameLenOfPrefix(proto, plain);
      ParsedAreFrames(proto, plain[length.value..]);
    }
  }

  lemma FrameLenOfPrefix(proto: nat, plain: Bytes)
    requires FrameLen(proto, plain).Some? && FrameLen(proto, plain).value > 0
    ensures FrameLen(proto, plain[..FrameLen(proto, plain).value]) == FrameLen(proto, plain)
  {
    var n := FrameLen(proto, plain).value;
    if n >= 4 {
      assert plain[..n][1..4] == plain[1..4];
      assert plain[..n][..4] == plain[..4];
    }
  }

  /** What the upstream makes of the parts it receives one after the other. */
  function Decrypted(w: Wire, position: nat, parts: seq<Bytes>): (r: seq<Bytes>)
    ensures |r| == |parts|
    decreases |parts|
  {
    if parts == [] then [] else [Plain(w, position, parts[0])] + Decrypted(w, position + |parts[0]|, parts[1..])
  }

  lemma {:induction false} DecryptedConcat(w: Wire, position: nat, parts: seq<Bytes>)
    ensures Concat(Decrypted(w, position, parts)) == Plain(w, position, Concat(parts))
    decreases |parts|
  {
    hide Plain;
    if parts == [] {
      assert Plain(w, position, []) == [];
    } else {
      DecryptedConcat(w, position + |parts[0]|, parts[1..]);
      PlainConcat(w, position, parts[0], Concat(parts[1..]));
      assert Decrypted(w, position, parts)[1..] == Decrypted(w, position + |parts[0]|, parts[1..]);
    }
  }

  lemma {:induction false} DecryptedTake(w: Wire, position: nat, parts: seq<Bytes>, n: nat)
    requires n <= |parts|
    ensures Decrypted(w, position, parts)[..n] == Decrypted(w, position, parts[..n])
    decreases |parts|
  {
    hide Plain;
    if n > 0 {
      DecryptedTake(w, position + |parts[0]|, parts[1..], n - 1);
      assert parts[..n][1..] == parts[1..][..n - 1];
      assert Decrypted(w, position, parts)[..n]
          == [Plain(w, position, parts[0])] + Decrypted(w, position + |parts[0]|, parts[1..])[..n - 1];
    }
  }

  /** Cutting ciphertext gives the encrypted frames of the plain stream. */
  lemma {:induction false} CutIsParse(w: Wire, position: nat, data: Bytes)
    ensures var cut, parse := Cut(w, position, data), Parse(w.proto, Plain(w, position, data));
            && Decrypted(w, position, cut.frames) == parse.frames
            && cut.broken == parse.broken
            && |cut.rest| == |parse.rest|
    decreases |data|
  {
    hide FrameLen, Plain;
    var length := FrameLen(w.proto, Plain(w, position, data));
    if length.Some? && length.value > 0 {
      var n := length.value;
      PlainTake(w, position, data, n);
      PlainDrop(w, position, data, n);
      CutIsParse(w, position + n, data[n..]);
      assert Cut(w, position, data).frames[1..] == Cut(w, position + n, data[n..]).frames;
    }
  }

  // ------------------------------------------------------------ the splitter

  /** Bytes decrypted so far, bytes kept for later, and whether splitting was given up. */
  datatype State = State(fed: nat, buffer: Bytes, disabled: bool) {
    ghost predicate Valid() { |buffer| <= fed && (disabled ==> buffer == []) }
  }

  /** `split`: the state afterwards and the parts returned. */
  function Step(w: Wire, s: State, chunk: Bytes): (State, seq<Bytes>)
    requires s.Valid()
  {
    if chunk == [] then (s, [])
    else if s.disabled then (s, [chunk])
    else
      var cut := Cut(w, s.fed - |s.buffer|, s.buffer + chunk);
      if cut.broken then (State(s.fed + |chunk|, [], true), cut.frames + [cut.rest])
      else (State(s.fed + |chunk|, cut.rest, false), cut.frames)
  }

  /** `flush`: what is left in the buffer, if anything. */
  function Flushed(s: State): seq<Bytes> { if s.buffer == [] then [] else [s.buffer] }

  lemma StepKeepsValid(w: Wire, s: State, chunk: Bytes)
    requires s.Valid()
    ensures Step(w, s, chunk).0.Valid()
  {
    hide FrameLen, Plain, Cut;
    if chunk != [] && !s.disabled {
      CutLeavesNoFrame(w, s.fed - |s.buffer|, s.buffer + chunk);
    }
  }

  /** State and all parts after a list of chunks, from a new splitter. */
  function Fed(w: Wire, chunks: seq<Bytes>): (r: (State, seq<Bytes>))
    ensures r.0.Valid()
    decreases |chunks|
  {
    if chunks == [] then (State(HANDSHAKE_LEN, [], false), [])
    else
      var (before, parts) := Fed(w, chunks[..|chunks| - 1]);
      StepKeepsValid(w, before, chunks[|chunks| - 1]);
      var (after, more) := Step(w, before, chunks[|chunks| - 1]);
      (after, parts + more)
  }

  /**
    However the stream is chopped up, the splitter finds the frames of the
    whole stream. After a zero-length header it passes the bytes on, chopped
    as they come.
    */
  lemma {:induction false} ChunksDoNotMatter(w: Wire, chunks: seq<Bytes>)
    ensures var (s, parts) := Fed(w, chunks);
            var whole := Cut(w, HANDSHAKE_LEN, Concat(chunks));
            && s.disabled == whole.broken
            && |whole.frames| <= |parts|
            && parts[..|whole.frames|] == whole.frames
            && Concat(parts[|whole.frames|..]) + s.buffer == whole.rest
            && (!whole.broken ==> parts == whole.frames && s.buffer == whole.rest
                                  && s.fed == HANDSHAKE_LEN + |Concat(chunks)|)
    decreases |chunks|
  {
    if chunks != [] {
      var last := |chunks| - 1;
      var earlier, chunk := chunks[..last], chunks[last];
      ChunksDoNotMatter(w, earlier);
      assert chunks == earlier + [chunk];
      ConcatAppend(earlier, [chunk]);
      ConcatOne(chunk);
      CutExtends(w, HANDSHAKE_LEN, Concat(earlier), chunk);
      OneMoreChunk(w, earlier, chunk);
    }
  }

  lemma OneMoreChunk(w: Wire, earlier: seq<Bytes>, chunk: Bytes)
    requires var (s, parts) := Fed(w, earlier);
             var whole := Cut(w, HANDSHAKE_LEN, Concat(earlier));
             && s.disabled == whole.broken
             && |whole.frames| <= |parts|
             && parts[..|whole.frames|] == whole.frames
             && Concat(parts[|whole.frames|..]) + s.buffer == whole.rest
             && (!whole.broken ==> parts == whole.frames && s.buffer == whole.rest
                                   && s.fed == HANDSHAKE_LEN + |Concat(earlier)|)
    ensures var (s, before) := Fed(w, earlier);
            var (after, more) := Step(w, s, chunk);
            var parts := before + more;
            var whole := Cut(w, HANDSHAKE_LEN, Concat(earlier) + chunk);
            && after.disabled == whole.broken
            && |whole.frames| <= |parts|
            && parts[..|whole.frames|] == whole.frames
            && Concat(parts[|whole.frames|..]) + after.buffer == whole.rest
            && (!whole.broken ==> parts == whole.frames && after.buffer == whole.rest
                                  && after.fed == HANDSHAKE_LEN + |Concat(earlier)| + |chunk|)
  {
    hide FrameLen, Plain, Cut;
    var (s, before) := Fed(w, earlier);
    var earlierCut := Cut(w, HANDSHAKE_LEN, Concat(earlier));
    var k := |earlierCut.frames|;
    CutExtends(w, HANDSHAKE_LEN, Concat(earlier), chunk);
    if chunk == [] {
      assert Concat(earlier) + chunk == Concat(earlier);
      assert before + [] == before;
    } else if s.disabled {
      OneMorePart(before, k, chunk);
    } else {
      assert before[k..] == [];
      var cut := Cut(w, s.fed - |s.buffer|, s.buffer + chunk);
      if cut.broken {
        OneMorePart(before + cut.frames, |before + cut.frames|, cut.rest);
        assert before + cut.frames + [cut.rest] == before + (cut.frames + [cut.rest]);
      } else {
        assert (before + cut.frames)[|before + cut.frames|..] == [];
      }
    }
  }

  lemma OneMorePart(parts: seq<Bytes>, k: nat, part: Bytes)
    requires k <= |parts|
    ensures (parts + [part])[..k] == parts[..k]
    ensures Concat((parts + [part])[k..]) == Concat(parts[k..]) + part
  {
    assert (parts + [part])[k..] == parts[k..] + [part];
    ConcatAppend(parts[k..], [part]);
    ConcatOne(part);
  }

  /**
    How bytes are passed on: the chunk that completes the zero-length header
    ends in one part with all that is left, and each later chunk is a part.
    */
  lemma PassedOnAsTheyCome(w: Wire, chunks: seq<Bytes>, chunk: Bytes)
    requires chunk != []
    ensures var whole := Cut(w, HANDSHAKE_LEN, Concat(chunks + [chunk]));
            var parts := Fed(w, chunks + [chunk]).1;
            if Cut(w, HANDSHAKE_LEN, Concat(chunks)).broken then parts == Fed(w, chunks).1 + [chunk]
            else whole.broken ==> parts == whole.frames + [whole.rest]
  {
    hide Cut;
    ChunksDoNotMatter(w, chunks);
    ConcatAppend(chunks, [chunk]);
    ConcatOne(chunk);
    CutExtends(w, HANDSHAKE_LEN, Concat(chunks), chunk);
    assert (chunks + [chunk])[..|chunks|] == chunks;
    assert Fed(w, chunks + [chunk]).1 == Fed(w, chunks).1 + Step(w, Fed(w, chunks).0, chunk).1;
    if !Cut(w, HANDSHAKE_LEN, Concat(chunks)).broken {
      var next := Cut(w, Fed(w, chunks).0.fed - |Fed(w, chunks).0.buffer|, Fed(w, chunks).0.buffer + chunk);
      assert Fed(w, chunks).1 + (next.frames + [next.rest]) == (Fed(w, chunks).1 + next.frames) + [next.rest];
    }
  }

  /** Nothing is lost or reordered: all parts and the flushed tail are the stream. */
  lemma PartsAreTheStream(w: Wire, chunks: seq<Bytes>)
    ensures Concat(Fed(w, chunks).1 + Flushed(Fed(w, chunks).0)) == Concat(chunks)
  {
    var (s, parts) := Fed(w, chunks);
    var whole := Cut(w, HANDSHAKE_LEN, Concat(chunks));
    ChunksDoNotMatter(w, chunks);
    CutKeepsBytes(w, HANDSHAKE_LEN, Concat(chunks));
    assert parts == whole.frames + parts[|whole.frames|..];
    ConcatAppend(whole.frames, parts[|whole.frames|..]);
    ConcatAppend(parts, Flushed(s));
    ConcatOne(s.buffer);
    assert Concat(Flushed(s)) == s.buffer;
    assert Concat(whole.frames) + (Concat(parts[|whole.frames|..]) + s.buffer)
        == (Concat(whole.frames) + Concat(parts[|whole.frames|..])) + s.buffer;
  }

  // --------------------------------------- what the offset walk has done so far

  ghost predicate CutSoFar(w: Wire, start: nat, data: Bytes, offset: nat, parts: seq<Bytes>)
    requires offset <= |data|
  {
    var next := Cut(w, start + offset, data[offset..]);
    Cut(w, start, data) == Cutting(parts + next.frames, next.rest, next.broken)
  }

  ghost predicate CutToTheEnd(w: Wire, start: nat, data: Bytes, parts: seq<Bytes>) {
    var whole := Cut(w, start, data);
    whole.broken && parts == whole.frames + [whole.rest]
  }

  lemma CutBegins(w: Wire, start: nat, data: Bytes)
    ensures CutSoFar(w, start, data, 0, [])
  {
    hide Cut;
    assert data[0..] == data;
    assert [] + Cut(w, start, data).frames == Cut(w, start, data).frames;
  }

  lemma CutContinues(w: Wire, start: nat, data: Bytes, offset: nat, parts: seq<Bytes>)
    requires offset <= |data| && CutSoFar(w, start, data, offset, parts)
    requires var length := FrameLen(w.proto, Plain(w, start + offset, data[offset..])); length.Some? && length.value > 0
    ensures var n := FrameLen(w.proto, Plain(w, start + offset, data[offset..])).value;
            CutSoFar(w, start, data, offset + n, parts + [data[offset..offset + n]])
  {
    hide FrameLen, Plain, Cut;
    var n := FrameLen(w.proto, Plain(w, start + offset, data[offset..])).value;
    CutOnce(w, start + offset, data[offset..]);
    assert data[offset..][n..] == data[offset + n..];
    assert data[offset..][..n] == data[offset..offset + n];
    var next := Cut(w, start + offset + n, data[offset + n..]);
    assert parts + ([data[offset..offset + n]] + next.frames) == (parts + [data[offset..offset + n]]) + next.frames;
  }

  lemma CutBreaks(w: Wire, start: nat, data: Bytes, offset: nat, parts: seq<Bytes>)
    requires offset <= |data| && CutSoFar(w, start, data, offset, parts)
    requires FrameLen(w.proto, Plain(w, start + offset, data[offset..])) == Some(0)
    ensures CutToTheEnd(w, start, data, parts + [data[offset..]])
  {
    hide FrameLen, Plain, Cut;
    CutOnce(w, start + offset, data[offset..]);
    assert parts + [] == parts;
  }

  lemma CutStops(w: Wire, start: nat, data: Bytes, offset: nat, parts: seq<Bytes>)
    requires offset <= |data| && CutSoFar(w, start, data, offset, parts)
    requires FrameLen(w.proto, Plain(w, start + offset, data[offset..])) == None
    ensures Cut(w, start, data) == Cutting(parts, data[offset..], false)
  {
    hide FrameLen, Plain, Cut;
    CutOnce(w, start + offset, data[offset..]);
    assert parts + [] == parts;
  }

  // --------------------------------------------------------------- the class

  class MsgSplitter {
    const w: Wire
    const dec: CtrStream
    var cipherBuf: Bytes
    var plainBuf: Bytes
    var disabled: bool

    ghost predicate Valid()
      reads this, dec
    {
      && dec.p == w.p && dec.cipher == w.relay
      && View().Valid()
      && plainBuf == Plain(w, dec.position - |cipherBuf|, cipherBuf)
    }

    ghost function View(): State
      reads this, dec
    {
      State(dec.position, cipherBuf, disabled)
    }

    constructor (p: Primitives, relayInit: Bytes, proto: nat)
      requires |relayInit| == HANDSHAKE_LEN
      ensures Valid() && fresh(dec)
      ensures w == Wire(p, PlainCipher(PrekeyIv(relayInit)), proto)
      ensures View() == State(HANDSHAKE_LEN, [], false)
    {
      var cipher := Cipher(relayInit[8..40], relayInit[40..56]);
      assert PrekeyIv(relayInit)[..32] == relayInit[8..40] && PrekeyIv(relayInit)[32..] == relayInit[40..56];
      w := Wire(p, cipher, proto);
      var stream := new CtrStream(p, cipher);
      dec := stream;
      cipherBuf, plainBuf, disabled := [], [], false;
      new;
      var zeros: Bytes := seq(HANDSHAKE_LEN, _ => 0);
      var _ := dec.Update(zeros);
    }

    function NextAbridgedLen(offset: nat, available: nat): Option<nat>
      requires offset + available == |plainBuf| && available > 0
      reads this
    {
      var first := plainBuf[offset];
      if first in {0x7f, 0xff} then
        if available < 4 then None
        else Whole(4, LE(plainBuf[offset + 1..offset + 4]) * 4, available)
      else Whole(1, first as nat % 0x80 * 4, available)
    }

    function NextIntermediateLen(offset: nat, available: nat): Option<nat>
      requires offset + available == |plainBuf|
      reads this
    {
      if available < 4 then None
      else Whole(4, LE(plainBuf[offset..offset + 4]) % 0x8000_0000, available)
    }

    /** The length found at an offset is the length found after deleting up to it. */
    function NextPacketLen(offset: nat, available: nat): (r: Option<nat>)
      requires offset + available == |plainBuf|
      reads this
      ensures r == FrameLen(w.proto, plainBuf[offset..])
    {
      if available == 0 then None
      else if w.proto == PROTO_ABRIDGED_INT then
        assert available >= 4 ==> plainBuf[offset..][1..4] == plainBuf[offset + 1..offset + 4];
        NextAbridgedLen(offset, available)
      else if w.proto in {PROTO_INTERMEDIATE_INT, PROTO_PADDED_INTERMEDIATE_INT} then
        assert available >= 4 ==> plainBuf[offset..][..4] == plainBuf[offset..offset + 4];
        NextIntermediateLen(offset, available)
      else Some(0)
    }

    /** `split`: the offset walk with one deletion at the end does what `Step` says. */
    method Split(chunk: Bytes) returns (parts: seq<Bytes>)
      requires Valid()
      modifies this, dec
      ensures Valid() && (View(), parts) == Step(w, old(View()), chunk)
    {
      hide FrameLen, Plain, Cut, CutSoFar;
      if chunk == [] {
        return [];
      }
      if disabled {
        return [chunk];
      }
      ghost var start := dec.position - |cipherBuf|;
      ghost var data := cipherBuf + chunk;
      PlainConcat(w, start, cipherBuf, chunk);
      cipherBuf := cipherBuf + chunk;
      var plain := dec.Update(chunk);
      plainBuf := plainBuf + plain;
      PlainIsCrypt(w, dec.position - |chunk|, chunk);
      CutBegins(w, start, data);

      parts := [];
      var offset := 0;
      var length := |cipherBuf|;
      while offset < length
        modifies `disabled
        invariant offset <= length == |cipherBuf| && cipherBuf == data && plainBuf == Plain(w, start, data)
        invariant if disabled then offset == length && CutToTheEnd(w, start, data, parts)
                  else CutSoFar(w, start, data, offset, parts)
      {
        var packetLen := NextPacketLen(offset, length - offset);
        PlainDrop(w, start, data, offset);
        if packetLen.None? {
          break;
        }
        if packetLen.value == 0 {
          CutBreaks(w, start, data, offset, parts);
          parts := parts + [cipherBuf[offset..]];
          offset := length;
          disabled := true;
          break;
        }
        CutContinues(w, start, data, offset, parts);
        parts := parts + [cipherBuf[offset..offset + packetLen.value]];
        offset := offset + packetLen.value;
      }
      PlainDrop(w, start, data, offset);
      if !disabled {
        CutStops(w, start, data, offset, parts);
      }
      if offset > 0 {
        cipherBuf := cipherBuf[offset..];
        plainBuf := plainBuf[offset..];
      }
    }

    method Flush() returns (tail: seq<Bytes>)
      requires Valid()
      modifies this
      ensures Valid() && tail == Flushed(old(View())) && View() == old(View()).(buffer := [])
    {
      if cipherBuf == [] {
        return [];
      }
      tail := [cipherBuf];
      cipherBuf, plainBuf := [], [];
    }
  }
}
