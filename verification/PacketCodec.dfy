/**
  The native side of the HTTP channel (tgproxy/cf_h2.py:106-143): reading the
  client's transport packets and framing the replies for it.
  */
module PacketCodec {
  import opened Common
  import opened Numbers
  import opened Obfuscation
  import opened Splitter
  import opened Streams

  const MAX_PACKET: nat := 4 * 1024 * 1024
  const NO_KEY: Bytes := [0, 0, 0, 0, 0, 0, 0, 0]

  /** A packet read: its body, its quick-acknowledgement bit, and how many bytes it took. */
  datatype Packet = Packet(body: Bytes, quick: bool, used: nat)

  /** The stream ended inside a packet, or the packet is not acceptable. */
  datatype ReadError = Incomplete | Invalid

  datatype Header = Header(size: nat, quick: bool, length: nat)

  /** The header at the front of decrypted bytes. */
  function DecodeHeader(tag: Bytes, plain: Bytes): Option<Header> {
    if tag == PROTO_TAG_ABRIDGED then
      if plain == [] then None
      else
        var quick, words := plain[0] >= 0x80, plain[0] as nat % 0x80;
        if words != 0x7f then Some(Header(1, quick, words * 4))
        else if |plain| < 4 then None
        else Some(Header(4, quick, LE(plain[1..4]) * 4))
    else if |plain| < 4 then None
    else Some(Header(4, LE(plain[..4]) >= 0x8000_0000, LE(plain[..4]) % 0x8000_0000))
  }

  predicate LengthAccepted(tag: Bytes, length: nat) {
    24 <= length <= MAX_PACKET + if tag == PROTO_TAG_SECURE then 15 else 0
  }

  /** The part of a padded body that is the packet; `None` if no such part makes sense. */
  function Unpad(body: Bytes): Option<Bytes>
    requires |body| >= 24
  {
    var length := |body|;
    var inner := if body[..8] == NO_KEY then 20 + LE(body[16..20]) else 24 + (length - 24) / 16 * 16;
    if 24 <= inner <= length && length - inner <= 15 then Some(body[..inner]) else None
  }

  /** `_read_packet` on the bytes from here to the end of the stream. */
  function Decode(tag: Bytes, plain: Bytes): (r: Result<Packet, ReadError>)
    ensures r.Ok? ==> 24 < r.value.used <= |plain| && |r.value.body| <= MAX_PACKET && |r.value.body| % 4 == 0
  {
    match DecodeHeader(tag, plain)
    case None => Err(Incomplete)
    case Some(header) =>
      if !LengthAccepted(tag, header.length) then Err(Invalid)
      else if |plain| < header.size + header.length then Err(Incomplete)
      else DecodeBody(tag, header, plain[header.size..header.size + header.length])
  }

  function DecodeBody(tag: Bytes, header: Header, padded: Bytes): (r: Result<Packet, ReadError>)
    requires |padded| == header.length >= 24
    ensures r.Ok? ==> r.value.used == header.size + header.length
    ensures r != Err(Incomplete)
  {
    var body := if tag == PROTO_TAG_SECURE then Unpad(padded) else Some(padded);
    if body.None? || |body.value| % 4 != 0 || |body.value| > MAX_PACKET then Err(Invalid)
    else Ok(Packet(body.value, header.quick, header.size + header.length))
  }

  /** `_encode_reply`; `padding` stands for the random bytes it adds to padded frames. */
  function Encode(body: Bytes, tag: Bytes, padding: Bytes): Result<Bytes, ()> {
    if body == [] || |body| % 4 != 0 || |body| > MAX_PACKET then Err(())
    else if tag == PROTO_TAG_ABRIDGED then
      var words := |body| / 4;
      Ok((if words < 0x7f then [words] else [0x7f] + ToLE(words, 3)) + body)
    else
      var pad := if tag == PROTO_TAG_SECURE then padding else [];
      Ok(ToLE(|body| + |pad|, 4) + body + pad)
  }

  // -------------------------------------------------------------- round trip

  /** The bodies that survive: long enough, and when padded, of a length the reader can recover. */
  predicate Recoverable(body: Bytes, tag: Bytes) {
    |body| >= 24 &&
    (tag == PROTO_TAG_SECURE ==>
       if body[..8] == NO_KEY then LE(body[16..20]) == |body| - 20 else (|body| - 24) % 16 == 0)
  }

  /** The reader sees the header the writer wrote. */
  lemma HeaderRoundTrip(body: Bytes, tag: Bytes, padding: Bytes, rest: Bytes)
    requires KnownTag(tag) && |padding| <= 3 && Encode(body, tag, padding).Ok?
    ensures var frame := Encode(body, tag, padding).value;
            var pad := if tag == PROTO_TAG_SECURE then padding else [];
            var size := if tag == PROTO_TAG_ABRIDGED && |body| < 0x7f * 4 then 1 else 4;
            && DecodeHeader(tag, frame + rest) == Some(Header(size, false, |body| + |pad|))
            && |frame| == size + |body| + |pad|
            && (frame + rest)[size..size + |body| + |pad|] == body + pad
  {
    hide LE, ToLE;
    Ranges();
    var frame := Encode(body, tag, padding).value;
    if tag != PROTO_TAG_ABRIDGED {
      var pad := if tag == PROTO_TAG_SECURE then padding else [];
      var prefix := ToLE(|body| + |pad|, 4);
      LEOfToLE(|body| + |pad|, 4);
      assert frame + rest == prefix + (body + pad) + rest;
      Pieces(prefix, body + pad, rest);
    } else if |body| / 4 < 0x7f {
      Pieces([|body| / 4], body + [], rest);
      assert frame + rest == [|body| / 4] + (body + []) + rest;
    } else {
      LEOfToLE(|body| / 4, 3);
      Pieces([0x7f] + ToLE(|body| / 4, 3), body + [], rest);
      assert frame + rest == [0x7f] + ToLE(|body| / 4, 3) + (body + []) + rest;
      assert ([0x7f] + ToLE(|body| / 4, 3))[1..4] == ToLE(|body| / 4, 3);
      assert (frame + rest)[1..4] == (frame + rest)[..4][1..4];
    }
  }

  lemma Pieces(a: Bytes, b: Bytes, c: Bytes)
    ensures (a + b + c)[..|a|] == a && (a + b + c)[|a|..|a| + |b|] == b
  {
  }

  /** Up to fifteen bytes of padding come off exactly when the body's length can be told. */
  lemma UnpadExactly(body: Bytes, padding: Bytes)
    requires |body| >= 24 && |padding| <= 15
    ensures Unpad(body + padding) == Some(body) <==> Recoverable(body, PROTO_TAG_SECURE)
  {
    var padded := body + padding;
    assert padded[..8] == body[..8] && padded[16..20] == body[16..20];
    assert padded[..|body|] == body;
    var inner := if body[..8] == NO_KEY then 20 + LE(body[16..20]) else 24 + (|padded| - 24) / 16 * 16;
    if inner <= |padded| && padded[..inner] == body {
      assert inner == |body|;
    }
  }

  /**
    Reading undoes framing exactly for the recoverable bodies, whatever the
    padding and whatever follows.
    */
  lemma RoundTrip(body: Bytes, tag: Bytes, padding: Bytes, rest: Bytes)
    requires KnownTag(tag) && |padding| <= 3 && Encode(body, tag, padding).Ok?
    ensures var frame := Encode(body, tag, padding).value;
            Decode(tag, frame + rest) == Ok(Packet(body, false, |frame|)) <==> Recoverable(body, tag)
  {
    hide DecodeHeader, Encode, Unpad, Recoverable;
    var frame := Encode(body, tag, padding).value;
    EncodedBodies(body, tag, padding);
    HeaderRoundTrip(body, tag, padding, rest);
    var pad := if tag == PROTO_TAG_SECURE then padding else [];
    assert body + [] == body;
    if |body| >= 24 {
      UnpadExactly(body, padding);
    }
  }

  /**
    A body that is lost: 28 encrypted bytes, padded or not, come back as the
    first 24, since the reader takes the rest for padding.
    */
  lemma TwentyEightBytesAreCut(body: Bytes, padding: Bytes, rest: Bytes)
    requires |body| == 28 && body[..8] != NO_KEY && |padding| <= 3
    ensures var frame := Encode(body, PROTO_TAG_SECURE, padding);
            && frame.Ok? && !Recoverable(body, PROTO_TAG_SECURE)
            && Decode(PROTO_TAG_SECURE, frame.value + rest) == Ok(Packet(body[..24], false, |frame.value|))
  {
    hide DecodeHeader;
    HeaderRoundTrip(body, PROTO_TAG_SECURE, padding, rest);
    assert (body + padding)[..8] == body[..8] && (body + padding)[..24] == body[..24];
  }

  lemma EncodedBodies(body: Bytes, tag: Bytes, padding: Bytes)
    requires KnownTag(tag) && |padding| <= 3 && Encode(body, tag, padding).Ok?
    ensures 0 < |body| <= MAX_PACKET && |body| % 4 == 0
    ensures Recoverable(body, tag) ==> |body| >= 24
    ensures |body| >= 24 && tag != PROTO_TAG_SECURE ==> Recoverable(body, tag)
  {
  }

  // --------------------------------------------------- what a client may send

  /** What a header of each transport can announce. */
  predicate Announceable(tag: Bytes, length: nat) {
    if tag == PROTO_TAG_ABRIDGED then length % 4 == 0 && length / 4 < 0x100_0000 else length < 0x8000_0000
  }

  /**
    A client's frame, octet by octet: one or four octets of header, in four-octet
    words or in octets, least significant first, with the quick-acknowledgement
    bit on top.
    */
  function ClientFrame(tag: Bytes, quick: bool, padded: Bytes): Bytes
    requires Announceable(tag, |padded|)
  {
    var n, bit := |padded|, if quick then 0x80 else 0;
    (if tag != PROTO_TAG_ABRIDGED then [n % 256, n / 256 % 256, n / 65536 % 256, n / 16777216 + bit]
     else if n / 4 < 0x7f then [n / 4 + bit]
     else [0x7f + bit, n / 4 % 256, n / 4 / 256 % 256, n / 4 / 65536]) + padded
  }

  /** The reader finds the header of a client's frame, and waits while it is cut short. */
  lemma ClientHeaderIsRead(tag: Bytes, quick: bool, padded: Bytes, rest: Bytes, k: nat)
    requires KnownTag(tag) && Announceable(tag, |padded|)
    ensures var frame := ClientFrame(tag, quick, padded);
            var size := |frame| - |padded|;
            && DecodeHeader(tag, frame + rest) == Some(Header(size, quick, |padded|))
            && (frame + rest)[size..size + |padded|] == padded
            && (k < |frame| ==> DecodeHeader(tag, frame[..k]) == if k < size then None else Some(Header(size, quick, |padded|)))
  {
    var frame := ClientFrame(tag, quick, padded);
    var size := |frame| - |padded|;
    HeaderOctets(tag, quick, padded, frame + rest);
    assert (frame + rest)[size..size + |padded|] == frame[size..] == padded;
    if k < |frame| {
      if k >= size {
        assert frame[..k][..size] == frame[..size];
        HeaderOctets(tag, quick, padded, frame[..k]);
      }
    }
  }

  lemma HeaderOctets(tag: Bytes, quick: bool, padded: Bytes, plain: Bytes)
    requires KnownTag(tag) && Announceable(tag, |padded|)
    requires var frame := ClientFrame(tag, quick, padded);
             |plain| >= |frame| - |padded| && plain[..|frame| - |padded|] == frame[..|frame| - |padded|]
    ensures var frame := ClientFrame(tag, quick, padded);
            DecodeHeader(tag, plain) == Some(Header(|frame| - |padded|, quick, |padded|))
  {
    hide LE, DecodeHeader;
    var frame, n, bit := ClientFrame(tag, quick, padded), |padded|, if quick then 0x80 else 0;
    if tag != PROTO_TAG_ABRIDGED {
      assert plain[..4] == [n % 256, n / 256 % 256, n / 65536 % 256, n / 16777216 + bit];
      LongHeaderOctets(tag, quick, n, plain);
    } else if n / 4 >= 0x7f {
      assert plain[..4] == [0x7f + bit, n / 4 % 256, n / 4 / 256 % 256, n / 4 / 65536];
      AbridgedHeaderOctets(quick, n / 4, plain);
    } else {
      assert plain[0] == plain[..1][0] == n / 4 + bit;
      ShortHeaderOctets(quick, n / 4, plain);
    }
  }

  lemma LongHeaderOctets(tag: Bytes, quick: bool, n: nat, plain: Bytes)
    requires KnownTag(tag) && tag != PROTO_TAG_ABRIDGED && n < 0x8000_0000 && |plain| >= 4
    requires plain[..4] == [n % 256, n / 256 % 256, n / 65536 % 256, n / 16777216 + if quick then 0x80 else 0]
    ensures DecodeHeader(tag, plain) == Some(Header(4, quick, n))
  {
    hide LE;
    var bit := if quick then 0x80 else 0;
    LEOfFour(plain[..4]);
    FourOctets(n);
    assert LE(plain[..4]) == n + 0x100_0000 * bit;
  }

  lemma FourOctets(n: nat)
    ensures n == n % 256 + 256 * (n / 256 % 256) + 65536 * (n / 65536 % 256) + 16777216 * (n / 16777216)
  {
    var a, b := n / 256, n / 65536;
    assert a / 256 == b && b / 256 == n / 16777216;
    assert n == 256 * a + n % 256 && a == 256 * b + a % 256 && b == 256 * (b / 256) + b % 256;
  }

  lemma ShortHeaderOctets(quick: bool, words: nat, plain: Bytes)
    requires words < 0x7f && plain != [] && plain[0] == words + if quick then 0x80 else 0
    ensures DecodeHeader(PROTO_TAG_ABRIDGED, plain) == Some(Header(1, quick, words * 4))
  {
  }

  lemma AbridgedHeaderOctets(quick: bool, words: nat, plain: Bytes)
    requires words < 0x100_0000 && |plain| >= 4
    requires plain[..4] == [0x7f + (if quick then 0x80 else 0), words % 256, words / 256 % 256, words / 65536]
    ensures DecodeHeader(PROTO_TAG_ABRIDGED, plain) == Some(Header(4, quick, words * 4))
  {
    assert plain[0] == plain[..4][0];
    assert plain[1..4] == plain[..4][1..] == [words % 256, words / 256 % 256, words / 65536];
    ToLEOctets(words);
    Ranges();
    LEOfToLE(words, 3);
  }

  /**
    What `_read_packet` makes of a client's frame, quick or not and whatever
    follows: it is refused at its header if its length is out of range; cut short
    anywhere, it is waited for; otherwise its body comes out, without the padding
    if there is any, exactly when that is the packet the client padded.
    */
  lemma ClientFramesAreRead(tag: Bytes, quick: bool, body: Bytes, padding: Bytes, rest: Bytes, k: nat)
    requires KnownTag(tag) && |padding| <= 15 && (tag != PROTO_TAG_SECURE ==> padding == [])
    requires Announceable(tag, |body| + |padding|)
    ensures var n := |body| + |padding|;
            var frame := ClientFrame(tag, quick, body + padding);
            if n < 24 || n > 4 * 1024 * 1024 + (if tag == PROTO_TAG_SECURE then 15 else 0) then
              Decode(tag, frame + rest) == Err(Invalid)
            else
              && (k < |frame| ==> Decode(tag, frame[..k]) == Err(Incomplete))
              && (|body| % 4 == 0 && |body| <= 4 * 1024 * 1024 ==>
                    (Decode(tag, frame + rest) == Ok(Packet(body, quick, |frame|)) <==> Recoverable(body, tag)))
  {
    hide DecodeHeader, LE;
    var frame := ClientFrame(tag, quick, body + padding);
    ClientHeaderIsRead(tag, quick, body + padding, rest, k);
    if |body| >= 24 {
      UnpadExactly(body, padding);
    }
    assert padding == [] ==> body + padding == body;
  }

  /** The writer's frames are such frames, without the quick-acknowledgement bit. */
  lemma RepliesAreFrames(body: Bytes, tag: Bytes, padding: Bytes)
    requires KnownTag(tag) && |padding| <= 3 && Encode(body, tag, padding).Ok?
    ensures var pad := if tag == PROTO_TAG_SECURE then padding else [];
            && Announceable(tag, |body + pad|)
            && Encode(body, tag, padding).value == ClientFrame(tag, false, body + pad)
  {
    hide ToLE;
    var pad := if tag == PROTO_TAG_SECURE then padding else [];
    ToLEOctets(|body| + |pad|);
    ToLEOctets(|body| / 4);
    assert body + [] == body;
    if tag != PROTO_TAG_ABRIDGED {
      assert ToLE(|body| + |pad|, 4) + body + pad == ToLE(|body| + |pad|, 4) + (body + pad);
    }
  }

  /** The splitter finds every such frame whole, passes a cut one on to later, and gives up at an empty one. */
  lemma SplitterSeesFrames(tag: Bytes, quick: bool, padded: Bytes, rest: Bytes, k: nat)
    requires KnownTag(tag) && Announceable(tag, |padded|)
    ensures var frame := ClientFrame(tag, quick, padded);
            && FrameLen(ProtoOf(tag), frame + rest) == Some(if padded == [] then 0 else |frame|)
            && (k < |frame| ==> FrameLen(ProtoOf(tag), frame[..k]) == None)
  {
    hide LE;
    var frame := ClientFrame(tag, quick, padded);
    ClientHeaderIsRead(tag, quick, padded, rest, k);
    HeaderIsFrameLen(tag, frame + rest);
    HeaderIsFrameLen(tag, frame[..Min(k, |frame|)]);
  }

  /** The splitter reads headers as the packet reader does. */
  lemma HeaderIsFrameLen(tag: Bytes, plain: Bytes)
    requires KnownTag(tag)
    ensures FrameLen(ProtoOf(tag), plain) ==
            match DecodeHeader(tag, plain)
            case None => None
            case Some(h) => if h.length == 0 then Some(0)
                            else if |plain| < h.size + h.length then None else Some(h.size + h.length)
  {
    hide LE;
    if plain != [] && tag == PROTO_TAG_ABRIDGED {
      assert plain[0] as nat % 0x80 == 0x7f <==> plain[0] in {0x7f, 0xff};
    }
  }

  /** The packets of a whole stream, and why there is no further one. */
  function Packets(tag: Bytes, plain: Bytes): (seq<Packet>, ReadError)
    decreases |plain|
  {
    match Decode(tag, plain)
    case Err(e) => ([], e)
    case Ok(packet) =>
      var (more, e) := Packets(tag, plain[packet.used..]);
      ([packet] + more, e)
  }

  datatype Reply = Reply(body: Bytes, padding: Bytes)

  function EncodeAll(replies: seq<Reply>, tag: Bytes): seq<Bytes>
    requires forall r :: r in replies ==> Encode(r.body, tag, r.padding).Ok?
  {
    if replies == [] then []
    else [Encode(replies[0].body, tag, replies[0].padding).value] + EncodeAll(replies[1..], tag)
  }

  function Bodies(packets: seq<Packet>): seq<Bytes> {
    if packets == [] then [] else [packets[0].body] + Bodies(packets[1..])
  }

  function ReplyBodies(replies: seq<Reply>): seq<Bytes> {
    if replies == [] then [] else [replies[0].body] + ReplyBodies(replies[1..])
  }

  /** Any number of frames one after the other are read back one by one, to the end of the stream. */
  lemma {:induction false} StreamRoundTrip(replies: seq<Reply>, tag: Bytes)
    requires KnownTag(tag)
    requires forall r :: r in replies ==> |r.padding| <= 3 && Encode(r.body, tag, r.padding).Ok? && Recoverable(r.body, tag)
    ensures var (packets, end) := Packets(tag, Concat(EncodeAll(replies, tag)));
            Bodies(packets) == ReplyBodies(replies) && end == Incomplete && forall p :: p in packets ==> !p.quick
  {
    hide Decode, Encode, Recoverable, KnownTag;
    if replies == [] {
      NothingDecodes(tag);
    } else {
      var first, rest := replies[0], Concat(EncodeAll(replies[1..], tag));
      var frame := Encode(first.body, tag, first.padding).value;
      RoundTrip(first.body, tag, first.padding, rest);
      assert EncodeAll(replies, tag)[1..] == EncodeAll(replies[1..], tag);
      assert (frame + rest)[|frame|..] == rest;
      StreamRoundTrip(replies[1..], tag);
      var packets := Packets(tag, frame + rest).0;
      assert packets[1..] == Packets(tag, rest).0;
    }
  }

  lemma NothingDecodes(tag: Bytes)
    ensures Decode(tag, []) == Err(Incomplete)
  {
  }

  /** Wherever a packet is accepted, the splitter finds a frame of the same length. */
  lemma SplitterAgrees(tag: Bytes, plain: Bytes)
    requires KnownTag(tag)
    ensures Decode(tag, plain).Ok? ==> FrameLen(ProtoOf(tag), plain) == Some(Decode(tag, plain).value.used)
    ensures Decode(tag, plain) == Err(Incomplete) ==> FrameLen(ProtoOf(tag), plain) == None
  {
    hide Unpad, LE;
    if plain != [] && tag == PROTO_TAG_ABRIDGED {
      assert plain[0] as nat % 0x80 == 0x7f <==> plain[0] in {0x7f, 0xff};
    }
  }

  /** A stream of acceptable packets is cut where it is read. */
  lemma {:induction false} SplitterAgreesOnStreams(tag: Bytes, plain: Bytes)
    requires KnownTag(tag) && Packets(tag, plain).1 == Incomplete
    ensures var packets, parse := Packets(tag, plain).0, Parse(ProtoOf(tag), plain);
            && |parse.frames| == |packets| && !parse.broken
            && forall i :: 0 <= i < |packets| ==> |parse.frames[i]| == packets[i].used
    decreases |plain|
  {
    hide Decode, FrameLen, KnownTag, ProtoOf;
    SplitterAgrees(tag, plain);
    if Decode(tag, plain).Ok? {
      SplitterAgreesOnStreams(tag, plain[Decode(tag, plain).value.used..]);
    }
  }

  // -------------------------------------------------------------- the reader

  method Plaintext(reader: StreamReader, decryptor: CtrStream, count: nat) returns (r: Option<Bytes>)
    modifies reader, decryptor
    ensures var plain := old(Crypt(decryptor.p, decryptor.cipher, decryptor.position, reader.data));
            if |plain| < count then r == None
            else && r == Some(plain[..count])
                 && reader.data == old(reader.data)[count..] && decryptor.position == old(decryptor.position) + count
                 && Crypt(decryptor.p, decryptor.cipher, decryptor.position, reader.data) == plain[count..]
  {
    ghost var data := reader.data;
    var bytes := reader.ReadExactly(count);
    if bytes.None? {
      return None;
    }
    CryptSlice(decryptor.p, decryptor.cipher, decryptor.position, data, 0, count);
    CryptSlice(decryptor.p, decryptor.cipher, decryptor.position, data, count, |data|);
    var plain := decryptor.Update(bytes.value);
    r := Some(plain);
  }

  /** `_read_packet`: what it reads, and what it leaves for the next call. */
  method ReadPacket(reader: StreamReader, decryptor: CtrStream, tag: Bytes) returns (r: Result<Packet, ReadError>)
    modifies reader, decryptor
    ensures var plain := old(Crypt(decryptor.p, decryptor.cipher, decryptor.position, reader.data));
            && r == Decode(tag, plain)
            && (r.Ok? ==> Crypt(decryptor.p, decryptor.cipher, decryptor.position, reader.data) == plain[r.value.used..])
  {
    hide Crypt, LE, DecodeBody;
    ghost var plain := Crypt(decryptor.p, decryptor.cipher, decryptor.position, reader.data);
    var header: Header;
    if tag == PROTO_TAG_ABRIDGED {
      var first := Plaintext(reader, decryptor, 1);
      if first.None? {
        return Err(Incomplete);
      }
      var quick, words := first.value[0] >= 0x80, first.value[0] as nat % 0x80;
      header := Header(1, quick, words * 4);
      if words == 0x7f {
        var three := Plaintext(reader, decryptor, 3);
        if three.None? {
          return Err(Incomplete);
        }
        assert plain[1..][..3] == plain[1..4] && plain[1..][3..] == plain[4..];
        header := Header(4, quick, LE(three.value) * 4);
      }
    } else {
      var four := Plaintext(reader, decryptor, 4);
      if four.None? {
        return Err(Incomplete);
      }
      var value := LE(four.value);
      header := Header(4, value >= 0x8000_0000, value % 0x8000_0000);
    }
    assert DecodeHeader(tag, plain) == Some(header);
    if !LengthAccepted(tag, header.length) {
      return Err(Invalid);
    }
    var padded := Plaintext(reader, decryptor, header.length);
    if padded.None? {
      return Err(Incomplete);
    }
    assert plain[header.size..][..header.length] == plain[header.size..header.size + header.length];
    assert plain[header.size..][header.length..] == plain[header.size + header.length..];
    r := DecodeBody(tag, header, padded.value);
  }

  /** The upload half of `bridge_h2`: packets are read until one cannot be. */
  method Upload(reader: StreamReader, decryptor: CtrStream, tag: Bytes) returns (packets: seq<Packet>, end: ReadError)
    modifies reader, decryptor
    ensures (packets, end) == Packets(tag, old(Crypt(decryptor.p, decryptor.cipher, decryptor.position, reader.data)))
  {
    hide Crypt, Decode;
    ghost var plain := Crypt(decryptor.p, decryptor.cipher, decryptor.position, reader.data);
    packets := [];
    assert [] + Packets(tag, plain).0 == Packets(tag, plain).0;
    var packet := ReadPacket(reader, decryptor, tag);
    while packet.Ok?
      invariant packet == Decode(tag, plain)
      invariant packet.Ok? ==> Crypt(decryptor.p, decryptor.cipher, decryptor.position, reader.data)
                               == plain[packet.value.used..]
      invariant var (more, e) := Packets(tag, plain);
                (packets + more, e) == Packets(tag, old(Crypt(decryptor.p, decryptor.cipher, decryptor.position, reader.data)))
      decreases |plain|
    {
      ghost var more := Packets(tag, plain[packet.value.used..]).0;
      assert packets + ([packet.value] + more) == (packets + [packet.value]) + more;
      packets := packets + [packet.value];
      plain := plain[packet.value.used..];
      packet := ReadPacket(reader, decryptor, tag);
    }
    assert packets + [] == packets;
    end := packet.error;
  }
}
