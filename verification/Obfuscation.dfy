/**
  Transport obfuscation: AES-CTR as a keystream nobody looks inside, the relay
  handshake the proxy generates, the client handshake it recognises, and the
  four ciphers it builds from the two (tgproxy/tg_ws_proxy.py).
  */
module Obfuscation {
  import opened Common
  import opened Numbers

  const HANDSHAKE_LEN: nat := 64
  const SKIP_LEN: nat := 8
  const PREKEY_LEN: nat := 32
  const KEY_LEN: nat := 32
  const IV_LEN: nat := 16
  const PROTO_TAG_POS: nat := 56
  const DC_IDX_POS: nat := 60

  const PROTO_TAG_ABRIDGED: Bytes := [0xef, 0xef, 0xef, 0xef]
  const PROTO_TAG_INTERMEDIATE: Bytes := [0xee, 0xee, 0xee, 0xee]
  const PROTO_TAG_SECURE: Bytes := [0xdd, 0xdd, 0xdd, 0xdd]

  const RESERVED_STARTS: seq<Bytes> := [
    [0x48, 0x45, 0x41, 0x44], [0x50, 0x4f, 0x53, 0x54], [0x47, 0x45, 0x54, 0x20],
    [0xee, 0xee, 0xee, 0xee], [0xdd, 0xdd, 0xdd, 0xdd], [0x16, 0x03, 0x01, 0x02]]

  /** The foreign primitives: AES-CTR's keystream by key, IV and position, and SHA-256. */
  datatype Primitives = Primitives(keystream: (Bytes, Bytes, nat) -> byte, sha256: Bytes -> Bytes)

  /** A key and an IV: what a CTR cipher is made of. */
  datatype Cipher = Cipher(key: Bytes, iv: Bytes)

  /** What a CTR cipher makes of `data` when it has already processed `position` bytes. */
  function Crypt(p: Primitives, c: Cipher, position: nat, data: Bytes): (out: Bytes)
    ensures |out| == |data|
  {
    seq(|data|, i requires 0 <= i < |data| => XorByte(data[i], p.keystream(c.key, c.iv, position + i)))
  }

  /** What encryption changes, bit by bit, is the keystream under that key and IV, each position used once. */
  lemma DifferenceIsKeystream(p: Primitives, c: Cipher, position: nat, data: Bytes, i: nat, k: nat)
    requires i < |data|
    ensures Bit(Crypt(p, c, position, data)[i], k) == Bit(data[i], k) <==> !Bit(p.keystream(c.key, c.iv, position + i), k)
  {
    XorIsBitwise(data[i], p.keystream(c.key, c.iv, position + i), k);
  }

  /** CTR encryption and decryption are the same operation. */
  lemma CryptTwice(p: Primitives, c: Cipher, position: nat, data: Bytes)
    ensures Crypt(p, c, position, Crypt(p, c, position, data)) == data
  {
    forall i | 0 <= i < |data|
      ensures Crypt(p, c, position, Crypt(p, c, position, data))[i] == data[i]
    {
      XorByteTwice(data[i], p.keystream(c.key, c.iv, position + i));
    }
  }

  /** A cipher fed in two pieces produces what it would have produced in one. */
  lemma CryptConcat(p: Primitives, c: Cipher, position: nat, a: Bytes, b: Bytes)
    ensures Crypt(p, c, position, a + b) == Crypt(p, c, position, a) + Crypt(p, c, position + |a|, b)
  {
  }

  lemma CryptSlice(p: Primitives, c: Cipher, position: nat, data: Bytes, lo: nat, hi: nat)
    requires lo <= hi <= |data|
    ensures Crypt(p, c, position, data)[lo..hi] == Crypt(p, c, position + lo, data[lo..hi])
  {
  }

  /** An AES-CTR stream as the shim in tgproxy/_aes.py exposes it. */
  class CtrStream {
    const p: Primitives
    const cipher: Cipher
    var position: nat

    constructor (p: Primitives, cipher: Cipher)
      ensures this.p == p && this.cipher == cipher && position == 0
    {
      this.p, this.cipher, position := p, cipher, 0;
    }

    method Update(data: Bytes) returns (out: Bytes)
      modifies this
      ensures out == Crypt(p, cipher, old(position), data) && position == old(position) + |data|
    {
      out := Crypt(p, cipher, position, data);
      position := position + |data|;
    }
  }

  // --------------------------------------------------------- 16-bit integers

  /** `struct.pack('<h', n)`; out of range is an error. */
  function PackInt16(n: int): Result<Bytes, ()> {
    if !(-0x8000 <= n < 0x8000) then Err(()) else Ok(ToLE(if n < 0 then n + 0x10000 else n, 2))
  }

  /** `int.from_bytes(data, 'little', signed=True)` of two bytes. */
  function UnpackInt16(data: Bytes): int
    requires |data| == 2
  {
    var n := LE(data);
    if n >= 0x8000 then n - 0x10000 else n
  }

  lemma Int16RoundTrip(n: int)
    requires -0x8000 <= n < 0x8000
    ensures UnpackInt16(PackInt16(n).value) == n
  {
    Ranges();
    LEOfToLE(if n < 0 then n + 0x10000 else n, 2);
  }

  lemma Int16InRange(data: Bytes)
    requires |data| == 2
    ensures -0x8000 <= UnpackInt16(data) < 0x8000
  {
    Ranges();
    ToLEOfLE(data);
  }

  // -------------------------------------------------------------- handshakes

  /** Bytes 8..56 of a handshake, in which both directions' keys and IVs lie. */
  function PrekeyIv(handshake: Bytes): Bytes
    requires |handshake| == HANDSHAKE_LEN
  {
    handshake[SKIP_LEN..SKIP_LEN + PREKEY_LEN + IV_LEN]
  }

  /** The cipher towards a server that knows no secret: the relay's. */
  function PlainCipher(prekeyIv: Bytes): Cipher
    requires |prekeyIv| == PREKEY_LEN + IV_LEN
  {
    Cipher(prekeyIv[..PREKEY_LEN], prekeyIv[PREKEY_LEN..])
  }

  /** The cipher of a client that mixes the proxy's secret into its key. */
  function SecretCipher(p: Primitives, prekeyIv: Bytes, secret: Bytes): Cipher
    requires |prekeyIv| == PREKEY_LEN + IV_LEN
  {
    Cipher(p.sha256(prekeyIv[..PREKEY_LEN] + secret), prekeyIv[PREKEY_LEN..])
  }

  function Reversed(data: Bytes): (r: Bytes)
    ensures |r| == |data|
  {
    seq(|data|, i requires 0 <= i < |data| => data[|data| - 1 - i])
  }

  /** A random block `_generate_relay_init` does not draw again. */
  predicate Unreserved(rnd: Bytes)
    requires |rnd| == HANDSHAKE_LEN
  {
    rnd[0] != 0xef && rnd[..4] !in RESERVED_STARTS && rnd[4..8] != [0, 0, 0, 0]
  }

  /** The data begin with the letters of a word. */
  predicate Spells(data: Bytes, word: string) {
    |word| <= |data| && forall i :: 0 <= i < |word| ==> data[i] as int == word[i] as int
  }

  /** Seen from outside: not the start of a plain HTTP request, of TLS, or of another transport of the protocol. */
  lemma UnreservedLooksLikeNothing(rnd: Bytes)
    requires |rnd| == HANDSHAKE_LEN
    ensures Unreserved(rnd) <==>
            && !Spells(rnd, "HEAD") && !Spells(rnd, "POST") && !Spells(rnd, "GET ")
            && rnd[..4] != [0x16, 0x03, 0x01, 0x02]
            && rnd[0] != 0xef && rnd[..4] != [0xee, 0xee, 0xee, 0xee] && rnd[..4] != [0xdd, 0xdd, 0xdd, 0xdd]
            && rnd[4..8] != [0, 0, 0, 0]
  {
    assert rnd[..4] == [rnd[0], rnd[1], rnd[2], rnd[3]];
    SpelledOut(rnd, "HEAD", [0x48, 0x45, 0x41, 0x44]);
    SpelledOut(rnd, "POST", [0x50, 0x4f, 0x53, 0x54]);
    SpelledOut(rnd, "GET ", [0x47, 0x45, 0x54, 0x20]);
  }

  lemma SpelledOut(data: Bytes, word: string, letters: Bytes)
    requires |word| == |letters| == 4 <= |data| && forall i :: 0 <= i < 4 ==> word[i] as int == letters[i] as int
    ensures Spells(data, word) <==> data[..4] == letters
  {
  }

  /** A handshake whose tail the given cipher decrypts to tag, dc and two more bytes. */
  function InitWithTail(p: Primitives, c: Cipher, rnd: Bytes, tail: Bytes): Bytes
    requires |rnd| == HANDSHAKE_LEN
  {
    rnd[..PROTO_TAG_POS] + Crypt(p, c, PROTO_TAG_POS, tail)
  }

  /**
    `_generate_relay_init`, drawing its random blocks from `draws`: the first
    unreserved block, patched so that bytes 56 and up decrypt to the tail.
    */
  method GenerateRelayInit(p: Primitives, draws: seq<Bytes>, protoTag: Bytes, dcIdx: int, filler: Bytes)
    returns (init: Result<Option<Bytes>, ()>)
    requires forall i :: 0 <= i < |draws| ==> |draws[i]| == HANDSHAKE_LEN
    requires |protoTag| == 4 && |filler| == 2
    ensures init == Ok(None) <==> forall i :: 0 <= i < |draws| ==> !Unreserved(draws[i])
    ensures init == Err(()) <==> !(-0x8000 <= dcIdx < 0x8000) && exists i :: 0 <= i < |draws| && Unreserved(draws[i])
    ensures init.Ok? && init.value.Some? ==>
              exists k :: 0 <= k < |draws| && Unreserved(draws[k]) && (forall i :: 0 <= i < k ==> !Unreserved(draws[i]))
                && init.value.value == InitWithTail(p, PlainCipher(PrekeyIv(draws[k])), draws[k],
                                                    protoTag + PackInt16(dcIdx).value + filler)
  {
    var k := 0;
    while k < |draws| && !Unreserved(draws[k])
      invariant k <= |draws|
      invariant forall i :: 0 <= i < k ==> !Unreserved(draws[i])
    {
      k := k + 1;
    }
    if k == |draws| {
      return Ok(None);
    }
    var rnd := draws[k];
    var encryptor := new CtrStream(p, PlainCipher(PrekeyIv(rnd)));
    var dc := PackInt16(dcIdx);
    if dc.Err? {
      return Err(());
    }
    var tail := protoTag + dc.value + filler;
    var encrypted := encryptor.Update(rnd);
    var keystream: Bytes := seq(8, i requires 0 <= i < 8 => XorByte(encrypted[56 + i], rnd[56 + i]));
    var patch: Bytes := seq(8, i requires 0 <= i < 8 => XorByte(tail[i], keystream[i]));
    TailFromKeystream(p, encryptor.cipher, rnd, tail, keystream, patch);
    return Ok(Some(rnd[..PROTO_TAG_POS] + patch));
  }

  /** The difference of a block and its encryption is the keystream. */
  lemma TailFromKeystream(p: Primitives, c: Cipher, rnd: Bytes, tail: Bytes, keystream: Bytes, patch: Bytes)
    requires |rnd| == HANDSHAKE_LEN && |tail| == |keystream| == |patch| == 8
    requires forall i :: 0 <= i < 8 ==> keystream[i] == XorByte(Crypt(p, c, 0, rnd)[56 + i], rnd[56 + i])
    requires forall i :: 0 <= i < 8 ==> patch[i] == XorByte(tail[i], keystream[i])
    ensures patch == Crypt(p, c, PROTO_TAG_POS, tail)
  {
    forall i | 0 <= i < 8 ensures patch[i] == Crypt(p, c, PROTO_TAG_POS, tail)[i] {
      XorByteTwice(rnd[56 + i], p.keystream(c.key, c.iv, 56 + i));
    }
  }

  /** What the holder of the cipher reads in a handshake: bytes 0..56 as drawn, the tail in clear. */
  lemma InitDecrypts(p: Primitives, c: Cipher, rnd: Bytes, tail: Bytes)
    requires |rnd| == HANDSHAKE_LEN && |tail| == 8
    ensures var init := InitWithTail(p, c, rnd, tail);
            && |init| == HANDSHAKE_LEN
            && init[..PROTO_TAG_POS] == rnd[..PROTO_TAG_POS]
            && PrekeyIv(init) == PrekeyIv(rnd)
            && (Unreserved(rnd) ==> Unreserved(init))
            && Crypt(p, c, 0, init)[PROTO_TAG_POS..] == tail
  {
    var init := InitWithTail(p, c, rnd, tail);
    assert init[..PROTO_TAG_POS] == rnd[..PROTO_TAG_POS];
    assert PrekeyIv(init) == init[..PROTO_TAG_POS][SKIP_LEN..] == PrekeyIv(rnd);
    assert init[..4] == init[..PROTO_TAG_POS][..4] == rnd[..4];
    assert init[4..8] == init[..PROTO_TAG_POS][4..8] == rnd[4..8];
    CryptSlice(p, c, 0, init, PROTO_TAG_POS, HANDSHAKE_LEN);
    assert init[PROTO_TAG_POS..HANDSHAKE_LEN] == Crypt(p, c, PROTO_TAG_POS, tail);
    CryptTwice(p, c, PROTO_TAG_POS, tail);
    assert Crypt(p, c, 0, init)[PROTO_TAG_POS..] == Crypt(p, c, 0, init)[PROTO_TAG_POS..HANDSHAKE_LEN];
  }

  /**
    The upstream finds, in a handshake generated from any unreserved block, the
    first 56 bytes as drawn, the protocol tag and the signed data centre; and
    the handshake starts like no other protocol.
    */
  lemma UpstreamReadsTheRelayInit(p: Primitives, rnd: Bytes, protoTag: Bytes, dcIdx: int, filler: Bytes)
    requires |rnd| == HANDSHAKE_LEN && Unreserved(rnd)
    requires |protoTag| == 4 && |filler| == 2 && -0x8000 <= dcIdx < 0x8000
    ensures var init := InitWithTail(p, PlainCipher(PrekeyIv(rnd)), rnd, protoTag + PackInt16(dcIdx).value + filler);
            && |init| == HANDSHAKE_LEN && Unreserved(init) && init[..PROTO_TAG_POS] == rnd[..PROTO_TAG_POS]
            && var clear := Crypt(p, PlainCipher(PrekeyIv(init)), 0, init);
               && clear[PROTO_TAG_POS..DC_IDX_POS] == protoTag
               && UnpackInt16(clear[DC_IDX_POS..DC_IDX_POS + 2]) == dcIdx
  {
    hide Crypt, PlainCipher, UnpackInt16;
    var c, tail := PlainCipher(PrekeyIv(rnd)), protoTag + PackInt16(dcIdx).value + filler;
    InitDecrypts(p, c, rnd, tail);
    Int16RoundTrip(dcIdx);
    var clear := Crypt(p, c, 0, InitWithTail(p, c, rnd, tail));
    assert clear[PROTO_TAG_POS..DC_IDX_POS] == clear[PROTO_TAG_POS..][..4] == protoTag;
    assert clear[DC_IDX_POS..DC_IDX_POS + 2] == clear[PROTO_TAG_POS..][4..6] == PackInt16(dcIdx).value;
  }

  datatype Handshake = Handshake(dc: nat, media: bool, protoTag: Bytes, prekeyIv: Bytes)

  predicate KnownTag(tag: Bytes) { tag in [PROTO_TAG_ABRIDGED, PROTO_TAG_INTERMEDIATE, PROTO_TAG_SECURE] }

  /** `_try_handshake`. */
  function TryHandshake(p: Primitives, handshake: Bytes, secret: Bytes): Option<Handshake>
    requires |handshake| == HANDSHAKE_LEN
  {
    var prekeyIv := PrekeyIv(handshake);
    var decrypted := Crypt(p, SecretCipher(p, prekeyIv, secret), 0, handshake);
    var tag := decrypted[PROTO_TAG_POS..PROTO_TAG_POS + 4];
    if !KnownTag(tag) then None
    else
      var dcIdx := UnpackInt16(decrypted[DC_IDX_POS..DC_IDX_POS + 2]);
      Some(Handshake(if dcIdx < 0 then -dcIdx else dcIdx, dcIdx < 0, tag, prekeyIv))
  }

  /** The handshake a client with the secret sends; built like the relay's, with the mixed key. */
  function ClientInit(p: Primitives, rnd: Bytes, secret: Bytes, protoTag: Bytes, dcIdx: int, filler: Bytes): Bytes
    requires |rnd| == HANDSHAKE_LEN && -0x8000 <= dcIdx < 0x8000
  {
    InitWithTail(p, SecretCipher(p, PrekeyIv(rnd), secret), rnd, protoTag + PackInt16(dcIdx).value + filler)
  }

  /** The proxy recovers protocol, data centre and media flag from every handshake made with its secret. */
  lemma HandshakeRoundTrip(p: Primitives, rnd: Bytes, secret: Bytes, protoTag: Bytes, dcIdx: int, filler: Bytes)
    requires |rnd| == HANDSHAKE_LEN && -0x8000 <= dcIdx < 0x8000 && |filler| == 2 && |protoTag| == 4
    ensures var init := ClientInit(p, rnd, secret, protoTag, dcIdx, filler);
            |init| == HANDSHAKE_LEN &&
            TryHandshake(p, init, secret) ==
              if KnownTag(protoTag)
              then Some(Handshake(if dcIdx < 0 then -dcIdx else dcIdx, dcIdx < 0, protoTag, PrekeyIv(rnd))) else None
  {
    var c := SecretCipher(p, PrekeyIv(rnd), secret);
    var dc := PackInt16(dcIdx).value;
    var tail := protoTag + dc + filler;
    var init := InitWithTail(p, c, rnd, tail);
    InitDecrypts(p, c, rnd, tail);
    Int16RoundTrip(dcIdx);
    var decrypted := Crypt(p, c, 0, init);
    assert decrypted[PROTO_TAG_POS..PROTO_TAG_POS + 4] == decrypted[PROTO_TAG_POS..][..4] == protoTag;
    assert decrypted[DC_IDX_POS..DC_IDX_POS + 2] == decrypted[PROTO_TAG_POS..][4..6] == dc;
  }

  // ----------------------------------------------------- data centre mapping

  /** The data centre `_handle_client` routes to: test ones are numbered from 10000. */
  function RoutedDc(dc: nat): nat { if dc >= 10000 then dc - 10000 else dc }

  /** The signed number `_handle_client` puts into the relay's handshake. */
  function RelayDcIdx(h: Handshake): int { if h.media then -(RoutedDc(h.dc) as int) else RoutedDc(h.dc) }

  /**
    Every accepted handshake can be relayed: the mapped number fits its field,
    and the upstream reads the media flag off it unless a media connection was
    mapped to data centre zero.
    */
  lemma EveryAcceptedDcFits(p: Primitives, handshake: Bytes, secret: Bytes)
    requires |handshake| == HANDSHAKE_LEN && TryHandshake(p, handshake, secret).Some?
    ensures var h := TryHandshake(p, handshake, secret).value;
            && PackInt16(RelayDcIdx(h)).Ok?
            && UnpackInt16(PackInt16(RelayDcIdx(h)).value) == RelayDcIdx(h)
            && ((RelayDcIdx(h) < 0) == h.media <==> !h.media || RoutedDc(h.dc) != 0)
            && (h.dc < 10000 ==> RoutedDc(h.dc) == h.dc) && (h.dc >= 10000 ==> h.dc == 10000 + RoutedDc(h.dc))
  {
    var decrypted := Crypt(p, SecretCipher(p, PrekeyIv(handshake), secret), 0, handshake);
    Int16InRange(decrypted[DC_IDX_POS..DC_IDX_POS + 2]);
    Int16RoundTrip(RelayDcIdx(TryHandshake(p, handshake, secret).value));
  }

  /** The one media flag that is lost: test data centre 10000, asked for media, is relayed as number zero, which has no sign. */
  lemma MediaOfTestCentreZeroIsLost(p: Primitives, rnd: Bytes, secret: Bytes, filler: Bytes)
    requires |rnd| == HANDSHAKE_LEN && |filler| == 2
    ensures var h := TryHandshake(p, ClientInit(p, rnd, secret, PROTO_TAG_ABRIDGED, -10000, filler), secret);
            && h.Some? && h.value.media && h.value.dc == 10000
            && RelayDcIdx(h.value) == 0 && UnpackInt16(PackInt16(RelayDcIdx(h.value)).value) == 0
  {
    hide TryHandshake, ClientInit;
    HandshakeRoundTrip(p, rnd, secret, PROTO_TAG_ABRIDGED, -10000, filler);
    Int16RoundTrip(0);
  }

  // --------------------------------------------------------- the four ciphers

  /** Where a cipher stands: how many bytes it has processed. */
  datatype Positioned = Positioned(cipher: Cipher, position: nat)

  /** `CryptoCtx`: from client, to client, to Telegram, from Telegram. */
  datatype CryptoCtx = CryptoCtx(cltDec: Positioned, cltEnc: Positioned, tgEnc: Positioned, tgDec: Positioned)

  /** `_build_crypto_ctx`; the two upload ciphers are moved past the 64 bytes of their handshakes. */
  function BuildCryptoCtx(p: Primitives, clientPrekeyIv: Bytes, secret: Bytes, relayInit: Bytes): CryptoCtx
    requires |clientPrekeyIv| == PREKEY_LEN + IV_LEN && |relayInit| == HANDSHAKE_LEN
  {
    CryptoCtx(Positioned(SecretCipher(p, clientPrekeyIv, secret), HANDSHAKE_LEN),
              Positioned(SecretCipher(p, Reversed(clientPrekeyIv), secret), 0),
              Positioned(PlainCipher(PrekeyIv(relayInit)), HANDSHAKE_LEN),
              Positioned(PlainCipher(Reversed(PrekeyIv(relayInit))), 0))
  }

  /**
    Where the four ciphers come from, byte by byte: upwards the key lies at 8 and
    the IV at 40 of the handshake, downwards the same 48 bytes count backwards;
    towards the client the key is hashed with the secret. The upward ciphers
    stand behind the 64 bytes of their handshakes.
    */
  lemma CiphersComeFromTheHandshakes(p: Primitives, clientInit: Bytes, secret: Bytes, relayInit: Bytes)
    requires |clientInit| == |relayInit| == 64
    ensures var ctx := BuildCryptoCtx(p, PrekeyIv(clientInit), secret, relayInit);
            && ctx.cltDec == Positioned(Cipher(p.sha256(clientInit[8..40] + secret), clientInit[40..56]), 64)
            && ctx.cltEnc == Positioned(Cipher(p.sha256(seq(32, i requires 0 <= i < 32 => clientInit[55 - i]) + secret),
                                               seq(16, i requires 0 <= i < 16 => clientInit[23 - i])), 0)
            && ctx.tgEnc == Positioned(Cipher(relayInit[8..40], relayInit[40..56]), 64)
            && ctx.tgDec == Positioned(Cipher(seq(32, i requires 0 <= i < 32 => relayInit[55 - i]),
                                              seq(16, i requires 0 <= i < 16 => relayInit[23 - i])), 0)
  {
    HalvesOfTheHandshake(clientInit);
    HalvesOfTheHandshake(relayInit);
  }

  lemma HalvesOfTheHandshake(init: Bytes)
    requires |init| == 64
    ensures PrekeyIv(init)[..32] == init[8..40] && PrekeyIv(init)[32..] == init[40..56]
    ensures Reversed(PrekeyIv(init))[..32] == seq(32, i requires 0 <= i < 32 => init[55 - i])
    ensures Reversed(PrekeyIv(init))[32..] == seq(16, i requires 0 <= i < 16 => init[23 - i])
  {
  }

  /** What `_try_handshake` looks at: tag and number at 56 and 60, under the key hashed with the secret. */
  lemma HandshakeOctets(p: Primitives, init: Bytes, secret: Bytes)
    requires |init| == 64
    ensures var clear := Crypt(p, Cipher(p.sha256(init[8..40] + secret), init[40..56]), 0, init);
            var (tag, number) := (clear[56..60], clear[60] as int + 256 * clear[61] as int);
            match TryHandshake(p, init, secret)
            case None => tag != [0xef, 0xef, 0xef, 0xef] && tag != [0xee, 0xee, 0xee, 0xee] && tag != [0xdd, 0xdd, 0xdd, 0xdd]
            case Some(h) =>
              && h.protoTag == tag && h.prekeyIv == init[8..56]
              && h.media == (number >= 0x8000)
              && h.dc == if number >= 0x8000 then 0x1_0000 - number else number
  {
    hide Crypt;
    HalvesOfTheHandshake(init);
    var clear := Crypt(p, SecretCipher(p, PrekeyIv(init), secret), 0, init);
    assert LE(clear[60..62]) == clear[60] as int + 256 * LE(clear[60..62][1..]);
    assert LE(clear[60..62][1..]) == clear[61] as int + 256 * LE(clear[60..62][1..][1..]);
  }

  /** What passes one direction of the bridge: decrypted with one cipher, encrypted with the other. */
  function Reencrypt(p: Primitives, from: Positioned, to: Positioned, data: Bytes): Bytes {
    Crypt(p, to.cipher, to.position, Crypt(p, from.cipher, from.position, data))
  }

  /** Whatever one side encrypted, the other side decrypts, if both ciphers stand where the sides do. */
  lemma ReencryptionIsTransparent(p: Primitives, from: Positioned, to: Positioned, plain: Bytes)
    ensures Crypt(p, to.cipher, to.position, Reencrypt(p, from, to, Crypt(p, from.cipher, from.position, plain))) == plain
  {
    CryptTwice(p, from.cipher, from.position, plain);
    CryptTwice(p, to.cipher, to.position, plain);
  }
}
