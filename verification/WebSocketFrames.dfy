/**
  The WebSocket client (tgproxy/raw_websocket.py): masking by big-integer
  exclusive or, frames in the three length encodings of section 5.2 of
  RFC 6455, and messages put together from fragments.
  */
module WebSocketFrames {
  import opened Common
  import opened Numbers
  import opened Streams

  const OP_CONT: nat := 0x0
  const OP_TEXT: nat := 0x1
  const OP_BINARY: nat := 0x2
  const OP_CLOSE: nat := 0x8
  const OP_PING: nat := 0x9
  const OP_PONG: nat := 0xA

  const MAX_MESSAGE_LEN: nat := 16 * 1024 * 1024

  type Mask = m: Bytes | |m| == 4 witness [0, 0, 0, 0]

  // ----------------------------------------------------------------- masking

  function Repeat(mask: Bytes, times: nat): (r: Bytes)
    ensures |r| == times * |mask|
  {
    if times == 0 then [] else mask + Repeat(mask, times - 1)
  }

  /** `_xor_mask`: both operands as one big-endian integer each. */
  function XorMask(data: Bytes, mask: Mask): (r: Bytes)
    ensures |r| == |data|
  {
    if data == [] then data
    else
      var n := |data|;
      var maskRep := Repeat(mask, n / 4 + 1)[..n];
      ToBE(Xor(BE(data), BE(maskRep)), n)
  }

  function XorEach(a: Bytes, b: Bytes): (r: Bytes)
    requires |a| == |b|
    ensures |r| == |a|
  {
    seq(|a|, i requires 0 <= i < |a| => XorByte(a[i], b[i]))
  }

  lemma {:induction false} RepeatAt(mask: Mask, times: nat, i: nat)
    requires i < times * 4
    ensures Repeat(mask, times)[i] == mask[i % 4]
  {
    if i >= 4 {
      RepeatAt(mask, times - 1, i - 4);
      assert (i - 4) % 4 == i % 4;
    }
  }

  /** Exclusive or of big-endian numbers works byte by byte. */
  lemma {:induction false} XorOfBE(a: Bytes, b: Bytes)
    requires |a| == |b|
    ensures Xor(BE(a), BE(b)) == BE(XorEach(a, b))
  {
    hide Xor;
    XorOfNothing();
    if a != [] {
      var last := |a| - 1;
      XorOfBE(a[..last], b[..last]);
      ByteRange();
      XorSplits(BE(a[..last]), a[last], BE(b[..last]), b[last], 8);
      ByteXor(a[last], b[last]);
      assert XorEach(a, b)[..last] == XorEach(a[..last], b[..last]);
    }
  }

  /** The big-integer form does what section 5.3 of RFC 6455 says: octet i is combined with mask octet i mod 4. */
  lemma XorMaskIsBytewise(data: Bytes, mask: Mask)
    ensures forall i :: 0 <= i < |data| ==> XorMask(data, mask)[i] == XorByte(data[i], mask[i % 4])
  {
    hide BE, ToBE, Xor, XorByte;
    if data != [] {
      var n := |data|;
      var maskRep := Repeat(mask, n / 4 + 1)[..n];
      XorOfBE(data, maskRep);
      ToBEOfBE(XorEach(data, maskRep));
      assert XorMask(data, mask) == XorEach(data, maskRep);
      forall i | 0 <= i < n ensures XorMask(data, mask)[i] == XorByte(data[i], mask[i % 4]) {
        RepeatAt(mask, n / 4 + 1, i);
      }
    }
  }

  lemma MaskingUndoesItself(data: Bytes, mask: Mask)
    ensures XorMask(XorMask(data, mask), mask) == data
  {
    XorMaskIsBytewise(data, mask);
    XorMaskIsBytewise(XorMask(data, mask), mask);
    forall i | 0 <= i < |data| ensures XorMask(XorMask(data, mask), mask)[i] == data[i] {
      XorByteTwice(data[i], mask[i % 4]);
    }
  }

  // ------------------------------------------------------------------ frames

  datatype Frame = Frame(opcode: nat, payload: Bytes, fin: bool) {
    predicate Encodable() { opcode < 16 && |payload| < 0x1_0000_0000_0000_0000 }
  }

  /** The 7-bit length field, and the extended length after it. */
  function ShortLength(length: nat): byte {
    if length < 126 then length else if length < 65536 then 126 else 127
  }

  function ExtendedSize(short: nat): nat { if short == 126 then 2 else if short == 127 then 8 else 0 }

  /** `_build_frame`; the source only builds final frames, a peer may also send unfinished ones. */
  function BuildFrame(f: Frame, mask: Option<Mask>): Bytes
    requires f.Encodable()
  {
    var length := |f.payload|;
    var short := ShortLength(length);
    var first: byte := (if f.fin then 0x80 else 0) + f.opcode;
    var extended := ToBE(length, ExtendedSize(short));
    match mask
    case None => [first, short] + extended + f.payload
    case Some(key) => [first, 0x80 + short] + extended + key + XorMask(f.payload, key)
  }

  /** Four octets as a number, most significant first. */
  function Word(data: Bytes): nat
    requires |data| == 4
  {
    256 * (256 * (256 * data[0] as nat + data[1] as nat) + data[2] as nat) + data[3] as nat
  }

  /**
    A frame octet by octet, as sections 5.2 and 5.3 of RFC 6455 lay it out: FIN and
    opcode, the mask bit over seven bits of length or 126 or 127, two or eight more
    octets of length if they are needed, the masking key, the payload.
    */
  predicate IsFrame(bytes: Bytes, fin: bool, opcode: nat, payload: Bytes, mask: Option<Mask>) {
    var n, top := |payload|, if mask.Some? then 0x80 else 0;
    var size := 2 + if n < 126 then 0 else if n < 65536 then 2 else 8;
    var start := size + if mask.Some? then 4 else 0;
    && |bytes| == start + n
    && bytes[0] as int == (if fin then 0x80 else 0) + opcode
    && bytes[1] as int == top + (if n < 126 then n else if n < 65536 then 126 else 127)
    && (126 <= n < 65536 ==> 256 * bytes[2] as int + bytes[3] as int == n)
    && (n >= 65536 ==> 0x1_0000_0000 * Word(bytes[2..6]) + Word(bytes[6..10]) == n)
    && (mask.Some? ==> bytes[size..start] == mask.value)
    && forall i :: 0 <= i < n ==>
         bytes[start + i] == if mask.Some? then XorByte(payload[i], mask.value[i % 4]) else payload[i]
  }

  lemma BuiltFramesAreFrames(f: Frame, mask: Option<Mask>)
    requires f.Encodable()
    ensures IsFrame(BuildFrame(f, mask), f.fin, f.opcode, f.payload, mask)
  {
    hide XorMask, BE, ToBE, XorByte;
    var n := |f.payload|;
    var bytes, short := BuildFrame(f, mask), ShortLength(n);
    var extended := ToBE(n, ExtendedSize(short));
    LengthOctets(n);
    if mask.Some? {
      XorMaskIsBytewise(f.payload, mask.value);
      assert bytes == [bytes[0], bytes[1]] + extended + mask.value + XorMask(f.payload, mask.value);
    } else {
      assert bytes == [bytes[0], bytes[1]] + extended + f.payload;
    }
    assert bytes[2..2 + |extended|] == extended;
    if n >= 65536 {
      assert bytes[2..6] == extended[..4] && bytes[6..10] == extended[4..];
    } else if n >= 126 {
      assert bytes[2] == extended[0] && bytes[3] == extended[1];
    }
  }

  lemma LengthOctets(n: nat)
    requires n < 0x1_0000_0000_0000_0000
    ensures 126 <= n < 65536 ==> 256 * ToBE(n, 2)[0] as int + ToBE(n, 2)[1] as int == n
    ensures n >= 65536 ==> 0x1_0000_0000 * Word(ToBE(n, 8)[..4]) + Word(ToBE(n, 8)[4..]) == n
  {
    hide BE, ToBE;
    Ranges();
    BEOfTwo(ToBE(n, 2));
    BEOfEight(ToBE(n, 8));
    BEOfFour(ToBE(n, 8)[..4]);
    BEOfFour(ToBE(n, 8)[4..]);
    if n < 65536 {
      BEOfToBE(n, 2);
    }
    BEOfToBE(n, 8);
  }

  datatype FrameError = Incomplete | TooLarge

  /** Fields of the first two bytes. */
  datatype Head = Head(fin: bool, opcode: nat, short: nat, masked: bool)

  function DecodeHead(two: Bytes): Head
    requires |two| == 2
  {
    Head(two[0] >= 0x80, two[0] as nat % 0x10, two[1] as nat % 0x80, two[1] >= 0x80)
  }

  /** `_read_frame` on the bytes from here to the end of the stream: the frame and how many bytes it takes. */
  function DecodeFrame(data: Bytes): (r: Result<(Frame, nat), FrameError>)
    ensures r.Ok? ==> 2 <= r.value.1 <= |data| && |r.value.0.payload| <= MAX_MESSAGE_LEN
  {
    if |data| < 2 then Err(Incomplete)
    else
      var head := DecodeHead(data[..2]);
      var size := 2 + ExtendedSize(head.short);
      if |data| < size then Err(Incomplete)
      else DecodeRest(head, if size == 2 then head.short else BE(data[2..size]), size, data)
  }

  function DecodeRest(head: Head, length: nat, size: nat, data: Bytes): (r: Result<(Frame, nat), FrameError>)
    requires size <= |data|
    ensures r.Ok? ==> size <= r.value.1 <= |data| && |r.value.0.payload| <= MAX_MESSAGE_LEN
  {
    if length > MAX_MESSAGE_LEN then Err(TooLarge)
    else if head.masked then
      if |data| < size + 4 + length then Err(Incomplete)
      else
        var key: Mask := data[size..size + 4];
        Ok((Frame(head.opcode, XorMask(data[size + 4..size + 4 + length], key), head.fin), size + 4 + length))
    else if |data| < size + length then Err(Incomplete)
    else Ok((Frame(head.opcode, data[size..size + length], head.fin), size + length))
  }

  lemma Pieces(a: Bytes, b: Bytes, c: Bytes, d: Bytes, e: Bytes)
    ensures var all := a + b + c + d + e;
            var i, j, k := |a| + |b|, |a| + |b| + |c|, |a| + |b| + |c| + |d|;
            && all[..|a|] == a && all[|a|..i] == b && all[i..j] == c && all[j..k] == d && all[k..] == e
  {
  }

  lemma DecodePieces(two: Bytes, extended: Bytes, key: Bytes, payload: Bytes, rest: Bytes)
    requires |two| == 2 && |extended| == ExtendedSize(DecodeHead(two).short)
    requires |payload| == if extended == [] then DecodeHead(two).short else BE(extended)
    requires |key| == if DecodeHead(two).masked then 4 else 0
    ensures var head, size := DecodeHead(two), 2 + |extended| + |key| + |payload|;
            DecodeFrame(two + extended + key + payload + rest) ==
            if |payload| > MAX_MESSAGE_LEN then Err(TooLarge)
            else Ok((Frame(head.opcode, if head.masked then XorMask(payload, key) else payload, head.fin), size))
  {
    hide XorMask, BE, DecodeHead, ExtendedSize;
    Pieces(two, extended, key, payload, rest);
  }

  /**
    Reading undoes building, masked or not, in all three length encodings,
    whatever follows; and a frame over the limit is refused.
    */
  lemma FrameRoundTrip(f: Frame, mask: Option<Mask>, rest: Bytes)
    requires f.Encodable()
    ensures var bytes := BuildFrame(f, mask);
            DecodeFrame(bytes + rest) == if |f.payload| <= MAX_MESSAGE_LEN then Ok((f, |bytes|)) else Err(TooLarge)
    ensures |BuildFrame(f, mask)| >= 2 + |f.payload|
  {
    hide XorMask, BE, ToBE, DecodeFrame, DecodeHead;
    var short := ShortLength(|f.payload|);
    var first: byte := (if f.fin then 0x80 else 0) + f.opcode;
    var extended := ToBE(|f.payload|, ExtendedSize(short));
    Ranges();
    if short >= 126 {
      BEOfToBE(|f.payload|, ExtendedSize(short));
    }
    HeadRoundTrip(f, short, mask.Some?);
    if mask.None? {
      DecodePieces([first, short], extended, [], f.payload, rest);
      assert BuildFrame(f, mask) + rest == [first, short] + extended + [] + f.payload + rest;
    } else {
      var masked := XorMask(f.payload, mask.value);
      DecodePieces([first, 0x80 + short], extended, mask.value, masked, rest);
      assert BuildFrame(f, mask) + rest == [first, 0x80 + short] + extended + mask.value + masked + rest;
      MaskingUndoesItself(f.payload, mask.value);
    }
  }

  lemma HeadRoundTrip(f: Frame, short: byte, masked: bool)
    requires f.opcode < 16 && short < 128
    ensures var first: byte := (if f.fin then 0x80 else 0) + f.opcode;
            DecodeHead([first, if masked then 0x80 + short else short]) == Head(f.fin, f.opcode, short, masked)
  {
  }

  // ---------------------------------------------------------------- messages

  /** Input left, unfinished message, closed or not, bytes written, and how many frames that was meant to be. */
  datatype Ws = Ws(input: Bytes, frag: Bytes, closed: bool, written: Bytes, draws: nat)

  datatype Received = Message(data: Bytes) | Closed | Failed(error: FrameError)

  predicate IsData(f: Frame) { f.opcode in {OP_CONT, OP_TEXT, OP_BINARY} }

  /** The random mask of the n-th frame written, and whether writing it fails. */
  datatype Pen = Pen(keys: nat -> Mask, lost: nat -> bool)

  /** A final masked frame is written, or lost; for an answer the source does not care. */
  function Write(pen: Pen, s: Ws, opcode: nat, payload: Bytes): Ws
    requires Frame(opcode, payload, true).Encodable()
  {
    var frame := if pen.lost(s.draws) then [] else BuildFrame(Frame(opcode, payload, true), Some(pen.keys(s.draws)));
    s.(written := s.written + frame, draws := s.draws + 1)
  }

  /** What `recv` does with one frame: the new state, and a result if it returns. */
  function Handle(pen: Pen, s: Ws, f: Frame): (Ws, Option<Received>)
    requires |f.payload| <= MAX_MESSAGE_LEN
  {
    if f.opcode == OP_CLOSE then
      (Write(pen, s.(closed := true), OP_CLOSE, f.payload[..Min(2, |f.payload|)]), Some(Closed))
    else if f.opcode == OP_PING then (Write(pen, s, OP_PONG, f.payload), None)
    else if f.opcode == OP_PONG || !IsData(f) then (s, None)
    else if f.fin && s.frag == [] then (s, Some(Message(f.payload)))
    else
      var frag := s.frag + f.payload;
      if |frag| > MAX_MESSAGE_LEN then (s.(frag := frag), Some(Failed(TooLarge)))
      else if !f.fin then (s.(frag := frag), None)
      else (s.(frag := []), Some(Message(frag)))
  }

  /** `recv`: frames are handled until one of them decides. */
  function Recv(pen: Pen, s: Ws): (Ws, Received)
    decreases |s.input|
  {
    if s.closed then (s, Closed)
    else
      match DecodeFrame(s.input)
      case Err(e) => (s, Failed(e))
      case Ok((f, used)) =>
        var (next, result) := Handle(pen, s.(input := s.input[used..]), f);
        if result.Some? then (next, result.value) else Recv(pen, next)
  }

  /** No message is longer than the limit, however it was cut up. */
  lemma {:induction false} MessagesAreBounded(pen: Pen, s: Ws)
    requires |s.frag| <= MAX_MESSAGE_LEN
    ensures Recv(pen, s).1.Message? ==> |Recv(pen, s).1.data| <= MAX_MESSAGE_LEN
    ensures !Recv(pen, s).1.Failed? ==> |Recv(pen, s).0.frag| <= MAX_MESSAGE_LEN
    ensures Recv(pen, s).1.Closed? <==> Recv(pen, s).0.closed
    decreases |s.input|
  {
    hide DecodeFrame, BuildFrame;
    var frame := DecodeFrame(s.input);
    if !s.closed && frame.Ok? {
      var (next, result) := Handle(pen, s.(input := s.input[frame.value.1..]), frame.value.0);
      if result.None? {
        MessagesAreBounded(pen, next);
      }
    }
  }

  // ----------------------------------------------------------- fragmentation

  /** A frame as a peer sends it: with a mask or without. */
  datatype Sent = Sent(frame: Frame, mask: Option<Mask>)

  ghost predicate Sendable(frames: seq<Sent>) {
    forall f :: f in frames ==> f.frame.Encodable() && |f.frame.payload| <= MAX_MESSAGE_LEN
  }

  function OnTheWire(frames: seq<Sent>): Bytes
    requires Sendable(frames)
  {
    if frames == [] then [] else BuildFrame(frames[0].frame, frames[0].mask) + OnTheWire(frames[1..])
  }

  /** One message in fragments, with pings, pongs and frames of unknown kind anywhere between them. */
  ghost predicate Fragmented(frames: seq<Sent>) {
    && frames != []
    && CarriesData(frames[|frames| - 1].frame) && frames[|frames| - 1].frame.fin
    && KeepsGoing(frames[..|frames| - 1])
  }

  /** Frames after which more must come: no close, and no end of a message. */
  ghost predicate KeepsGoing(frames: seq<Sent>) {
    forall f :: f in frames ==> f.frame.opcode != 0x8 && (CarriesData(f.frame) ==> !f.frame.fin)
  }

  /** A continuation, text or binary frame (section 5.6 of RFC 6455). */
  predicate CarriesData(f: Frame) { f.opcode == 0x0 || f.opcode == 0x1 || f.opcode == 0x2 }

  function Payload(frames: seq<Sent>): Bytes {
    if frames == [] then []
    else (if CarriesData(frames[0].frame) then frames[0].frame.payload else []) + Payload(frames[1..])
  }

  /** The pongs owed for the pings among the frames, written where writing works. */
  function Answered(pen: Pen, s: Ws, frames: seq<Sent>): Ws
    requires Sendable(frames)
    decreases |frames|
  {
    if frames == [] then s
    else
      var next := if frames[0].frame.opcode == 0x9 then Write(pen, s, 0xA, frames[0].frame.payload) else s;
      Answered(pen, next, frames[1..])
  }

  lemma {:induction false} AnsweringOnlyWrites(pen: Pen, s: Ws, frames: seq<Sent>, input: Bytes, frag: Bytes)
    requires Sendable(frames)
    ensures Answered(pen, s.(input := input, frag := frag), frames)
         == Answered(pen, s, frames).(input := input, frag := frag)
    decreases |frames|
  {
    hide BuildFrame;
    if frames != [] {
      var f := frames[0].frame;
      var next := if f.opcode == OP_PING then Write(pen, s, OP_PONG, f.payload) else s;
      AnsweringOnlyWrites(pen, next, frames[1..], input, frag);
    }
  }

  /**
    A message is put together again from any fragments, with control frames
    anywhere among them: what `recv` returns is the concatenated payload, every
    ping is answered with its own payload, and the input after the last
    fragment is untouched. Over the limit it fails instead.
    */
  lemma {:induction false} FragmentsAreReassembled(pen: Pen, s: Ws, frames: seq<Sent>, rest: Bytes)
    requires !s.closed && |s.frag| <= MAX_MESSAGE_LEN && Sendable(frames) && Fragmented(frames)
    requires s.input == OnTheWire(frames) + rest
    ensures if |s.frag| + |Payload(frames)| <= MAX_MESSAGE_LEN
            then Recv(pen, s) == (Answered(pen, s, frames).(input := rest, frag := []),
                                   Message(s.frag + Payload(frames)))
            else Recv(pen, s).1 == Failed(TooLarge)
    decreases |frames|
  {
    hide DecodeFrame, BuildFrame, Write;
    var f, more := frames[0].frame, OnTheWire(frames[1..]) + rest;
    FrameRoundTrip(f, frames[0].mask, more);
    var bytes := BuildFrame(f, frames[0].mask);
    assert s.input == bytes + more;
    assert (bytes + more)[|bytes|..] == more;
    var (next, result) := Handle(pen, s.(input := more), f);
    AnsweringOnlyWrites(pen, s, frames, more, s.frag);
    if |frames| == 1 {
      assert frames[1..] == [] && more == rest;
      assert f.payload + Payload(frames[1..]) == f.payload;
      assert s.frag == [] ==> s.frag + f.payload == f.payload;
    } else if result.None? {
      FragmentsGoOn(pen, s.(input := more), frames, rest);
      FragmentsAreReassembled(pen, next, frames[1..], rest);
    }
  }

  lemma FragmentsGoOn(pen: Pen, s: Ws, frames: seq<Sent>, rest: Bytes)
    requires |frames| > 1 && Sendable(frames) && Fragmented(frames)
    requires Handle(pen, s, frames[0].frame).1.None?
    ensures var next := Handle(pen, s, frames[0].frame).0;
            && Sendable(frames[1..]) && Fragmented(frames[1..])
            && next.input == s.input && next.closed == s.closed
            && Answered(pen, next, frames[1..]).(input := rest, frag := [])
               == Answered(pen, s, frames).(input := rest, frag := [])
            && next.frag + Payload(frames[1..]) == s.frag + Payload(frames)
            && (|s.frag| <= MAX_MESSAGE_LEN ==> |next.frag| <= MAX_MESSAGE_LEN)
  {
    hide BuildFrame, Write, Handle;
    var f := frames[0].frame;
    assert frames[0] in frames[..|frames| - 1];
    HandledQuietly(pen, s, f);
    var next, w := Handle(pen, s, f).0, if f.opcode == OP_PING then Write(pen, s, OP_PONG, f.payload) else s;
    assert Answered(pen, s, frames) == Answered(pen, w, frames[1..]);
    assert next.frag + Payload(frames[1..]) == s.frag + Payload(frames) by { PayloadGoesOn(s.frag, frames); }
    assert Fragmented(frames[1..]) by {
      assert frames[1..][|frames| - 2] == frames[|frames| - 1];
      assert frames[1..][..|frames| - 2] == frames[..|frames| - 1][1..];
    }
    hide Answered, Payload, Fragmented;
    AnsweringOnlyWrites(pen, w, frames[1..], w.input, next.frag);
    assert next == w.(input := w.input, frag := next.frag);
  }

  lemma PayloadGoesOn(frag: Bytes, frames: seq<Sent>)
    requires frames != []
    ensures var f := frames[0].frame;
            (if IsData(f) then frag + f.payload else frag) + Payload(frames[1..]) == frag + Payload(frames)
  {
    var f := frames[0].frame;
    if IsData(f) {
      assert frag + (f.payload + Payload(frames[1..])) == (frag + f.payload) + Payload(frames[1..]);
    } else {
      assert [] + Payload(frames[1..]) == Payload(frames[1..]);
    }
  }

  /** Frames that end nothing are taken in: their data is kept, their pings are answered, and `recv` goes on behind them. */
  lemma {:induction false} QuietFramesPass(pen: Pen, s: Ws, frames: seq<Sent>, rest: Bytes)
    requires !s.closed && Sendable(frames) && KeepsGoing(frames)
    requires |s.frag| + |Payload(frames)| <= MAX_MESSAGE_LEN
    requires s.input == OnTheWire(frames) + rest
    ensures Recv(pen, s) == Recv(pen, Answered(pen, s, frames).(input := rest, frag := s.frag + Payload(frames)))
    decreases |frames|
  {
    hide DecodeFrame, BuildFrame, Write;
    if frames == [] {
      assert OnTheWire(frames) + rest == rest && s.frag + [] == s.frag;
    } else {
      var f, more := frames[0].frame, OnTheWire(frames[1..]) + rest;
      assert frames[0] in frames;
      FrameRoundTrip(f, frames[0].mask, more);
      var bytes := BuildFrame(f, frames[0].mask);
      assert s.input == bytes + more;
      assert (bytes + more)[|bytes|..] == more;
      var (next, result) := Handle(pen, s.(input := more), f);
      assert |s.frag| + |f.payload| <= MAX_MESSAGE_LEN || !CarriesData(f);
      HandledQuietly(pen, s.(input := more), f);
      PayloadGoesOn(s.frag, frames);
      QuietFramesPass(pen, next, frames[1..], rest);
      var w := if f.opcode == OP_PING then Write(pen, s, OP_PONG, f.payload) else s;
      assert Answered(pen, s, frames) == Answered(pen, w, frames[1..]);
      WritingIgnoresInput(pen, s, more, f.payload);
      AnsweringOnlyWrites(pen, w, frames[1..], more, next.frag);
      assert next == w.(input := more, frag := next.frag);
    }
  }

  lemma WritingIgnoresInput(pen: Pen, s: Ws, input: Bytes, payload: Bytes)
    requires Frame(OP_PONG, payload, true).Encodable()
    ensures Write(pen, s.(input := input), OP_PONG, payload) == Write(pen, s, OP_PONG, payload).(input := input)
    ensures Write(pen, s, OP_PONG, payload).frag == s.frag
  {
    hide BuildFrame;
  }

  /**
    A close ends receiving, wherever it comes and whatever follows: what was owed
    before it is answered, it is answered itself with the first two bytes of its
    payload at most, and from then on the socket is closed.
    */
  lemma CloseEndsReceiving(pen: Pen, s: Ws, frames: seq<Sent>, payload: Bytes, fin: bool, mask: Option<Mask>, rest: Bytes)
    requires !s.closed && Sendable(frames) && KeepsGoing(frames) && |payload| <= MAX_MESSAGE_LEN
    requires |s.frag| + |Payload(frames)| <= MAX_MESSAGE_LEN
    requires s.input == OnTheWire(frames) + (BuildFrame(Frame(0x8, payload, fin), mask) + rest)
    ensures var answered := Answered(pen, s, frames).(input := rest, frag := s.frag + Payload(frames), closed := true);
            && Recv(pen, s) == (Write(pen, answered, 0x8, if |payload| < 2 then payload else payload[..2]), Closed)
            && Recv(pen, answered) == (answered, Closed)
  {
    hide DecodeFrame, BuildFrame, Write, Answered;
    var more := BuildFrame(Frame(0x8, payload, fin), mask) + rest;
    QuietFramesPass(pen, s, frames, more);
    FrameRoundTrip(Frame(0x8, payload, fin), mask, rest);
    AnsweringKeepsOpen(pen, s, frames);
    assert more[|BuildFrame(Frame(0x8, payload, fin), mask)|..] == rest;
    assert |payload| < 2 ==> payload[..|payload|] == payload;
  }

  lemma {:induction false} AnsweringKeepsOpen(pen: Pen, s: Ws, frames: seq<Sent>)
    requires Sendable(frames)
    ensures Answered(pen, s, frames).closed == s.closed
    decreases |frames|
  {
    hide BuildFrame;
    if frames != [] {
      AnsweringKeepsOpen(pen, if frames[0].frame.opcode == 0x9 then Write(pen, s, 0xA, frames[0].frame.payload) else s, frames[1..]);
    }
  }

  /** A frame after which `recv` goes on: a ping is answered, a fragment is kept. */
  lemma HandledQuietly(pen: Pen, s: Ws, f: Frame)
    requires |f.payload| <= MAX_MESSAGE_LEN && Handle(pen, s, f).1.None?
    ensures Handle(pen, s, f).0 ==
            (if f.opcode == OP_PING then Write(pen, s, OP_PONG, f.payload) else s)
            .(frag := if IsData(f) then s.frag + f.payload else s.frag)
    ensures Handle(pen, s, f).0.input == s.input && Handle(pen, s, f).0.closed == s.closed
    ensures |s.frag| <= MAX_MESSAGE_LEN ==> |Handle(pen, s, f).0.frag| <= MAX_MESSAGE_LEN
  {
    hide BuildFrame;
  }

  // --------------------------------------------------------------- the class

  class RawWebSocket {
    const reader: StreamReader
    const pen: Pen
    var written: Bytes
    var draws: nat
    var closed: bool
    var frag: Bytes

    ghost function View(): Ws
      reads this, reader
    {
      Ws(reader.data, frag, closed, written, draws)
    }

    constructor (reader: StreamReader, pen: Pen)
      ensures this.reader == reader && this.pen == pen
      ensures View() == Ws(reader.data, [], false, [], 0)
    {
      this.reader, this.pen := reader, pen;
      written, draws, closed, frag := [], 0, false, [];
    }

    method WriteFrame(opcode: nat, payload: Bytes) returns (ok: bool)
      requires Frame(opcode, payload, true).Encodable()
      modifies `written, `draws
      ensures ok == !pen.lost(old(draws))
      ensures View() == Write(pen, old(View()), opcode, payload)
    {
      hide BuildFrame;
      ok := !pen.lost(draws);
      if ok {
        written := written + BuildFrame(Frame(opcode, payload, true), Some(pen.keys(draws)));
      } else {
        assert written + [] == written;
      }
      draws := draws + 1;
    }

    /** `send`: one masked binary frame, or an error when it cannot be written or the socket is closed. */
    method Send(data: Bytes) returns (ok: bool)
      requires Frame(OP_BINARY, data, true).Encodable()
      modifies `written, `draws
      ensures ok == (!closed && !pen.lost(old(draws)))
      ensures ok ==> exists frame: Bytes :: IsFrame(frame, true, 0x2, data, Some(pen.keys(old(draws)))) && written == old(written) + frame
      ensures View() == if closed then old(View()) else Write(pen, old(View()), OP_BINARY, data)
    {
      ok := !closed;
      if ok {
        BuiltFramesAreFrames(Frame(OP_BINARY, data, true), Some(pen.keys(draws)));
        ok := WriteFrame(OP_BINARY, data);
      }
    }

    /** `_read_frame`. */
    method ReadFrame() returns (r: Result<Frame, FrameError>)
      modifies reader
      ensures match DecodeFrame(old(reader.data))
              case Err(e) => r == Err(e)
              case Ok((f, used)) => r == Ok(f) && reader.data == old(reader.data)[used..]
    {
      hide DecodeHead, BE, XorMask;
      ghost var data := reader.data;
      var two := reader.ReadExactly(2);
      if two.None? {
        return Err(Incomplete);
      }
      var head := DecodeHead(two.value);
      var length := head.short;
      ghost var size := 2 + ExtendedSize(head.short);
      if length == 126 || length == 127 {
        var extended := reader.ReadExactly(if length == 126 then 2 else 8);
        if extended.None? {
          return Err(Incomplete);
        }
        assert data[2..][..size - 2] == data[2..size] && data[2..][size - 2..] == data[size..];
        length := BE(extended.value);
      }
      assert DecodeFrame(data) == DecodeRest(head, length, size, data) && reader.data == data[size..];
      if length > MAX_MESSAGE_LEN {
        return Err(TooLarge);
      }
      r := ReadPayload(head, length, data, size);
    }

    method ReadPayload(head: Head, length: nat, ghost data: Bytes, ghost size: nat) returns (r: Result<Frame, FrameError>)
      requires size <= |data| && reader.data == data[size..] && length <= MAX_MESSAGE_LEN
      modifies reader
      ensures match DecodeRest(head, length, size, data)
              case Err(e) => r == Err(e)
              case Ok((f, used)) => r == Ok(f) && reader.data == data[used..]
    {
      hide XorMask;
      if head.masked {
        var key := reader.ReadExactly(4);
        if key.None? {
          return Err(Incomplete);
        }
        assert data[size..][..4] == data[size..size + 4] && data[size..][4..] == data[size + 4..];
        var payload := reader.ReadExactly(length);
        if payload.None? {
          return Err(Incomplete);
        }
        assert data[size + 4..][..length] == data[size + 4..size + 4 + length];
        assert data[size + 4..][length..] == data[size + 4 + length..];
        return Ok(Frame(head.opcode, XorMask(payload.value, key.value), head.fin));
      }
      var payload := reader.ReadExactly(length);
      if payload.None? {
        return Err(Incomplete);
      }
      assert data[size..][..length] == data[size..size + length] && data[size..][length..] == data[size + length..];
      return Ok(Frame(head.opcode, payload.value, head.fin));
    }

    /** `recv`; after a failure nothing is promised about the input left. */
    method Receive() returns (r: Received)
      modifies reader, `written, `draws, `closed, `frag
      ensures var (s, result) := Recv(pen, old(View()));
              && r == result
              && View().(input := []) == s.(input := [])
              && (!r.Failed? ==> View() == s)
    {
      hide DecodeFrame, BuildFrame;
      while !closed
        invariant Recv(pen, View()) == Recv(pen, old(View()))
        decreases |reader.data|
      {
        ghost var s := View();
        var frame := ReadFrame();
        if frame.Err? {
          return Failed(frame.error);
        }
        var Frame(opcode, payload, fin) := frame.value;
        ghost var (next, result) := Handle(pen, s.(input := reader.data), frame.value);
        if opcode == OP_CLOSE {
          closed := true;
          var _ := WriteFrame(OP_CLOSE, payload[..Min(2, |payload|)]);
          return Closed;
        }
        if opcode == OP_PING {
          var _ := WriteFrame(OP_PONG, payload);
          continue;
        }
        if opcode == OP_PONG {
          continue;
        }
        if opcode in {OP_CONT, OP_TEXT, OP_BINARY} {
          if fin && frag == [] {
            return Message(payload);
          }
          frag := frag + payload;
          if |frag| > MAX_MESSAGE_LEN {
            return Failed(TooLarge);
          }
          if !fin {
            continue;
          }
          r := Message(frag);
          frag := [];
          return;
        }
      }
      return Closed;
    }
  }
}
