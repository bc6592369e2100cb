/**
  The TLS look-alike around the client connection (tgproxy/fake_tls.py:113-186):
  application data cut into records, and a stream that reads through them.
  */
module FakeTls {
  import opened Common
  import opened Numbers
  import opened Streams

  const TLS_RECORD_CCS: byte := 0x14
  const TLS_RECORD_APPDATA: byte := 0x17
  const TLS_APPDATA_MAX: nat := 16384

  // ----------------------------------------------------------------- writing

  function Record(kind: byte, body: Bytes): Bytes { [kind, 0x03, 0x03] + ToBE(|body|, 2) + body }

  /** The chunks of a write: never empty, never over the record limit. */
  function Chunks(data: Bytes): (chunks: seq<Bytes>)
    ensures forall c :: c in chunks ==> 0 < |c| <= TLS_APPDATA_MAX
    ensures Concat(chunks) == data
  {
    if data == [] then []
    else
      var n := Min(TLS_APPDATA_MAX, |data|);
      assert data == data[..n] + data[n..];
      [data[..n]] + Chunks(data[n..])
  }

  function Records(chunks: seq<Bytes>): Bytes {
    if chunks == [] then [] else Record(TLS_RECORD_APPDATA, chunks[0]) + Records(chunks[1..])
  }

  /** How many records a write takes: as many as full ones fit in, and one for the rest. */
  function RecordCount(data: Bytes): nat { (|data| + 16383) / 16384 }

  /** Octet by octet (section 5.1 of RFC 8446): type 23, version 3.3, the length in network order, and that much of the data. */
  predicate IsRecordAt(wrapped: Bytes, data: Bytes, k: nat) {
    var at, from := 16389 * k, 16384 * k;
    && from < |data|
    && var n := Min(16384, |data| - from);
       && at + 5 + n <= |wrapped|
       && wrapped[at] == 0x17 && wrapped[at + 1] == 0x03 && wrapped[at + 2] == 0x03
       && wrapped[at + 3] as int == n / 256 && wrapped[at + 4] as int == n % 256
       && wrapped[at + 5..at + 5 + n] == data[from..from + n]
  }

  /** The records of a write, one after the other, and nothing else. */
  predicate IsWrapped(wrapped: Bytes, data: Bytes) {
    && |wrapped| == |data| + 5 * RecordCount(data)
    && forall k :: 0 <= k < RecordCount(data) ==> IsRecordAt(wrapped, data, k)
  }

  lemma OneMoreRecord(wrapped: Bytes, data: Bytes, k: nat, chunk: Bytes)
    requires |wrapped| == 16389 * k && 16384 * k < |data|
    requires chunk == data[16384 * k..Min(16384 * k + 16384, |data|)]
    requires forall j :: 0 <= j < k ==> IsRecordAt(wrapped, data, j)
    ensures forall j :: 0 <= j <= k ==> IsRecordAt(wrapped + Record(TLS_RECORD_APPDATA, chunk), data, j)
  {
    hide Record, IsRecordAt;
    var record := Record(TLS_RECORD_APPDATA, chunk);
    LengthOctets(chunk);
    forall j | 0 <= j < k ensures IsRecordAt(wrapped + record, data, j) {
      RecordStays(wrapped, record, data, j);
    }
    LastRecord(wrapped, record, data, k);
  }

  lemma RecordStays(wrapped: Bytes, more: Bytes, data: Bytes, j: nat)
    requires IsRecordAt(wrapped, data, j)
    ensures IsRecordAt(wrapped + more, data, j)
  {
    var n := Min(16384, |data| - 16384 * j);
    assert (wrapped + more)[16389 * j + 5..16389 * j + 5 + n] == wrapped[16389 * j + 5..16389 * j + 5 + n];
  }

  lemma LastRecord(wrapped: Bytes, record: Bytes, data: Bytes, k: nat)
    requires |wrapped| == 16389 * k && 16384 * k < |data|
    requires var chunk := data[16384 * k..Min(16384 * k + 16384, |data|)];
             && |record| == 5 + |chunk| && record[0] == 0x17 && record[1] == 0x03 && record[2] == 0x03
             && record[3] as int == |chunk| / 256 && record[4] as int == |chunk| % 256 && record[5..] == chunk
    ensures IsRecordAt(wrapped + record, data, k)
  {
    var all, n := wrapped + record, Min(16384, |data| - 16384 * k);
    assert all[16389 * k + 5..16389 * k + 5 + n] == record[5..];
    assert forall i :: 0 <= i < 5 ==> all[16389 * k + i] == record[i];
  }

  lemma LengthOctets(chunk: Bytes)
    requires |chunk| <= 16384
    ensures var record := Record(TLS_RECORD_APPDATA, chunk);
            && |record| == 5 + |chunk| && record[0] == 0x17 && record[1] == 0x03 && record[2] == 0x03
            && record[3] as int == |chunk| / 256 && record[4] as int == |chunk| % 256 && record[5..] == chunk
  {
    var n := |chunk|;
    assert ToBE(n / 256, 1) == ToBE(n / 256 / 256, 0) + [(n / 256) % 256];
    assert ToBE(n, 2) == ToBE(n / 256, 1) + [n % 256];
  }

  /** `wrap_tls_record`. */
  method WrapTlsRecord(data: Bytes) returns (wrapped: Bytes)
    ensures IsWrapped(wrapped, data)
    ensures wrapped == Records(Chunks(data))
  {
    hide Record, Records, Chunks, IsRecordAt;
    wrapped := [];
    var offset := 0;
    ghost var k := 0;
    assert data[0..] == data;
    while offset < |data|
      invariant offset == Min(16384 * k, |data|) && |wrapped| == offset + 5 * k
      invariant k <= RecordCount(data) && (offset < |data| ==> offset == 16384 * k)
      invariant offset == |data| ==> k == RecordCount(data)
      invariant forall j :: 0 <= j < k ==> IsRecordAt(wrapped, data, j)
      invariant wrapped + Records(Chunks(data[offset..])) == Records(Chunks(data))
    {
      var chunk := data[offset..Min(offset + TLS_APPDATA_MAX, |data|)];
      OneMoreRecord(wrapped, data, k, chunk);
      LengthOctets(chunk);
      FirstRecord(data, offset);
      ghost var more := Records(Chunks(data[offset + |chunk|..]));
      assert wrapped + (Record(TLS_RECORD_APPDATA, chunk) + more) == (wrapped + Record(TLS_RECORD_APPDATA, chunk)) + more;
      wrapped := wrapped + Record(TLS_RECORD_APPDATA, chunk);
      offset := offset + |chunk|;
      k := k + 1;
    }
    NothingToWrap(data[offset..]);
  }

  lemma FirstRecord(data: Bytes, offset: nat)
    requires offset < |data|
    ensures var chunk := data[offset..Min(offset + TLS_APPDATA_MAX, |data|)];
            Records(Chunks(data[offset..])) ==
            Record(TLS_RECORD_APPDATA, chunk) + Records(Chunks(data[offset + |chunk|..]))
  {
    hide Record;
    var chunk, left := data[offset..Min(offset + TLS_APPDATA_MAX, |data|)], data[offset..];
    assert left[..|chunk|] == chunk && left[|chunk|..] == data[offset + |chunk|..];
    assert Chunks(left)[1..] == Chunks(data[offset + |chunk|..]);
  }

  lemma NothingToWrap(data: Bytes)
    requires data == []
    ensures Records(Chunks(data)) == []
  {
  }

  // ----------------------------------------------------------------- reading

  /** Application data a stream of records still holds, up to where the reader sees its end. */
  function Carried(raw: Bytes): Bytes
    decreases |raw|, 0
  {
    if |raw| < 5 then []
    else
      var size := BE(raw[3..5]);
      if raw[0] == TLS_RECORD_CCS then
        if |raw| < 5 + size then [] else Carried(raw[5 + size..])
      else if raw[0] != TLS_RECORD_APPDATA || size == 0 then []
      else InRecord(size, raw[5..])
  }

  /** The same, in the middle of a record with `left` bytes to come. */
  function InRecord(left: nat, raw: Bytes): Bytes
    decreases |raw|, 1
  {
    if |raw| < left then raw
    else if left == 0 then Carried(raw)
    else raw[..left] + Carried(raw[left..])
  }

  /** What a record carries, and what follows it. */
  lemma RecordCarries(kind: byte, body: Bytes, rest: Bytes)
    requires |body| < 65536
    ensures Carried(Record(kind, body) + rest) ==
            if kind == 0x14 then Carried(rest)
            else if kind != 0x17 || body == [] then []
            else body + Carried(rest)
  {
    Ranges();
    BEOfToBE(|body|, 2);
    var raw := Record(kind, body) + rest;
    assert raw == [kind, 0x03, 0x03] + ToBE(|body|, 2) + body + rest;
    assert raw[3..5] == ToBE(|body|, 2);
    assert raw[5..] == body + rest;
    assert raw[5 + |body|..] == rest;
    assert (body + rest)[..|body|] == body && (body + rest)[|body|..] == rest;
  }

  /** What goes over the wire: writes, and change-cipher-spec records between them. */
  datatype Piece = Written(data: Bytes) | ChangeCipherSpec(body: Bytes)

  function OnTheWire(pieces: seq<Piece>): Bytes {
    if pieces == [] then []
    else
      (match pieces[0]
       case Written(data) => Records(Chunks(data))
       case ChangeCipherSpec(body) => Record(TLS_RECORD_CCS, body)) + OnTheWire(pieces[1..])
  }

  function AllWritten(pieces: seq<Piece>): Bytes {
    if pieces == [] then []
    else (if pieces[0].Written? then pieces[0].data else []) + AllWritten(pieces[1..])
  }

  lemma {:induction false} RecordsCarry(chunks: seq<Bytes>, rest: Bytes)
    requires forall c :: c in chunks ==> 0 < |c| <= TLS_APPDATA_MAX
    ensures Carried(Records(chunks) + rest) == Concat(chunks) + Carried(rest)
  {
    hide Record, Carried;
    if chunks == [] {
      assert Records(chunks) + rest == rest;
      assert [] + Carried(rest) == Carried(rest);
    } else {
      RecordCarries(TLS_RECORD_APPDATA, chunks[0], Records(chunks[1..]) + rest);
      RecordsCarry(chunks[1..], rest);
      assert Records(chunks) + rest == Record(TLS_RECORD_APPDATA, chunks[0]) + (Records(chunks[1..]) + rest);
      assert chunks[0] + (Concat(chunks[1..]) + Carried(rest)) == (chunks[0] + Concat(chunks[1..])) + Carried(rest);
    }
  }

  /** The reader's stream is the writer's: everything written, in order, and nothing else. */
  lemma {:induction false} WireCarriesWhatWasWritten(pieces: seq<Piece>)
    requires forall p :: p in pieces ==> p.ChangeCipherSpec? ==> |p.body| < 65536
    ensures Carried(OnTheWire(pieces)) == AllWritten(pieces)
  {
    hide Record, Records;
    if pieces != [] {
      WireCarriesWhatWasWritten(pieces[1..]);
      var rest := OnTheWire(pieces[1..]);
      if pieces[0].Written? {
        RecordsCarry(Chunks(pieces[0].data), rest);
      } else {
        RecordCarries(TLS_RECORD_CCS, pieces[0].body, rest);
        assert [] + AllWritten(pieces[1..]) == AllWritten(pieces[1..]);
      }
    }
  }

  /** A read: some bytes (none at the end), or the end of the stream inside a record header. */
  datatype Read = Data(bytes: Bytes) | Cut

  class FakeTlsStream {
    const reader: StreamReader
    var readBuf: Bytes
    var readLeft: nat

    /** Everything this stream will still deliver. */
    ghost function Pending(): Bytes
      reads this, reader
    {
      readBuf + InRecord(readLeft, reader.data)
    }

    constructor (reader: StreamReader)
      ensures this.reader == reader && Pending() == Carried(reader.data)
    {
      this.reader := reader;
      readBuf, readLeft := [], 0;
    }

    /** `_read_tls_payload`: the next bytes of application data, however short the socket's reads are. */
    method ReadTlsPayload() returns (r: Read)
      modifies reader, `readLeft
      ensures r.Data? && r.bytes != [] ==>
                old(InRecord(readLeft, reader.data)) == r.bytes + InRecord(readLeft, reader.data)
      ensures r.Cut? || r.bytes == [] ==> old(InRecord(readLeft, reader.data)) == []
    {
      hide BE;
      if readLeft > 0 {
        ghost var raw := reader.data;
        var data := reader.Read(readLeft);
        if data == [] {
          return Data([]);
        }
        ShortRead(readLeft, raw, data, reader.data);
        readLeft := readLeft - |data|;
        return Data(data);
      }
      while true
        invariant readLeft == 0 && Carried(reader.data) == old(InRecord(readLeft, reader.data))
        decreases |reader.data|
      {
        ghost var raw := reader.data;
        var header := reader.ReadExactly(5);
        if header.None? {
          return Cut;
        }
        var kind, size := header.value[0], BE(header.value[3..5]);
        assert raw[..5][3..5] == raw[3..5];
        if kind == TLS_RECORD_CCS {
          if size > 0 {
            var skipped := reader.ReadExactly(size);
            if skipped.None? {
              return Cut;
            }
          }
          assert raw[5..][size..] == raw[5 + size..];
          continue;
        }
        if kind != TLS_RECORD_APPDATA {
          return Data([]);
        }
        ghost var body := reader.data;
        var data := reader.Read(Min(size, 65536));
        if data == [] {
          return Data([]);
        }
        ShortRead(size, body, data, reader.data);
        if size - |data| > 0 {
          readLeft := size - |data|;
        }
        return Data(data);
      }
    }

    /** `read`: some of the pending bytes, and none of them only when there are none. */
    method ReadSome(n: nat) returns (r: Read)
      modifies this, reader
      ensures r.Data? ==> |r.bytes| <= n
      ensures r.Data? && r.bytes != [] ==> old(Pending()) == r.bytes + Pending()
      ensures r.Cut? || (r.bytes == [] && n > 0) ==> old(Pending()) == []
    {
      if readBuf != [] {
        var k := Min(n, |readBuf|);
        r := Data(readBuf[..k]);
        assert readBuf == readBuf[..k] + readBuf[k..];
        readBuf := readBuf[k..];
        return;
      }
      var payload := ReadTlsPayload();
      if payload.Cut? || payload.bytes == [] {
        return payload;
      }
      if |payload.bytes| > n {
        readBuf := readBuf + payload.bytes[n..];
        assert payload.bytes == payload.bytes[..n] + payload.bytes[n..];
        return Data(payload.bytes[..n]);
      }
      return payload;
    }

    /** `readexactly`: succeeds exactly when that many bytes are pending, and then returns the first of them. */
    method ReadExactly(n: nat) returns (r: Option<Bytes>)
      modifies this, reader
      ensures r.Some? <==> |old(Pending())| >= n
      ensures r.Some? ==> |r.value| == n && old(Pending()) == r.value + Pending()
    {
      while |readBuf| < n
        invariant Pending() == old(Pending())
        decreases |InRecord(readLeft, reader.data)|
      {
        var payload := ReadTlsPayload();
        if payload.Cut? || payload.bytes == [] {
          return None;
        }
        ghost var more := InRecord(readLeft, reader.data);
        assert readBuf + (payload.bytes + more) == (readBuf + payload.bytes) + more;
        readBuf := readBuf + payload.bytes;
      }
      r := Some(readBuf[..n]);
      assert readBuf == readBuf[..n] + readBuf[n..];
      readBuf := readBuf[n..];
    }
  }

  /** A short read inside a record leaves the rest of the record for the next. */
  lemma ShortRead(left: nat, raw: Bytes, data: Bytes, rest: Bytes)
    requires raw == data + rest && 0 < |data| <= left
    ensures InRecord(left, raw) == data + InRecord(left - |data|, rest)
  {
    hide Carried;
    if |raw| >= left {
      assert raw[..left] == data + rest[..left - |data|];
      assert raw[left..] == rest[left - |data|..];
      if |data| == left {
        assert rest[0..] == rest && rest[..0] == [];
      }
    }
  }

  /** One call of a reader. */
  datatype Request = AtMost(n: nat) | Exactly(n: nat)

  ghost predicate Answers(results: seq<Bytes>, requests: seq<Request>) {
    && |results| <= |requests|
    && forall i :: 0 <= i < |results| ==>
         0 < |results[i]| <= requests[i].n && (requests[i].Exactly? ==> |results[i]| == requests[i].n)
  }

  /**
    Any mix of reads, over any short reads of the socket: the results are what
    was pending, in order, without loss or repetition, and a read comes back
    without bytes only when too few are left for it.
    */
  method ReadMix(stream: FakeTlsStream, requests: seq<Request>) returns (results: seq<Bytes>)
    requires forall q :: q in requests ==> q.n > 0
    modifies stream, stream.reader
    ensures Answers(results, requests)
    ensures |results| == |requests| ==> old(stream.Pending()) == Concat(results) + stream.Pending()
    ensures |results| < |requests| ==>
              var q, got := requests[|results|], |Concat(results)|;
              && Concat(results) <= old(stream.Pending())
              && |old(stream.Pending())| - got < if q.Exactly? then q.n else 1
  {
    results := [];
    while |results| < |requests|
      invariant Answers(results, requests)
      invariant old(stream.Pending()) == Concat(results) + stream.Pending()
      decreases |requests| - |results|
    {
      var q, result := requests[|results|], [];
      if q.Exactly? {
        var exact := stream.ReadExactly(q.n);
        if exact.None? {
          return;
        }
        result := exact.value;
      } else {
        var some := stream.ReadSome(q.n);
        if some.Cut? || some.bytes == [] {
          return;
        }
        result := some.bytes;
      }
      ConcatAppend(results, [result]);
      ConcatOne(result);
      assert Concat(results) + (result + stream.Pending()) == (Concat(results) + result) + stream.Pending();
      results := results + [result];
    }
  }
}
