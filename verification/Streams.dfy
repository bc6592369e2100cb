/**
  `asyncio.StreamReader` as the protocols here use it.
  */
module Streams {
  import opened Common

  class StreamReader {
    /** Everything from here to the end of the stream, arrived or not. */
    var data: Bytes

    constructor (data: Bytes)
      ensures this.data == data
    {
      this.data := data;
    }

    /** `readexactly`: all of `count` bytes, or nothing if the stream ends before that. */
    method ReadExactly(count: nat) returns (r: Option<Bytes>)
      modifies this
      ensures if |old(data)| < count then r == None && data == []
              else r == Some(old(data)[..count]) && data == old(data)[count..]
    {
      if |data| < count {
        data := [];
        return None;
      }
      r := Some(data[..count]);
      data := data[count..];
    }

    /** `read`: some of the bytes, but at least one before the end of the stream. */
    method Read(count: nat) returns (r: Bytes)
      modifies this
      ensures |r| <= count && old(data) == r + data
      ensures r == [] <==> count == 0 || old(data) == []
    {
      if count == 0 || data == [] {
        return [];
      }
      var n: nat :| 1 <= n <= count && n <= |data|;
      r := data[..n];
      data := data[n..];
    }
  }
}
