/**
  The state of the HTTP/2 connection (tgproxy/h2_transport.py) and its
  await-free pieces. The h2 library appears as flow-control windows, a
  stream-id counter and lists of events.
  */
module H2Streams {
  import opened Common

  const STREAM_RECEIVE_WINDOW: int := 256 * 1024
  const CONNECTION_RECEIVE_WINDOW: int := 4 * 1024 * 1024

  type StreamId = nat

  /** Response data waiting for its reader, and the flow-control credit it uses up. */
  datatype Chunk = Chunk(data: Bytes, credit: nat)

  /**
    A stream in the connection's table. `outWindow` and `inWindow` are h2's,
    `changed` is its event flag; `inHand` is the credit of the chunk its reader
    holds. `uploaded`, `received` and `yielded` record what has passed,
    `granted` the credit the peer grants at present and `peak` the most it has.
    */
  datatype Stream = Stream(
    owner: nat, outWindow: int, inWindow: int,
    chunks: seq<Chunk>, inHand: nat, hasHeaders: bool, error: bool, ended: bool, changed: bool,
    uploaded: Bytes, finished: bool, received: Bytes, yielded: Bytes, granted: int, peak: int)

  /** The connection; `granted` and `sent` record the peer's connection-level credit and the DATA sent. */
  datatype Conn = Conn(
    maxStreams: nat, settingsReceived: bool, limit: nat, maxFrame: nat, initialWindow: nat,
    outWindow: int, inWindow: int, granted: int, sent: nat,
    failed: bool, changed: bool, nextId: StreamId, streams: map<StreamId, Stream>)

  function Max(a: int, b: int): int { if a >= b then a else b }

  function Credit(chunks: seq<Chunk>): nat {
    if chunks == [] then 0 else chunks[0].credit + Credit(chunks[1..])
  }

  function Contents(chunks: seq<Chunk>): Bytes {
    if chunks == [] then [] else chunks[0].data + Contents(chunks[1..])
  }

  // ------------------------------------------------------- reserving a stream

  predicate CanAdmit(c: Conn) { c.settingsReceived && |c.streams| < Min(c.maxStreams, c.limit) }

  function NewStream(c: Conn, owner: nat): Stream {
    Stream(owner, c.initialWindow, STREAM_RECEIVE_WINDOW, [], 0, false, false, false, false, [], false, [], [],
           c.initialWindow, c.initialWindow)
  }

  /** The turn of `reserve` that finds room; the request headers go out before the next await. */
  function Admit(c: Conn, owner: nat): Conn {
    c.(changed := false, nextId := c.nextId + 2, streams := c.streams[c.nextId := NewStream(c, owner)])
  }

  // ---------------------------------------------------------------- uploading

  /** How much of the rest of a chunk `send_body` may send now; nothing at or below zero. */
  function SendCount(c: Conn, s: Stream, left: nat): int {
    Min(left, Min(c.maxFrame, Min(c.outWindow, s.outWindow)))
  }

  function SendData(c: Conn, id: StreamId, data: Bytes): Conn
    requires id in c.streams
  {
    var s := c.streams[id];
    c.(changed := false, outWindow := c.outWindow - |data|, sent := c.sent + |data|,
       streams := c.streams[id := s.(outWindow := s.outWindow - |data|, uploaded := s.uploaded + data)])
  }

  // ------------------------------------------------ credit, release and failure

  /** `consumed`. */
  function Consumed(c: Conn, id: StreamId, credit: nat): Conn
    requires id in c.streams
  {
    var s := c.streams[id];
    if credit > 0 && !s.ended && !c.failed then
      c.(streams := c.streams[id := s.(inWindow := s.inWindow + credit)])
    else c
  }

  /** `release`, as `_ResponseStream.aclose` calls it once. */
  function Release(c: Conn, id: StreamId): Conn { c.(changed := true, streams := c.streams - {id}) }

  function Failing(s: Stream): Stream { s.(error := s.error || !s.ended, changed := true) }

  /** `fail`. */
  function Fail(c: Conn): Conn {
    if c.failed then c
    else c.(failed := true, changed := true, streams := map id | id in c.streams :: Failing(c.streams[id]))
  }

  // ------------------------------------------------------------------ reading

  /** What a turn of `_ResponseStream.__aiter__` comes to. */
  datatype Turn = Raise | Yield(data: Bytes) | Finish | Wait

  /** The credit of the chunk in the reader's hands goes back when it asks for the next one. */
  function GiveBack(c: Conn, id: StreamId): Conn
    requires id in c.streams
  {
    var s := c.streams[id];
    Consumed(c.(streams := c.streams[id := s.(inHand := 0)]), id, s.inHand)
  }

  function Iterate(c: Conn, id: StreamId): (Conn, Turn)
    requires id in c.streams
  {
    var c1 := GiveBack(c, id);
    var s := c1.streams[id].(changed := false);
    if s.error then (c1.(streams := c1.streams[id := s]), Raise)
    else if s.chunks != [] then
      var chunk := s.chunks[0];
      (c1.(streams := c1.streams[id := s.(chunks := s.chunks[1..], inHand := chunk.credit, yielded := s.yielded + chunk.data)]),
       Yield(chunk.data))
    else (c1.(streams := c1.streams[id := s]), if s.ended then Finish else Wait)
  }

  // ------------------------------------------------------------------- events

  datatype Event =
    | SettingsChanged(limit: nat, maxFrame: nat, initialWindow: nat)
    | StreamWindowUpdated(id: StreamId, amount: nat)
    | ConnectionWindowUpdated(amount: nat)
    | DataReceived(id: StreamId, data: Bytes, credit: nat)
    | ResponseReceived(id: StreamId)
    | StreamEnded(id: StreamId)
    | StreamReset(id: StreamId)
    | ConnectionTerminated

  /** Credit the events use on one stream, and on the connection. */
  function Used(events: seq<Event>, id: StreamId): nat {
    if events == [] then 0
    else (if events[0].DataReceived? && events[0].id == id then events[0].credit else 0) + Used(events[1..], id)
  }

  function UsedInAll(events: seq<Event>): nat {
    if events == [] then 0
    else (if events[0].DataReceived? then events[0].credit else 0) + UsedInAll(events[1..])
  }

  /** Credit the events grant on the connection. */
  function Granted(events: seq<Event>): nat {
    if events == [] then 0
    else (if events[0].ConnectionWindowUpdated? then events[0].amount else 0) + Granted(events[1..])
  }

  /** A stream's send window after the events; `initial` is the initial window in force before them. */
  function WindowAfter(events: seq<Event>, id: StreamId, window: int, initial: nat): int {
    if events == [] then window
    else
      match events[0]
      case SettingsChanged(_, _, w) => WindowAfter(events[1..], id, window + w - initial, w)
      case StreamWindowUpdated(i, amount) => WindowAfter(events[1..], id, if i == id then window + amount else window, initial)
      case _ => WindowAfter(events[1..], id, window, initial)
  }

  /** The peer's last settings, if there are any among the events. */
  function LastSettings(events: seq<Event>): Option<Event> {
    if events == [] then None
    else
      var later := LastSettings(events[1..]);
      if later.Some? then later else if events[0].SettingsChanged? then Some(events[0]) else None
  }

  /** `receive_data`: h2 takes in all frames before any event is looked at. */
  function Absorb(c: Conn, events: seq<Event>): Conn {
    var c1 := c.(inWindow := c.inWindow - UsedInAll(events),
                 outWindow := c.outWindow + Granted(events), granted := c.granted + Granted(events),
                 streams := map id | id in c.streams :: c.streams[id].(
                   inWindow := c.streams[id].inWindow - Used(events, id),
                   outWindow := WindowAfter(events, id, c.streams[id].outWindow, c.initialWindow),
                   granted := WindowAfter(events, id, c.streams[id].granted, c.initialWindow),
                   peak := Max(c.streams[id].peak, WindowAfter(events, id, c.streams[id].granted, c.initialWindow))));
    match LastSettings(events)
    case Some(SettingsChanged(limit, maxFrame, initial)) =>
      c1.(limit := limit, maxFrame := maxFrame, initialWindow := initial)
    case _ => c1
  }

  /** The event is about a stream. */
  predicate Addressed(e: Event) { e.DataReceived? || e.ResponseReceived? || e.StreamEnded? || e.StreamReset? }

  /** What h2 lets through: DATA within the windows, and nothing on streams that were never opened. */
  ghost predicate Acceptable(c: Conn, events: seq<Event>) {
    && (forall e :: e in events && e.DataReceived? ==> |e.data| <= e.credit)
    && (forall e :: e in events && (Addressed(e) || e.StreamWindowUpdated?) ==> e.id < c.nextId)
    && (forall id :: id in c.streams ==> Used(events, id) <= c.streams[id].inWindow)
  }

  /** The part of an event that concerns a stream in the table. */
  function OnStream(c: Conn, s: Stream, e: Event, terminated: bool): Stream {
    match e
    case DataReceived(_, data, credit) =>
      if data != [] then s.(chunks := s.chunks + [Chunk(data, credit)], received := s.received + data, changed := true)
      else if !terminated && credit > 0 && !s.ended && !c.failed then
        s.(inWindow := s.inWindow + credit, changed := true)
      else s.(changed := true)
    case ResponseReceived(_) => s.(hasHeaders := true, changed := true)
    case StreamEnded(_) => s.(ended := true, changed := true)
    case StreamReset(_) => s.(error := true, changed := true)
    case _ => s
  }

  /** One turn of the loop in `read_loop`, for all events but a GOAWAY. */
  function Handle(c: Conn, e: Event, terminated: bool): Conn {
    var c1 := if e.SettingsChanged? then c.(settingsReceived := true, changed := true)
              else if e.StreamWindowUpdated? || e.ConnectionWindowUpdated? then c.(changed := true)
              else if e.DataReceived? && e.credit > 0 && !terminated then c.(inWindow := c.inWindow + e.credit)
              else c;
    if Addressed(e) && e.id in c.streams then
      c1.(changed := c1.changed || e.StreamReset?,
          streams := c1.streams[e.id := OnStream(c, c.streams[e.id], e, terminated)])
    else c1
  }

  function HandleAll(c: Conn, events: seq<Event>, terminated: bool): Conn
    decreases |events|
  {
    if events == [] then c
    else if events[0].ConnectionTerminated? then Fail(c)
    else HandleAll(Handle(c, events[0], terminated), events[1..], terminated)
  }

  /** One batch of received bytes, up to the next await. */
  function Receive(c: Conn, events: seq<Event>): Conn {
    HandleAll(Absorb(c, events), events, ConnectionTerminated in events)
  }
}
