/**
  The request multiplexer of tgproxy/cf_h2.py as a step system: many channels
  share one lane, every await-free region is one step, and an adversarial
  scheduler and network choose which step comes next.
  */
module Multiplex {
  import opened Common
  import opened ChannelState
  import Numbers

  const MAX_LANE_REQUESTS: nat := 64
  const MAX_LANE_BYTES: nat := 32 * 1024 * 1024
  const MAX_LANE_REPLY_BYTES: nat := 32 * 1024 * 1024

  type ChannelId = nat

  /** Where the coroutine of a request task stands. */
  datatype Phase = Created | Posting | Over

  /** A task running `_run_request`; `content` is what `_post` has buffered of the response. */
  datatype Request = Request(
    body: Bytes,
    replay: bool,
    packet: Option<nat>,
    phase: Phase,
    sent: bool,
    cancelled: bool,
    content: Bytes)

  /** The native upload task of the channel; it holds `send_lock` unless `NoUpload`. */
  datatype Upload = NoUpload | AwaitChannel(body: Bytes) | AwaitLane(body: Bytes)

  /** The one `_recover` task of the channel. */
  datatype Recovery =
    | Watching
    | Rotating(seenAt: int, channel: ChannelId, victim: Task)
    | Replacing(body: Bytes, task: Task)
    | Ended

  datatype ReplayMark = ReplayMark(sequence: nat, at: int)

  /** What an observer of the whole run writes down; no step reads it. */
  datatype Journal = Journal(
    nativeSends: nat,
    firstSent: map<nat, int>,
    replays: seq<ReplayMark>,
    completed: seq<Item>,
    delivered: seq<Item>,
    failure: Option<Error>)
  {
    function Failing(error: Error): Journal {
      this.(failure := if failure == None then Some(error) else failure)
    }
  }

  datatype Endpoint = Endpoint(
    ch: Channel,
    tasks: seq<Request>,
    upload: Upload,
    recovery: Recovery,
    closing: bool,
    journal: Journal)

  function NewEndpoint(now: int): Endpoint {
    Endpoint(NewChannel(now), [], NoUpload, Watching, false, Journal(0, map[], [], [], [], None))
  }

  // ------------------------------------------------------------ the lane

  datatype Lane = Lane(closed: bool, inflight: int, queuedBytes: int, replyBufferBytes: int) {
    predicate HasCapacity(length: nat) {
      inflight < MAX_LANE_REQUESTS && queuedBytes + length <= MAX_LANE_BYTES
    }

    /** The counting part of `_reserve`. */
    function Reserve(length: nat): Lane {
      this.(inflight := inflight + 1, queuedBytes := queuedBytes + length)
    }

    /** `_release`. */
    function Release(length: nat): Lane {
      this.(inflight := inflight - 1, queuedBytes := queuedBytes - length)
    }
  }

  type Claim = (ChannelId, Task)

  /** Who holds what of the lane: reservations, and response bytes buffered by `_post`. */
  datatype Ledger = Ledger(
    held: map<Claim, nat>,
    reserved: multiset<Claim>,
    released: multiset<Claim>,
    buffers: map<Claim, nat>)
  {
    function Reserve(claim: Claim, length: nat): Ledger {
      this.(held := held[claim := length], reserved := reserved + multiset{claim})
    }

    function Release(claim: Claim): Ledger {
      this.(held := held - {claim}, released := released + multiset{claim})
    }
  }

  datatype System = System(now: int, lane: Lane, ledger: Ledger, endpoints: map<ChannelId, Endpoint>)

  function Initial(): System {
    System(0, Lane(false, 0, 0, 0), Ledger(map[], multiset{}, multiset{}, map[]), map[])
  }

  // ------------------------------------------------- steps of one endpoint

  function SendNative(ep: Endpoint, body: Bytes, now: int): Endpoint {
    var packet := NativePacket(ep.ch, body, now);
    var newest := ep.ch.requests + 1;
    ep.(ch := AdmitNative(ep.ch, body, |ep.tasks|, now),
        tasks := ep.tasks + [Request(body, false, packet, Created, false, false, [])],
        journal := ep.journal.(
          nativeSends := ep.journal.nativeSends + 1,
          firstSent := if packet == Some(newest) then ep.journal.firstSent[newest := now] else ep.journal.firstSent))
  }

  function SendReplay(ep: Endpoint, i: nat, now: int): Endpoint
    requires i < |ep.ch.history|
  {
    var packet := ep.ch.history[i];
    ep.(ch := AdmitReplay(ep.ch, i, |ep.tasks|, now),
        tasks := ep.tasks + [Request(packet.body, true, Some(packet.sequence), Created, false, false, [])],
        journal := ep.journal.(replays := ep.journal.replays + [ReplayMark(packet.sequence, now)]))
  }

  /** First step of a task: a cancelled one ends here, before `_run_request` can clean up. */
  function Begin(ep: Endpoint, t: Task): Endpoint
    requires t < |ep.tasks|
  {
    var phase := if ep.tasks[t].cancelled then Over else Posting;
    ep.(tasks := ep.tasks[t := ep.tasks[t].(phase := phase)])
  }

  function Uploaded(ep: Endpoint, t: Task, now: int): Endpoint
    requires t < |ep.tasks|
  {
    ep.(ch := ep.ch.(sentSince := ep.ch.sentSince[t := now]),
        tasks := ep.tasks[t := ep.tasks[t].(sent := true)])
  }

  function ResponseStarted(ep: Endpoint, t: Task, now: int): Endpoint {
    if t in ep.ch.receiving then ep else
      ep.(ch := ep.ch.(receiving := ep.ch.receiving + {t}, lastProgress := now))
  }

  function Buffer(ep: Endpoint, t: Task, data: Bytes, now: int): Endpoint
    requires t < |ep.tasks|
  {
    ep.(ch := ep.ch.(lastProgress := now),
        tasks := ep.tasks[t := ep.tasks[t].(content := ep.tasks[t].content + data)])
  }

  function LittleInt32(data: Bytes): int
    requires |data| == 4
  {
    var n := Numbers.LE(data);
    if n >= 0x8000_0000 then n - 0x1_0000_0000 else n
  }

  datatype Outcome = Success(reply: Bytes) | Failed(error: Error) | Unwound

  /** The checks `_post` makes on a complete response body. */
  function Validate(content: Bytes): Outcome {
    if |content| % 4 != 0 then Failed(InvalidValue)
    else if |content| == 4 && LittleInt32(content) < 0 then Failed(Transport(LittleInt32(content)))
    else Success(content)
  }

  /** The queue has no place for the reply, or the channel no room for its bytes. */
  predicate Overflows(ch: Channel, reply: Bytes) {
    |ch.queue| == MAX_QUEUED_REPLIES || ch.replyBytes + |reply| > MAX_CHANNEL_BYTES
  }

  /** How the end of `_post` reaches the receiver. */
  function Settle(ep: Endpoint, outcome: Outcome, now: int): Endpoint {
    var settled := match outcome
      case Success(reply) => Complete(ep.ch, reply, now)
      case Failed(error) => Fail(ep.ch, error)
      case Unwound => ep.ch;
    ep.(ch := settled, journal := Noted(ep, outcome))
  }

  /** The observer notes every reply that completes, and the first failure, whatever the channel does with them. */
  function Noted(ep: Endpoint, outcome: Outcome): Journal {
    match outcome
    case Unwound => ep.journal
    case Failed(error) => ep.journal.Failing(error)
    case Success(reply) =>
      if reply == [] then ep.journal
      else
        var noted := ep.journal.(completed := ep.journal.completed + [Reply(reply)]);
        if Overflows(ep.ch, reply) then noted.Failing(BufferExceeded) else noted
  }

  function FinishTask(ep: Endpoint, t: Task, packet: Option<nat>): Endpoint {
    ep.(ch := Finish(ep.ch, t, packet))
  }

  /** The `finally` of `_post`, the rest of `_run_request` and `_finish_request`. */
  function End(ep: Endpoint, t: Task, outcome: Outcome, now: int): Endpoint
    requires t < |ep.tasks|
  {
    var left := ep.(ch := ep.ch.(receiving := ep.ch.receiving - {t}),
                    tasks := ep.tasks[t := ep.tasks[t].(phase := Over)]);
    FinishTask(Settle(left, outcome, now), t, ep.tasks[t].packet)
  }

  function Take(ep: Endpoint): Endpoint
    requires ep.ch.queue != []
  {
    ep.(ch := Receive(ep.ch), journal := ep.journal.(delivered := ep.journal.delivered + [ep.ch.queue[0]]))
  }

  /** The native client has taken a reply, or its connection broke. */
  function Delivered(ep: Endpoint, written: bool, now: int): Endpoint {
    ep.(ch := ep.ch.(delivering := false, lastProgress := if written then now else ep.ch.lastProgress))
  }

  /** `task.cancel()`. */
  function Cancel(ep: Endpoint, t: Task): Endpoint {
    if t >= |ep.tasks| then ep else ep.(tasks := ep.tasks[t := ep.tasks[t].(cancelled := true)])
  }

  function RotateOut(ep: Endpoint, t: Task): Endpoint {
    Cancel(ep.(ch := Rotate(ep.ch, t)), t)
  }

  /** The first half of `close`, up to waiting for the cancelled tasks. */
  function BeginClose(ep: Endpoint): Endpoint {
    var failed := Fail(ep.ch, ConnectionLost);
    ep.(ch := failed,
        closing := true,
        journal := ep.journal.Failing(ConnectionLost),
        tasks := seq(|ep.tasks|, i requires 0 <= i < |ep.tasks| =>
          if i in ep.ch.pending then ep.tasks[i].(cancelled := true) else ep.tasks[i]))
  }

  // ------------------------------------------------------ steps of the system

  datatype Act =
    | Submit(body: Bytes)
    | GrantChannel
    | GrantLane
    | AbortUpload
    | FirstStep(t: Task)
    | BodySent(t: Task)
    | Headers(t: Task)
    | Chunk(t: Task, data: Bytes)
    | BodyComplete(t: Task)
    | PostRaises(t: Task, error: Error)
    | Unwind(t: Task)
    | TakeItem
    | StartDelivery
    | EndDelivery(written: bool)
    | MakeRoom(d: ChannelId, victim: Task)
    | Scan(plan: Plan)
    | Resend
    | StartClose
    | SweepTask(t: Task)
    | FinishClose
    | StopRecovery

  datatype Event = Tick(elapsed: nat) | CloseLane | Open(c: ChannelId) | On(c: ChannelId, act: Act)

  predicate InPhase(ep: Endpoint, t: Task, phase: Phase) { t < |ep.tasks| && ep.tasks[t].phase == phase }

  predicate Running(ep: Endpoint, t: Task) { InPhase(ep, t, Posting) && !ep.tasks[t].cancelled }

  predicate AllOver(ep: Endpoint) {
    forall t :: t in ep.ch.pending && t < |ep.tasks| ==> ep.tasks[t].phase == Over
  }

  /** The channels `_make_upload_room` looks at; empty when the waiting upload already has room. */
  function RoomSources(s: System, c: ChannelId): set<ChannelId>
    requires c in s.endpoints
  {
    var ep := s.endpoints[c];
    if ep.ch.closed then {} else
    match ep.upload
    case NoUpload => {}
    case AwaitChannel(body) => if ep.ch.HasCapacity(|body|) then {} else {c}
    case AwaitLane(body) =>
      if s.lane.HasCapacity(|body|) then {} else set d | d in s.endpoints && !s.endpoints[d].ch.closeDone
  }

  /** The sort key of `_make_upload_room`: `d`'s oldest finished upload is not newer than `e`'s. */
  predicate NoNewerUpload(s: System, d: ChannelId, e: ChannelId)
    requires d in s.endpoints && e in s.endpoints
  {
    forall u :: u in s.endpoints[e].ch.sentSince ==>
      exists t :: t in s.endpoints[d].ch.sentSince && s.endpoints[d].ch.sentSince[t] <= s.endpoints[e].ch.sentSince[u]
  }

  /** `_make_upload_room` on behalf of `c` finds nothing to rotate. */
  predicate NoRoomToMake(s: System, c: ChannelId)
    requires c in s.endpoints
  {
    forall d :: d in RoomSources(s, c) && d in s.endpoints ==> CapacityCandidate(s.endpoints[d].ch, s.now, None)
  }

  /** `_make_upload_room` on behalf of `c` rotates `victim` of channel `d`. */
  predicate RotationChosen(s: System, c: ChannelId, d: ChannelId, victim: Task)
    requires c in s.endpoints
  {
    && d in RoomSources(s, c) && d in s.endpoints
    && CapacityCandidate(s.endpoints[d].ch, s.now, Some(victim))
    && forall e :: e in RoomSources(s, c) && e in s.endpoints && !CapacityCandidate(s.endpoints[e].ch, s.now, None)
         ==> NoNewerUpload(s, d, e)
  }

  /** The time the scan of `_recover` works with: read before a rotation was awaited. */
  function ScanTime(s: System, c: ChannelId): int
    requires c in s.endpoints
  {
    match s.endpoints[c].recovery
    case Rotating(seenAt, _, _) => seenAt
    case _ => s.now
  }

  /** `_recover` is between two scans, and the scan it makes now decides on `plan`. */
  predicate ScanEnabled(s: System, c: ChannelId, plan: Plan)
    requires c in s.endpoints
  {
    var ep := s.endpoints[c];
    && (match ep.recovery
        case Watching => !ep.ch.closed && NoRoomToMake(s, c)
        case Rotating(_, d, t) => d in s.endpoints && InPhase(s.endpoints[d], t, Over)
        case _ => false)
    && (if ep.ch.closed || ep.ch.NativeBackpressure() then plan == Nothing
        else ScanDecides(ep.ch, ScanTime(s, c), plan))
  }

  predicate ActEnabled(s: System, c: ChannelId, act: Act)
    requires c in s.endpoints
  {
    var ep := s.endpoints[c];
    match act
    case Submit(_) => ep.upload == NoUpload
    case GrantChannel => ep.upload.AwaitChannel? && (ep.ch.closed || ep.ch.HasCapacity(|ep.upload.body|))
    case GrantLane => ep.upload.AwaitLane? && (s.lane.closed || s.lane.HasCapacity(|ep.upload.body|))
    case AbortUpload => ep.upload != NoUpload
    case FirstStep(t) => InPhase(ep, t, Created)
    case BodySent(t) => Running(ep, t) && !ep.tasks[t].sent
    case Headers(t) => InPhase(ep, t, Posting)
    case Chunk(t, _) => Running(ep, t) && t in ep.ch.receiving
    case BodyComplete(t) => Running(ep, t) && t in ep.ch.receiving
    case PostRaises(t, _) => Running(ep, t)
    case Unwind(t) => InPhase(ep, t, Posting) && ep.tasks[t].cancelled
    case TakeItem => ep.ch.queue != []
    case StartDelivery => !ep.ch.delivering
    case EndDelivery(_) => ep.ch.delivering
    case MakeRoom(d, victim) => ep.recovery == Watching && RotationChosen(s, c, d, victim)
    case Scan(plan) => ScanEnabled(s, c, plan)
    case Resend => ep.recovery.Replacing? && InPhase(ep, ep.recovery.task, Over)
    case StartClose => true
    case SweepTask(t) => ep.closing && AllOver(ep) && t in ep.ch.pending
    case FinishClose => ep.closing && ep.ch.pending == map[]
    case StopRecovery => true
  }

  predicate Enabled(s: System, e: Event) {
    match e
    case Tick(_) => true
    case CloseLane => true
    case Open(c) => c !in s.endpoints
    case On(c, act) => c in s.endpoints && ActEnabled(s, c, act)
  }

  function With(s: System, c: ChannelId, ep: Endpoint): System { s.(endpoints := s.endpoints[c := ep]) }

  /** A request of `c` gives its reservation back to the lane when `_finish_request` removes it. */
  function GiveBack(s: System, c: ChannelId, t: Task): System
    requires c in s.endpoints
  {
    var ch := s.endpoints[c].ch;
    if t !in ch.pending then s else
      s.(lane := s.lane.Release(ch.pending[t]), ledger := s.ledger.Release((c, t)))
  }

  /** `_post` of a request that ends: its buffer, its reservation, its channel. */
  function EndRequest(s: System, c: ChannelId, t: Task, outcome: Outcome): System
    requires c in s.endpoints && t < |s.endpoints[c].tasks|
  {
    var ep := s.endpoints[c];
    var freed := s.(lane := s.lane.(replyBufferBytes := s.lane.replyBufferBytes - |ep.tasks[t].content|),
                    ledger := s.ledger.(buffers := s.ledger.buffers - {(c, t)}));
    With(GiveBack(freed, c, t), c, End(ep, t, outcome, s.now))
  }

  /** `send(body, replay=True)` as `_recover` calls it, and what it leaves `_recover` in. */
  function Replay(s: System, c: ChannelId, body: Bytes): System
    requires c in s.endpoints
  {
    var ep := s.endpoints[c];
    var skipped := With(s, c, ep.(recovery := Watching));
    var raised := With(s, c, ep.(recovery := Ended));
    if ep.upload != NoUpload || !ep.ch.HasCapacity(|body|) then skipped
    else if ep.ch.closed then raised
    else if !s.lane.HasCapacity(|body|) then skipped
    else if s.lane.closed then raised
    else
      match FindPacket(ep.ch.history, body)
      case None => skipped
      case Some(i) =>
        if ep.ch.history[i].pending.Some? || !ReplayDue(ep.ch, ep.ch.history[i], s.now) then skipped
        else
          With(s.(lane := s.lane.Reserve(|body|), ledger := s.ledger.Reserve((c, |ep.tasks|), |body|)),
               c, SendReplay(ep.(recovery := Watching), i, s.now))
  }

  /** The room `_make_upload_room` makes for `c` by giving up `victim` of channel `d`. */
  function Rotated(s: System, c: ChannelId, d: ChannelId, victim: Task): System
    requires c in s.endpoints && d in s.endpoints
  {
    var rotated := With(s, d, RotateOut(s.endpoints[d], victim));
    With(rotated, c, rotated.endpoints[c].(recovery := Rotating(s.now, d, victim)))
  }

  /** The lane's answer to a waiting upload, and the send it allows. */
  function Granted(s: System, c: ChannelId): System
    requires c in s.endpoints && s.endpoints[c].upload.AwaitLane?
  {
    var ep := s.endpoints[c];
    var body := ep.upload.body;
    if s.lane.closed || ep.ch.closed then With(s, c, ep.(upload := NoUpload))
    else
      With(s.(lane := s.lane.Reserve(|body|), ledger := s.ledger.Reserve((c, |ep.tasks|), |body|)),
           c, SendNative(ep.(upload := NoUpload), body, s.now))
  }

  function Started(s: System, c: ChannelId, t: Task): System
    requires c in s.endpoints && t < |s.endpoints[c].tasks|
  {
    var ep := s.endpoints[c];
    var begun := With(s, c, Begin(ep, t));
    if ep.tasks[t].cancelled then begun
    else begun.(ledger := s.ledger.(buffers := s.ledger.buffers[(c, t) := 0]))
  }

  function Buffered(s: System, c: ChannelId, t: Task, data: Bytes): System
    requires c in s.endpoints && t < |s.endpoints[c].tasks|
  {
    var ep := s.endpoints[c];
    var size := |ep.tasks[t].content| + |data|;
    if size > MAX_PACKET || s.lane.replyBufferBytes + |data| > MAX_LANE_REPLY_BYTES
    then EndRequest(s, c, t, Failed(BufferExceeded))
    else
      With(s.(lane := s.lane.(replyBufferBytes := s.lane.replyBufferBytes + |data|),
              ledger := s.ledger.(buffers := s.ledger.buffers[(c, t) := size])),
           c, Buffer(ep, t, data, s.now))
  }

  function Scanned(s: System, c: ChannelId, plan: Plan): System
    requires c in s.endpoints
    requires plan.Nothing? || plan.index < |s.endpoints[c].ch.history|
  {
    var ep := s.endpoints[c];
    match plan
    case Nothing => With(s, c, ep.(recovery := Watching))
    case SendAgain(i) => Replay(s, c, ep.ch.history[i].body)
    case ReplaceThenSend(i, victim) =>
      With(s, c, Cancel(ep, victim).(recovery := Replacing(ep.ch.history[i].body, victim)))
  }

  function ActStep(s: System, c: ChannelId, act: Act): System
    requires c in s.endpoints && ActEnabled(s, c, act)
  {
    var ep := s.endpoints[c];
    match act
    case Submit(body) => With(s, c, ep.(upload := AwaitChannel(body)))
    case GrantChannel => With(s, c, ep.(upload := if ep.ch.closed then NoUpload else AwaitLane(ep.upload.body)))
    case GrantLane => Granted(s, c)
    case AbortUpload => With(s, c, ep.(upload := NoUpload))
    case FirstStep(t) => Started(s, c, t)
    case BodySent(t) => With(s, c, Uploaded(ep, t, s.now))
    case Headers(t) => With(s, c, ResponseStarted(ep, t, s.now))
    case Chunk(t, data) => Buffered(s, c, t, data)
    case BodyComplete(t) => EndRequest(s, c, t, Validate(ep.tasks[t].content))
    case PostRaises(t, error) => EndRequest(s, c, t, Failed(error))
    case Unwind(t) => EndRequest(s, c, t, Unwound)
    case TakeItem => With(s, c, Take(ep))
    case StartDelivery => With(s, c, ep.(ch := ep.ch.(delivering := true)))
    case EndDelivery(written) => With(s, c, Delivered(ep, written, s.now))
    case MakeRoom(d, victim) => Rotated(s, c, d, victim)
    case Scan(plan) => Scanned(s, c, plan)
    case Resend => Replay(s, c, ep.recovery.body)
    case StartClose => With(s, c, BeginClose(ep))
    case SweepTask(t) => With(GiveBack(s, c, t), c, FinishTask(ep, t, None))
    case FinishClose => With(s, c, ep.(ch := Swept(ep.ch)))
    case StopRecovery => With(s, c, ep.(recovery := Ended))
  }

  function Step(s: System, e: Event): System
    requires Enabled(s, e)
  {
    match e
    case Tick(elapsed) => s.(now := s.now + elapsed)
    case CloseLane => s.(lane := s.lane.(closed := true))
    case Open(c) => With(s, c, NewEndpoint(s.now))
    case On(c, act) => ActStep(s, c, act)
  }

  /** A run: each state follows from the one before by an enabled step. */
  ghost predicate IsRun(states: seq<System>, events: seq<Event>) {
    && |states| == |events| + 1
    && states[0] == Initial()
    && forall i :: 0 <= i < |events| ==> Enabled(states[i], events[i]) && states[i + 1] == Step(states[i], events[i])
  }
}
