/**
  What the receiver of a channel gets, stated against the log of the run: every
  reply the network completed, in order, up to the first failure.
  */
module MultiplexReplies {
  import opened Common
  import opened ChannelState
  import opened ReplayHistory
  import opened Multiplex
  import opened EndpointInvariant
  import opened EndpointSteps
  import opened MultiplexInvariant
  import opened MultiplexRuns
  import opened MultiplexLog

  /** A four-byte body as a signed number, least significant byte first. */
  function Code(body: Bytes): int
    requires |body| == 4
  {
    body[0] as int + 0x100 * body[1] as int + 0x1_0000 * body[2] as int
      + 0x100_0000 * if body[3] < 128 then body[3] as int else body[3] as int - 256
  }

  /** The error that the next act on an open channel raises, if it raises one. */
  ghost function Raised(s: System, log: Log, c: ChannelId, act: Act): Option<Error>
    requires c in s.endpoints
  {
    match act
    case PostRaises(_, error) => Some(error)
    case StartClose => Some(ConnectionLost)
    case Chunk(t, data) =>
      if |Arrived(log, c, t)| + |data| > MAX_PACKET || Sum(s.ledger.buffers) + |data| > MAX_LANE_REPLY_BYTES
      then Some(BufferExceeded) else None
    case BodyComplete(t) =>
      var body, queue := Arrived(log, c, t), s.endpoints[c].ch.queue;
      if |body| % 4 != 0 then Some(InvalidValue)
      else if |body| == 4 && Code(body) < 0 then Some(Transport(Code(body)))
      else if body != [] && (|queue| >= MAX_QUEUED_REPLIES || QueuedBytes(queue) + |body| > MAX_CHANNEL_BYTES)
      then Some(BufferExceeded) else None
    case _ => None
  }

  /** What the next act on an open channel makes of its queue if it raises nothing. */
  function NextQueue(queue: seq<Item>, log: Log, c: ChannelId, act: Act): seq<Item> {
    match act
    case TakeItem => if queue == [] then queue else queue[1..]
    case BodyComplete(t) => if Arrived(log, c, t) == [] then queue else queue + [Reply(Arrived(log, c, t))]
    case _ => queue
  }

  predicate SameQueue(a: Channel, b: Channel) {
    a.queue == b.queue && a.closed == b.closed && a.transportError == b.transportError
  }

  /** The channel as an act on it must leave it, seen by its receiver. */
  ghost predicate Follows(s: System, log: Log, c: ChannelId, act: Act, after: Channel)
    requires c in s.endpoints
  {
    var ch, raised := s.endpoints[c].ch, Raised(s, log, c, act);
    if ch.closed then
      && after.closed && after.transportError == ch.transportError
      && after.queue == if act.TakeItem? && ch.queue != [] then ch.queue[1..] else ch.queue
    else if raised.Some? then
      && after.closed && after.queue == [Failure(raised.value)]
      && after.transportError == if raised.value.Transport? then Some(raised.value.code) else ch.transportError
    else
      && !after.closed && after.transportError == ch.transportError
      && after.queue == NextQueue(ch.queue, log, c, act)
  }

  /** Acts that neither the receiver nor the network takes part in. */
  predicate BypassesQueue(act: Act) {
    !act.TakeItem? && !act.Chunk? && !act.BodyComplete? && !act.PostRaises? && !act.StartClose? && !act.MakeRoom?
  }

  lemma BypassingKeepsQueue(s: System, c: ChannelId, act: Act)
    requires c in s.endpoints && ActEnabled(s, c, act) && BypassesQueue(act)
    ensures c in ActStep(s, c, act).endpoints
    ensures SameQueue(s.endpoints[c].ch, ActStep(s, c, act).endpoints[c].ch)
  {
    hide ScanDecides, CapacityCandidate, NoNewerUpload, Trim, MarkOriginal, Recall, Detach, ReplayDue, FindPacket,
      NativePacket;
  }

  lemma RotationKeepsQueue(s: System, c: ChannelId, d: ChannelId, t: Task)
    requires c in s.endpoints && d in s.endpoints
    ensures c in Rotated(s, c, d, t).endpoints && d in Rotated(s, c, d, t).endpoints
    ensures SameQueue(s.endpoints[c].ch, Rotated(s, c, d, t).endpoints[c].ch)
    ensures SameQueue(s.endpoints[d].ch, Rotated(s, c, d, t).endpoints[d].ch)
  {
    hide FindOriginal;
  }

  lemma CodeIsLittleEndian(body: Bytes)
    requires |body| == 4
    ensures Code(body) == LittleInt32(body)
  {
    Numbers.LEOfFour(body);
  }

  /** How `_post` and `_run_request` end a request, whatever the response was. */
  lemma EndFollows(ep: Endpoint, t: Task, outcome: Outcome, now: int)
    requires t < |ep.tasks|
    ensures var ch, after := ep.ch, End(ep, t, outcome, now).ch;
            SameQueue(after, match outcome
                             case Success(reply) => Complete(ch, reply, now)
                             case Failed(error) => Fail(ch, error)
                             case Unwound => ch)
  {
    hide Detach, Fail, Complete;
    CompleteIgnoresReceiving(ep.ch, ep.ch.receiving - {t}, outcome, now);
  }

  lemma CompleteIgnoresReceiving(ch: Channel, receiving: set<Task>, outcome: Outcome, now: int)
    ensures outcome.Success? ==>
              SameQueue(Complete(ch.(receiving := receiving), outcome.reply, now), Complete(ch, outcome.reply, now))
    ensures outcome.Failed? ==> SameQueue(Fail(ch.(receiving := receiving), outcome.error), Fail(ch, outcome.error))
  {
  }

  lemma EndingIsLocal(s: System, c: ChannelId, t: Task, outcome: Outcome)
    requires c in s.endpoints && t < |s.endpoints[c].tasks|
    ensures c in EndRequest(s, c, t, outcome).endpoints
    ensures EndRequest(s, c, t, outcome).endpoints[c] == End(s.endpoints[c], t, outcome, s.now)
  {
    hide End;
  }

  /** What a complete body does to the queue, in the words of the source. */
  lemma CompletionFollows(s: System, log: Log, c: ChannelId, t: Task, after: Channel)
    requires c in s.endpoints
    requires var ch, content := s.endpoints[c].ch, Arrived(log, c, t);
             && ch.replyBytes == QueuedBytes(ch.queue)
             && SameQueue(after, match Validate(content)
                                 case Success(reply) => Complete(ch, reply, s.now)
                                 case Failed(error) => Fail(ch, error)
                                 case Unwound => ch)
    ensures Follows(s, log, c, BodyComplete(t), after)
  {
    hide Arrived, LittleInt32, QueuedBytes, Sum, Code;
    if |Arrived(log, c, t)| == 4 {
      CodeIsLittleEndian(Arrived(log, c, t));
    }
  }

  lemma BodyFollows(s: System, log: Log, c: ChannelId, t: Task)
    requires c in s.endpoints && ActEnabled(s, c, BodyComplete(t))
    requires s.endpoints[c].tasks[t].content == Arrived(log, c, t)
    requires s.endpoints[c].ch.replyBytes == QueuedBytes(s.endpoints[c].ch.queue)
    ensures c in ActStep(s, c, BodyComplete(t)).endpoints
    ensures Follows(s, log, c, BodyComplete(t), ActStep(s, c, BodyComplete(t)).endpoints[c].ch)
  {
    hide Arrived, End, EndRequest, Follows, QueuedBytes, Validate, Complete, Fail, SameQueue;
    var ep := s.endpoints[c];
    var outcome := Validate(ep.tasks[t].content);
    EndingIsLocal(s, c, t, outcome);
    EndFollows(ep, t, outcome, s.now);
    CompletionFollows(s, log, c, t, End(ep, t, outcome, s.now).ch);
  }

  lemma DataFollows(s: System, log: Log, c: ChannelId, t: Task, data: Bytes)
    requires c in s.endpoints && ActEnabled(s, c, Chunk(t, data))
    requires s.endpoints[c].tasks[t].content == Arrived(log, c, t)
    requires s.lane.replyBufferBytes == Sum(s.ledger.buffers)
    ensures c in ActStep(s, c, Chunk(t, data)).endpoints
    ensures Follows(s, log, c, Chunk(t, data), ActStep(s, c, Chunk(t, data)).endpoints[c].ch)
  {
    hide Arrived, End, EndRequest, Sum, QueuedBytes;
    EndingIsLocal(s, c, t, Failed(BufferExceeded));
    EndFollows(s.endpoints[c], t, Failed(BufferExceeded), s.now);
  }

  lemma BuffersAreSummed(s: System)
    requires SysInv(s)
    ensures s.lane.replyBufferBytes == Sum(s.ledger.buffers)
  {
    hide AllInv, HeldByPending, ReservedOnce, BufferedByPosting, Sum;
  }

  lemma OtherwiseFollows(s: System, log: Log, c: ChannelId, act: Act)
    requires c in s.endpoints && ActEnabled(s, c, act)
    requires act.TakeItem? || act.PostRaises? || act.StartClose?
    ensures c in ActStep(s, c, act).endpoints
    ensures Follows(s, log, c, act, ActStep(s, c, act).endpoints[c].ch)
  {
    hide Arrived, End, EndRequest;
    if act.PostRaises? {
      EndingIsLocal(s, c, act.t, Failed(act.error));
      EndFollows(s.endpoints[c], act.t, Failed(act.error), s.now);
    }
  }

  lemma QueueIsMeasured(ep: Endpoint)
    requires Inv(ep)
    ensures ep.ch.replyBytes == QueuedBytes(ep.ch.queue) && |ep.ch.queue| <= MAX_QUEUED_REPLIES
  {
  }

  lemma ActFollows(s: System, log: Log, c: ChannelId, act: Act)
    requires SysInv(s) && c in s.endpoints && ActEnabled(s, c, act) && Logged(s.endpoints[c], log, c)
    ensures c in ActStep(s, c, act).endpoints
    ensures Follows(s, log, c, act, ActStep(s, c, act).endpoints[c].ch)
  {
    hide SysInv, Inv, ActStep, RotationChosen, ScanEnabled, Arrived, Raised;
    EndpointInv(s, c);
    QueueIsMeasured(s.endpoints[c]);
    BuffersAreSummed(s);
    match act {
      case BodyComplete(t) => assert TaskLogged(s.endpoints[c], log, c, t); BodyFollows(s, log, c, t);
      case Chunk(t, data) => assert TaskLogged(s.endpoints[c], log, c, t); DataFollows(s, log, c, t, data);
      case TakeItem => OtherwiseFollows(s, log, c, act);
      case PostRaises(_, _) => OtherwiseFollows(s, log, c, act);
      case StartClose => OtherwiseFollows(s, log, c, act);
      case MakeRoom(d, victim) =>
        MakeRoomStep(s, c, d, victim);
        RotationKeepsQueue(s, c, d, victim);
        RaisesNothing(s, log, c, act);
      case _ =>
        BypassingKeepsQueue(s, c, act);
        RaisesNothing(s, log, c, act);
    }
  }

  lemma RaisesNothing(s: System, log: Log, c: ChannelId, act: Act)
    requires c in s.endpoints && (BypassesQueue(act) || act.MakeRoom?)
    ensures Raised(s, log, c, act) == None
  {
  }

  /**
    The queue of a channel follows the log step by step. On an open channel, a
    response that completes puts exactly the bytes that arrived for it behind what
    waits, unless they are empty, unaligned, a transport error, or too many for
    sixteen items or 8 MiB; a response that grows past 4 MiB, or past the 32 MiB
    of the lane, any error of a request, and closing fail the channel; a failure
    leaves nothing to receive but itself. Nothing else touches what waits, and
    nothing is ever added to a closed channel.
    */
  lemma QueueFollowsTheLog(states: seq<System>, events: seq<Event>, i: nat, c: ChannelId)
    requires IsRun(states, events) && i < |events| && c in states[i].endpoints
    ensures c in states[i + 1].endpoints
    ensures var s, after := states[i], states[i + 1].endpoints[c].ch;
            if events[i].On? && events[i].c == c then Follows(s, events[..i], c, events[i].act, after)
            else SameQueue(s.endpoints[c].ch, after)
  {
    hide SysInv, Enabled, Step, Logged, Silent, Follows, SameQueue;
    var s, e := states[i], events[i];
    RunsKeep(states, events, i);
    ChannelsKnowTheLog(states, events, i);
    StepFollows(s, e, events[..i], c);
  }

  lemma StepFollows(s: System, e: Event, log: Log, c: ChannelId)
    requires SysInv(s) && Enabled(s, e) && c in s.endpoints && Logged(s.endpoints[c], log, c)
    ensures c in Step(s, e).endpoints
    ensures var after := Step(s, e).endpoints[c].ch;
            if e.On? && e.c == c then Follows(s, log, c, e.act, after) else SameQueue(s.endpoints[c].ch, after)
  {
    hide SysInv, ActEnabled, ActStep, Logged, Follows;
    if Aside(e, c) {
      StepElsewhere(s, e, c);
    } else if e.On? {
      if e.c == c {
        ActFollows(s, log, c, e.act);
      } else {
        MakeRoomStep(s, e.c, c, e.act.victim);
        RotationKeepsQueue(s, e.c, c, e.act.victim);
      }
    }
  }

  // ---------------------------------------------------------------- delivery

  /** Step `j` of the run closes the channel with the error `error`. */
  ghost predicate Closes(states: seq<System>, events: seq<Event>, j: nat, c: ChannelId, error: Error)
    requires j < |events| && j < |states|
  {
    && c in states[j].endpoints && !states[j].endpoints[c].ch.closed
    && events[j].On? && events[j].c == c
    && Raised(states[j], events[..j], c, events[j].act) == Some(error)
  }

  lemma FailureStays(s: System, e: Event, c: ChannelId)
    requires Enabled(s, e) && c in s.endpoints && s.endpoints[c].journal.failure.Some?
    ensures c in Step(s, e).endpoints
    ensures Step(s, e).endpoints[c].journal.failure == s.endpoints[c].journal.failure
  {
    hide ActEnabled, ActStep;
    if Aside(e, c) {
      StepElsewhere(s, e, c);
    } else if e.On? {
      ActKeepsFailure(s, e.c, e.act, c);
    }
  }

  lemma ActKeepsFailure(s: System, d: ChannelId, act: Act, c: ChannelId)
    requires c in s.endpoints && d in s.endpoints && ActEnabled(s, d, act)
    requires s.endpoints[c].journal.failure.Some?
    ensures c in ActStep(s, d, act).endpoints
    ensures ActStep(s, d, act).endpoints[c].journal.failure == s.endpoints[c].journal.failure
  {
    hide ScanDecides, CapacityCandidate, NoNewerUpload, AdmitNative, AdmitReplay, Finish, Complete, Fail, ReplayDue, FindPacket,
      NativePacket, Rotate, Validate, EndRequest;
    match act {
      case Chunk(t, _) => EndingKeepsFailure(s, d, t, Failed(BufferExceeded), c);
      case BodyComplete(t) => EndingKeepsFailure(s, d, t, Validate(s.endpoints[d].tasks[t].content), c);
      case PostRaises(t, error) => EndingKeepsFailure(s, d, t, Failed(error), c);
      case Unwind(t) => EndingKeepsFailure(s, d, t, Unwound, c);
      case _ =>
    }
  }

  lemma EndingKeepsFailure(s: System, d: ChannelId, t: Task, outcome: Outcome, c: ChannelId)
    requires c in s.endpoints && d in s.endpoints && t < |s.endpoints[d].tasks|
    requires s.endpoints[c].journal.failure.Some?
    ensures c in EndRequest(s, d, t, outcome).endpoints
    ensures EndRequest(s, d, t, outcome).endpoints[c].journal.failure == s.endpoints[c].journal.failure
  {
    hide Finish, Complete, Fail;
  }

  /** What failed the channel is the first error raised against it. */
  lemma {:induction false} FailureIsTheFirst(states: seq<System>, events: seq<Event>, i: nat, c: ChannelId)
    requires IsRun(states, events) && i < |states| && c in states[i].endpoints && states[i].endpoints[c].ch.closed
    ensures states[i].endpoints[c].journal.failure.Some?
    ensures exists j :: 0 <= j < i && Closes(states, events, j, c, states[i].endpoints[c].journal.failure.value)
    decreases i
  {
    hide SysInv, Enabled, Step, Follows, Inv, Raised, NewEndpoint;
    RunsKeep(states, events, i);
    EndpointInv(states[i], c);
    ClosedHasFailed(states[i].endpoints[c]);
    assert i > 0;
    var s, e := states[i - 1], events[i - 1];
    if c !in s.endpoints {
      OpensOpen(s, e, c);
    } else {
      if s.endpoints[c].ch.closed {
        FailureIsTheFirst(states, events, i - 1, c);
        FailureStays(s, e, c);
      } else {
        QueueFollowsTheLog(states, events, i - 1, c);
        ClosingIsRaised(s, events[..i - 1], e, c, states[i].endpoints[c]);
        assert Closes(states, events, i - 1, c, states[i].endpoints[c].journal.failure.value);
      }
    }
  }

  lemma OpensOpen(s: System, e: Event, c: ChannelId)
    requires Enabled(s, e) && c !in s.endpoints && c in Step(s, e).endpoints
    ensures !Step(s, e).endpoints[c].ch.closed
  {
    hide ActEnabled, ActStep;
    if e.On? {
      ActOpensNothing(s, e.c, e.act);
    }
  }

  lemma ClosingIsRaised(s: System, log: Log, e: Event, c: ChannelId, after: Endpoint)
    requires c in s.endpoints && !s.endpoints[c].ch.closed && after.ch.closed && Inv(after)
    requires if e.On? && e.c == c then Follows(s, log, c, e.act, after.ch) else SameQueue(s.endpoints[c].ch, after.ch)
    ensures e.On? && e.c == c && Raised(s, log, c, e.act).Some? && after.journal.failure == Raised(s, log, c, e.act)
  {
    hide Raised, TasksOk, OwnersOk, HistoryOk, LogOk, AllRecorded, AttemptsLeft, Sum, QueuedBytes, NextQueue;
  }

  /**
    Replies reach the receiver in the order the network completed them, none lost
    and none twice; then at most one failure, the first; then nothing. What waits
    for the receiver is bounded.
    */
  lemma RepliesAreDeliveredInOrder(states: seq<System>, events: seq<Event>, i: nat, c: ChannelId)
    requires IsRun(states, events) && i < |states| && c in states[i].endpoints
    ensures var ep := states[i].endpoints[c];
            var seen, owed := ep.journal.delivered, Owed(events[..i], c);
            && ep.ch.replyBytes == QueuedBytes(ep.ch.queue) <= MAX_CHANNEL_BYTES
            && |ep.ch.queue| <= MAX_QUEUED_REPLIES
            && (!ep.ch.closed ==> seen + ep.ch.queue == owed)
            && (forall k :: 0 <= k < |seen| && seen[k].Reply? ==> k < |owed| && seen[k] == owed[k])
            && (forall k :: 0 <= k < |seen| && seen[k].Failure? ==>
                  && k == |seen| - 1 && ep.ch.closed && ep.ch.queue == []
                  && exists j :: 0 <= j < i && Closes(states, events, j, c, seen[k].error))
  {
    hide SysInv, Logged, Silent, Inv, Closes;
    RunsKeep(states, events, i);
    ChannelsKnowTheLog(states, events, i);
    EndpointInv(states[i], c);
    DeliveryShape(states[i].endpoints[c]);
    CompletedIsOwed(states[i].endpoints[c], events[..i], c);
    if states[i].endpoints[c].ch.closed {
      FailureIsTheFirst(states, events, i, c);
    }
  }

  lemma CompletedIsOwed(ep: Endpoint, log: Log, c: ChannelId)
    requires Logged(ep, log, c)
    ensures ep.journal.completed == Owed(log, c)
  {
  }

  lemma DeliveryShape(ep: Endpoint)
    requires Inv(ep)
    ensures var seen := ep.journal.delivered;
            && ep.ch.replyBytes == QueuedBytes(ep.ch.queue) <= MAX_CHANNEL_BYTES && |ep.ch.queue| <= MAX_QUEUED_REPLIES
            && (!ep.ch.closed ==> seen + ep.ch.queue == ep.journal.completed)
            && (forall k :: 0 <= k < |seen| && seen[k].Reply? ==>
                  k < |ep.journal.completed| && seen[k] == ep.journal.completed[k])
            && (forall k :: 0 <= k < |seen| && seen[k].Failure? ==>
                  && k == |seen| - 1 && ep.ch.closed && ep.ch.queue == []
                  && ep.journal.failure == Some(seen[k].error))
  {
    hide TasksOk, OwnersOk, HistoryOk, LogOk, AllRecorded, AttemptsLeft, Sum;
    var seen := ep.journal.delivered;
    if ep.ch.closed {
      var error := Failure(ep.journal.failure.value);
      if ep.ch.queue == [] {
        var prefix :| prefix <= ep.journal.completed && seen == prefix + [error];
        assert forall k :: 0 <= k < |prefix| ==> seen[k] == prefix[k] == ep.journal.completed[k];
      }
    } else {
      assert forall k :: 0 <= k < |seen| ==> seen[k] == ep.journal.completed[k];
    }
  }
}
