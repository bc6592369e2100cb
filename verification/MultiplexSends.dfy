/**
  Which request each step adds and which it gives up: every accepted packet is
  sent exactly once, every due replay that has room is sent, and a request is
  given up only to make room for another.
  */
module MultiplexSends {
  import opened Common
  import opened ChannelState
  import opened ReplayHistory
  import opened Multiplex
  import opened EndpointInvariant
  import opened EndpointSteps
  import opened MultiplexInvariant
  import opened MultiplexRuns
  import opened MultiplexLog
  import opened MultiplexReplays
  import opened MultiplexTheorems

  // ------------------------------------------------------------------- room

  /** Room for `length` more bytes on the channel, counted request by request. */
  ghost predicate ChannelFits(ep: Endpoint, length: nat) {
    |ep.ch.pending| < 8 && Sum(ep.ch.pending) + length <= 8 * 1024 * 1024
  }

  /** Room for `length` more bytes on the lane, counted reservation by reservation. */
  ghost predicate LaneFits(s: System, length: nat) {
    |s.ledger.held| < 64 && Sum(s.ledger.held) + length <= 32 * 1024 * 1024
  }

  lemma RoomIsCounted(s: System, c: ChannelId, length: nat)
    requires SysInv(s) && c in s.endpoints
    ensures s.endpoints[c].ch.HasCapacity(length) <==> ChannelFits(s.endpoints[c], length)
    ensures s.lane.HasCapacity(length) <==> LaneFits(s, length)
  {
    hide HeldByPending, ReservedOnce, BufferedByPosting, Sum;
    PendingIsSummed(s, c);
  }

  lemma PendingIsSummed(s: System, c: ChannelId)
    requires SysInv(s) && c in s.endpoints
    ensures s.endpoints[c].ch.pendingBytes == Sum(s.endpoints[c].ch.pending)
  {
    hide HeldByPending, ReservedOnce, BufferedByPosting, LaneOk, Sum;
  }

  /** In every run, an upload waits for its channel and then for the lane only while there is no room. */
  lemma UploadsWaitOnlyForRoom(states: seq<System>, events: seq<Event>, i: nat, c: ChannelId)
    requires IsRun(states, events) && i < |states| && c in states[i].endpoints
    ensures var s, ep := states[i], states[i].endpoints[c];
            && (ep.upload.AwaitChannel? ==>
                  (Enabled(s, On(c, GrantChannel)) <==> ep.ch.closed || ChannelFits(ep, |ep.upload.body|)))
            && (ep.upload.AwaitLane? ==>
                  (Enabled(s, On(c, GrantLane)) <==> s.lane.closed || LaneFits(s, |ep.upload.body|)))
  {
    hide SysInv, ChannelFits, LaneFits;
    RunsKeep(states, events, i);
    if states[i].endpoints[c].upload != NoUpload {
      RoomIsCounted(states[i], c, |states[i].endpoints[c].upload.body|);
    }
  }

  // ------------------------------------------------------------- what is sent

  /** A replay of this body is sent now. */
  ghost predicate CanResend(s: System, c: ChannelId, body: Bytes)
    requires c in s.endpoints
  {
    var ep := s.endpoints[c];
    && !ep.ch.closed && !s.lane.closed
    && ep.upload == NoUpload
    && ChannelFits(ep, |body|) && LaneFits(s, |body|)
    && exists k :: 0 <= k < |ep.ch.history| && ep.ch.history[k].body == body
                   && ep.ch.history[k].pending == None && Due(ep.ch, k, s.now)
  }

  datatype Sent = Native(body: Bytes) | Again(body: Bytes)

  /** The request that the event adds to channel `c`, if it adds one. */
  ghost function Sends(s: System, log: Log, e: Event, c: ChannelId): Option<Sent>
    requires c in s.endpoints
  {
    var ep := s.endpoints[c];
    if !e.On? || e.c != c then None
    else match e.act
      case GrantLane => if ep.ch.closed || s.lane.closed then None else Some(Native(LastSubmitted(log, c)))
      case Scan(SendAgain(k)) =>
        if k < |ep.ch.history| && CanResend(s, c, ep.ch.history[k].body) then Some(Again(ep.ch.history[k].body)) else None
      case Resend =>
        if ep.recovery.Replacing? && CanResend(s, c, ep.recovery.body) then Some(Again(ep.recovery.body)) else None
      case _ => None
  }

  predicate SameRequest(a: Request, b: Request) { a.body == b.body && a.replay == b.replay && a.packet == b.packet }

  /** The requests so far are still the same requests. */
  predicate SameRequests(before: seq<Request>, after: seq<Request>) {
    && |before| <= |after|
    && forall t :: 0 <= t < |before| ==> SameRequest(before[t], after[t])
  }

  /** A request for `body` is new and charged to channel and lane. */
  ghost predicate Added(s: System, s': System, c: ChannelId, body: Bytes, replay: bool)
    requires c in s.endpoints && c in s'.endpoints
  {
    var ep, after := s.endpoints[c], s'.endpoints[c];
    var t := |ep.tasks|;
    && |after.tasks| == t + 1 && after.tasks[..t] == ep.tasks
    && after.tasks[t].body == body && after.tasks[t].replay == replay
    && after.tasks[t].phase == Created && !after.tasks[t].cancelled
    && after.ch.pending == ep.ch.pending[t := |body|]
    && after.ch.replayPending == (if replay then ep.ch.replayPending + {t} else ep.ch.replayPending)
    && s'.ledger.held == s.ledger.held[(c, t) := |body|]
  }

  /** The steps that can send. */
  predicate MaySend(e: Event, c: ChannelId) {
    e.On? && e.c == c && (e.act.GrantLane? || e.act.Resend? || (e.act.Scan? && e.act.plan.SendAgain?))
  }

  lemma OthersSendNothing(s: System, e: Event, c: ChannelId)
    requires Enabled(s, e) && c in s.endpoints && !MaySend(e, c)
    ensures c in Step(s, e).endpoints
    ensures SameRequests(s.endpoints[c].tasks, Step(s, e).endpoints[c].tasks)
    ensures |Step(s, e).endpoints[c].tasks| == |s.endpoints[c].tasks|
  {
    hide ActEnabled, ActStep, SameRequests;
    if Aside(e, c) {
      StepElsewhere(s, e, c);
      NothingIsTheSame(s.endpoints[c].tasks);
    } else if e.On? && e.c == c {
      ActSendsNothing(s, c, e.act);
    } else if e.On? {
      MakeRoomStep(s, e.c, c, e.act.victim);
      RotationSendsNothing(s, e.c, c, e.act.victim);
    }
  }

  lemma NothingIsTheSame(tasks: seq<Request>)
    ensures SameRequests(tasks, tasks)
  {
  }

  lemma ActSendsNothing(s: System, c: ChannelId, act: Act)
    requires c in s.endpoints && ActEnabled(s, c, act)
    requires !act.GrantLane? && !act.Resend? && !(act.Scan? && act.plan.SendAgain?)
    ensures c in ActStep(s, c, act).endpoints
    ensures SameRequests(s.endpoints[c].tasks, ActStep(s, c, act).endpoints[c].tasks)
    ensures |ActStep(s, c, act).endpoints[c].tasks| == |s.endpoints[c].tasks|
  {
    hide ScanDecides, CapacityCandidate, NoNewerUpload, Finish, Complete, Fail, Rotate, Validate, Swept, EndRequest, Replay,
      Granted, SameRequests, Begin, Uploaded, Buffer, Cancel, BeginClose;
    var ep := s.endpoints[c];
    NothingIsTheSame(ep.tasks);
    match act {
      case FirstStep(t) => TaskStepsKeepRequests(ep, t, [], s.now);
      case BodySent(t) => TaskStepsKeepRequests(ep, t, [], s.now);
      case Scan(ReplaceThenSend(_, t)) => CancellingKeepsRequests(ep, t);
      case MakeRoom(d, t) => CancellingKeepsRequests(ep.(ch := Rotate(ep.ch, t)), t);
      case StartClose => ClosingKeepsRequests(ep);
      case Chunk(t, data) => TaskStepsKeepRequests(ep, t, data, s.now); EndingSendsNothing(s, c, t, Failed(BufferExceeded));
      case BodyComplete(t) => EndingSendsNothing(s, c, t, Validate(s.endpoints[c].tasks[t].content));
      case PostRaises(t, error) => EndingSendsNothing(s, c, t, Failed(error));
      case Unwind(t) => EndingSendsNothing(s, c, t, Unwound);
      case _ =>
    }
  }

  lemma TaskStepsKeepRequests(ep: Endpoint, t: Task, data: Bytes, now: int)
    requires t < |ep.tasks|
    ensures SameRequests(ep.tasks, Begin(ep, t).tasks) && |Begin(ep, t).tasks| == |ep.tasks|
    ensures SameRequests(ep.tasks, Uploaded(ep, t, now).tasks) && |Uploaded(ep, t, now).tasks| == |ep.tasks|
    ensures SameRequests(ep.tasks, Buffer(ep, t, data, now).tasks) && |Buffer(ep, t, data, now).tasks| == |ep.tasks|
  {
  }

  lemma CancellingKeepsRequests(ep: Endpoint, t: Task)
    ensures SameRequests(ep.tasks, Cancel(ep, t).tasks) && |Cancel(ep, t).tasks| == |ep.tasks|
  {
  }

  lemma ClosingKeepsRequests(ep: Endpoint)
    ensures SameRequests(ep.tasks, BeginClose(ep).tasks) && |BeginClose(ep).tasks| == |ep.tasks|
  {
  }

  lemma EndingSendsNothing(s: System, c: ChannelId, t: Task, outcome: Outcome)
    requires c in s.endpoints && t < |s.endpoints[c].tasks|
    ensures c in EndRequest(s, c, t, outcome).endpoints
    ensures SameRequests(s.endpoints[c].tasks, EndRequest(s, c, t, outcome).endpoints[c].tasks)
    ensures |EndRequest(s, c, t, outcome).endpoints[c].tasks| == |s.endpoints[c].tasks|
  {
    hide Finish, Complete, Fail;
  }

  lemma RotationSendsNothing(s: System, c: ChannelId, d: ChannelId, t: Task)
    requires c in s.endpoints && d in s.endpoints
    ensures d in Rotated(s, c, d, t).endpoints
    ensures SameRequests(s.endpoints[d].tasks, Rotated(s, c, d, t).endpoints[d].tasks)
    ensures |Rotated(s, c, d, t).endpoints[d].tasks| == |s.endpoints[d].tasks|
  {
    hide Rotate;
  }

  lemma GrantSendsOne(s: System, log: Log, c: ChannelId)
    requires SysInv(s) && c in s.endpoints && s.endpoints[c].upload.AwaitLane? && Logged(s.endpoints[c], log, c)
    ensures var s' := Granted(s, c);
            && c in s'.endpoints && s'.endpoints[c].upload == NoUpload
            && if s.endpoints[c].ch.closed || s.lane.closed then
                 s'.endpoints[c] == s.endpoints[c].(upload := NoUpload) && s'.ledger == s.ledger
               else Added(s, s', c, LastSubmitted(log, c), false)
                    && s'.endpoints[c].journal.nativeSends == s.endpoints[c].journal.nativeSends + 1
  {
    hide SysInv, AdmitNative, NativePacket, LastSubmitted, TaskLogged, ProgressAt, Owed;
    var ep := s.endpoints[c];
    AdmitNativeFrame(ep.ch, ep.upload.body, |ep.tasks|, s.now);
  }

  /** The one retained packet with this body, if there is one. */
  lemma BodyIsFound(ep: Endpoint, body: Bytes, k: nat)
    requires Inv(ep) && k < |ep.ch.history| && ep.ch.history[k].body == body
    ensures FindPacket(ep.ch.history, body) == Some(k)
  {
    var i := FindPacket(ep.ch.history, body).value;
    assert SameBody(ep.ch.history[i], ep.ch.history[k]) && SameBody(ep.ch.history[k], ep.ch.history[i]);
  }

  /** A replay that was sent is counted with its packet, and no other packet changes. */
  ghost predicate Repeated(ep: Endpoint, after: Endpoint, body: Bytes, now: int) {
    && |after.ch.history| == |ep.ch.history|
    && forall k :: 0 <= k < |ep.ch.history| ==>
         var p, q := ep.ch.history[k], after.ch.history[k];
         if p.body == body then q == p.(attempts := p.attempts + 1, lastAttemptAt := now, pending := Some(|ep.tasks|))
         else q == p
  }

  lemma ReplaySendsOne(s: System, c: ChannelId, body: Bytes)
    requires SysInv(s) && c in s.endpoints
    ensures var s' := Replay(s, c, body);
            && c in s'.endpoints
            && if CanResend(s, c, body) then
                 Added(s, s', c, body, true) && Repeated(s.endpoints[c], s'.endpoints[c], body, s.now)
               else
                 s'.endpoints[c].tasks == s.endpoints[c].tasks && s'.endpoints[c].ch == s.endpoints[c].ch
                 && s'.ledger == s.ledger && s'.lane == s.lane
  {
    hide SysInv, Inv, Due, ReplayDue, ChannelFits, LaneFits, FindPacket, SendReplay;
    var ep := s.endpoints[c];
    EndpointInv(s, c);
    RoomIsCounted(s, c, |body|);
    HistoryIsOrdered(ep);
    forall k | 0 <= k < |ep.ch.history| && ep.ch.history[k].body == body
      ensures FindPacket(ep.ch.history, body) == Some(k)
    {
      BodyIsFound(ep, body, k);
    }
    match FindPacket(ep.ch.history, body) {
      case None =>
      case Some(k) =>
        DueExactly(ep.ch, k, s.now);
        SendReplayShape(ep.(recovery := Watching), k, s.now);
    }
  }

  lemma SendReplayShape(ep: Endpoint, k: nat, now: int)
    requires k < |ep.ch.history|
    ensures var t, body, after := |ep.tasks|, ep.ch.history[k].body, SendReplay(ep, k, now);
            && |after.tasks| == t + 1 && after.tasks[..t] == ep.tasks
            && after.tasks[t].body == body && after.tasks[t].replay
            && after.tasks[t].phase == Created && !after.tasks[t].cancelled
            && after.ch.pending == ep.ch.pending[t := |body|]
            && after.ch.replayPending == ep.ch.replayPending + {t}
            && after.ch.history == ep.ch.history[k :=
                 ep.ch.history[k].(attempts := ep.ch.history[k].attempts + 1, lastAttemptAt := now, pending := Some(t))]
  {
  }

  /**
    In every run, each step adds exactly the request it should, or none: a grant
    of the lane sends what the client submitted last, once; a scan or the end of
    a replaced request sends its packet again exactly if that is due, is not on
    the way, and fits; everything else sends nothing. A request stays what it is.
    */
  lemma RequestsFollowTheLog(states: seq<System>, events: seq<Event>, i: nat, c: ChannelId)
    requires IsRun(states, events) && i < |events| && c in states[i].endpoints
    ensures c in states[i + 1].endpoints
    ensures var s, s' := states[i], states[i + 1];
            match Sends(s, events[..i], events[i], c)
            case Some(Native(body)) =>
              Added(s, s', c, body, false)
              && s'.endpoints[c].upload == NoUpload
              && s'.endpoints[c].journal.nativeSends == s.endpoints[c].journal.nativeSends + 1
            case Some(Again(body)) =>
              Added(s, s', c, body, true) && Repeated(s.endpoints[c], s'.endpoints[c], body, s.now)
            case None =>
              SameRequests(s.endpoints[c].tasks, s'.endpoints[c].tasks) && |s'.endpoints[c].tasks| == |s.endpoints[c].tasks|
  {
    hide SysInv, Enabled, Step, Logged, Silent, Added, Repeated, SameRequests, CanResend, LastSubmitted, Sends;
    RunsKeep(states, events, i);
    ChannelsKnowTheLog(states, events, i);
    StepSends(states[i], events[..i], events[i], c);
  }

  lemma StepSends(s: System, log: Log, e: Event, c: ChannelId)
    requires SysInv(s) && Enabled(s, e) && c in s.endpoints && Logged(s.endpoints[c], log, c)
    ensures c in Step(s, e).endpoints
    ensures var s' := Step(s, e);
            match Sends(s, log, e, c)
            case Some(Native(body)) =>
              Added(s, s', c, body, false)
              && s'.endpoints[c].upload == NoUpload
              && s'.endpoints[c].journal.nativeSends == s.endpoints[c].journal.nativeSends + 1
            case Some(Again(body)) =>
              Added(s, s', c, body, true) && Repeated(s.endpoints[c], s'.endpoints[c], body, s.now)
            case None =>
              SameRequests(s.endpoints[c].tasks, s'.endpoints[c].tasks) && |s'.endpoints[c].tasks| == |s.endpoints[c].tasks|
  {
    hide SysInv, Logged, Added, Repeated, SameRequests, CanResend, LastSubmitted, ActEnabled, ActStep, Granted, Replay;
    if MaySend(e, c) {
      SendingStep(s, c, e.act);
      match e.act {
        case GrantLane => GrantSendsOne(s, log, c);
        case Scan(SendAgain(k)) => ReplaySendsOne(s, c, s.endpoints[c].ch.history[k].body);
        case Resend => ReplaySendsOne(s, c, s.endpoints[c].recovery.body);
      }
      NothingIsTheSame(s.endpoints[c].tasks);
    } else {
      OthersSendNothing(s, e, c);
    }
  }

  lemma SendingStep(s: System, c: ChannelId, act: Act)
    requires c in s.endpoints && ActEnabled(s, c, act) && MaySend(On(c, act), c)
    ensures act.GrantLane? ==> s.endpoints[c].upload.AwaitLane? && ActStep(s, c, act) == Granted(s, c)
    ensures act.Scan? ==>
              && act.plan.index < |s.endpoints[c].ch.history|
              && ActStep(s, c, act) == Replay(s, c, s.endpoints[c].ch.history[act.plan.index].body)
    ensures act.Resend? ==>
              && s.endpoints[c].recovery.Replacing?
              && ActStep(s, c, act) == Replay(s, c, s.endpoints[c].recovery.body)
  {
    hide Granted, Replay, Acceptable, CapacityCandidate, NoNewerUpload;
    if act.Scan? {
      ScanIndexes(s, c, act.plan);
    }
  }

  // ----------------------------------------------------------- what is given up

  /** An upload on `c` waits because its channel, or the lane, has no room. */
  ghost predicate NeedsRoom(s: System, c: ChannelId)
    requires c in s.endpoints
  {
    var ep := s.endpoints[c];
    && !ep.ch.closed
    && match ep.upload
       case NoUpload => false
       case AwaitChannel(body) => !ChannelFits(ep, |body|)
       case AwaitLane(body) => !LaneFits(s, |body|)
  }

  /** The channels that may lose a request to that upload. */
  predicate MayLose(s: System, c: ChannelId, d: ChannelId)
    requires c in s.endpoints
  {
    d in s.endpoints && if s.endpoints[c].upload.AwaitChannel? then d == c else !s.endpoints[d].ch.closeDone
  }

  lemma SourcesAreExact(s: System, c: ChannelId, d: ChannelId)
    requires SysInv(s) && c in s.endpoints
    ensures d in RoomSources(s, c) && d in s.endpoints <==> NeedsRoom(s, c) && MayLose(s, c, d)
  {
    hide SysInv, ChannelFits, LaneFits;
    if s.endpoints[c].upload != NoUpload {
      RoomIsCounted(s, c, |s.endpoints[c].upload.body|);
    }
  }

  /** Replays are given up before originals, and of each kind the one that has waited longest. */
  predicate GivenUpBefore(ep: Endpoint, t: Task, u: Task)
    requires t < |ep.tasks| && u < |ep.tasks| && t in ep.ch.sentSince && u in ep.ch.sentSince
  {
    if ep.tasks[t].replay == ep.tasks[u].replay then ep.ch.sentSince[t] <= ep.ch.sentSince[u] else ep.tasks[t].replay
  }

  lemma SafeIsRotatable(ep: Endpoint, t: Task, now: int)
    requires Inv(ep)
    ensures Rotatable(ep.ch, t, now) <==> SafeToRotate(ep, t, now)
  {
    if Rotatable(ep.ch, t, now) {
      UploadedIsPosting(ep, t);
      if t !in ep.ch.replayPending {
        var owner := FindOriginal(ep.ch.history, t);
        assert WorksFor(ep.ch.pending, ep.tasks, t, ep.ch.history[owner.value].sequence, false);
      }
    }
    if SafeToRotate(ep, t, now) && !ep.tasks[t].replay {
      var i :| 0 <= i < |ep.ch.history| && t in ep.ch.history[i].originals && now - ep.ch.history[i].sentAt <= REPLAY_MAX_AGE_MS;
      var owner := FindOriginal(ep.ch.history, t);
      OwnerIsUnique(ep, i, owner.value, t);
    }
  }

  /** Who is given up is the same whether one asks the channel or the tasks. */
  lemma CandidateIsChosen(ep: Endpoint, now: int, choice: Option<Task>)
    requires Inv(ep)
    ensures CapacityCandidate(ep.ch, now, choice) <==>
            match choice
            case None => forall t: Task :: !SafeToRotate(ep, t, now)
            case Some(t) => SafeToRotate(ep, t, now) && forall u: Task :: SafeToRotate(ep, u, now) ==> GivenUpBefore(ep, t, u)
  {
    hide Inv;
    forall t: Task
      ensures Rotatable(ep.ch, t, now) <==> SafeToRotate(ep, t, now)
      ensures SafeToRotate(ep, t, now) ==> t in ep.ch.sentSince && t < |ep.tasks| && (ep.tasks[t].replay <==> t in ep.ch.replayPending)
    {
      SafeIsRotatable(ep, t, now);
      if SafeToRotate(ep, t, now) {
        PendingReplayIsMarked(ep, t);
      }
    }
  }

  lemma PendingReplayIsMarked(ep: Endpoint, t: Task)
    requires Inv(ep) && t in ep.ch.pending
    ensures t < |ep.tasks| && (ep.tasks[t].replay <==> t in ep.ch.replayPending)
  {
  }

  /** The channel after it gave up request `t`. */
  ghost predicate GaveUp(ep: Endpoint, after: Endpoint, t: Task) {
    && t < |ep.tasks| && after.tasks == ep.tasks[t := ep.tasks[t].(cancelled := true)]
    && after.ch == ep.ch.(sentSince := ep.ch.sentSince - {t}, history := after.ch.history)
    && |after.ch.history| == |ep.ch.history|
    && forall k :: 0 <= k < |ep.ch.history| ==>
         after.ch.history[k] == if t in ep.ch.history[k].originals then ep.ch.history[k].(retired := true) else ep.ch.history[k]
  }

  lemma RotationGivesUp(ep: Endpoint, t: Task, recovery: Recovery, now: int)
    requires Inv(ep) && SafeToRotate(ep, t, now)
    ensures GaveUp(ep, RotateOut(ep, t).(recovery := recovery), t)
  {
    hide Inv, SafeToRotate;
    SafeIsPosting(ep, t, now);
    forall j, k | 0 <= j < |ep.ch.history| && 0 <= k < |ep.ch.history| && t in ep.ch.history[j].originals && t in ep.ch.history[k].originals
      ensures j == k && t !in ep.ch.replayPending
    {
      OwnerIsUnique(ep, j, k, t);
    }
  }

  /**
    In every run, a request is given up only because an upload of an open channel
    waits and has no room; it is one that the uploading channel, or any channel on
    the lane if that is full, may lose: uploaded three seconds ago, unanswered,
    and a replay or the original of a young packet, replays first, then the one
    that waited longest. It is cancelled, its upload time is gone, its packet is
    retired if it was an original, and nothing else on the channel changes.
    */
  lemma RotationsMakeRoom(states: seq<System>, events: seq<Event>, i: nat, c: ChannelId, d: ChannelId, victim: Task)
    requires IsRun(states, events) && i < |events| && events[i] == On(c, MakeRoom(d, victim))
    ensures var s := states[i];
            && c in s.endpoints && NeedsRoom(s, c) && MayLose(s, c, d)
            && SafeToRotate(s.endpoints[d], victim, s.now)
            && (forall u: Task :: SafeToRotate(s.endpoints[d], u, s.now) ==> GivenUpBefore(s.endpoints[d], victim, u))
            && d in states[i + 1].endpoints && GaveUp(s.endpoints[d], states[i + 1].endpoints[d], victim)
            && states[i + 1].ledger == s.ledger && states[i + 1].lane == s.lane
  {
    hide SysInv, Enabled, Step, SafeToRotate, GaveUp, NeedsRoom, MayLose, GivenUpBefore;
    RunsKeep(states, events, i);
    RotationStep(states[i], c, d, victim);
  }

  lemma RotationStep(s: System, c: ChannelId, d: ChannelId, victim: Task)
    requires SysInv(s) && Enabled(s, On(c, MakeRoom(d, victim)))
    ensures c in s.endpoints && NeedsRoom(s, c) && MayLose(s, c, d) && d in s.endpoints
    ensures SafeToRotate(s.endpoints[d], victim, s.now)
    ensures forall u: Task :: SafeToRotate(s.endpoints[d], u, s.now) ==> GivenUpBefore(s.endpoints[d], victim, u)
    ensures var s' := Step(s, On(c, MakeRoom(d, victim)));
            && d in s'.endpoints && GaveUp(s.endpoints[d], s'.endpoints[d], victim)
            && s'.ledger == s.ledger && s'.lane == s.lane
  {
    hide SysInv, Inv, ActEnabled, ActStep, RotationChosen, CapacityCandidate, SafeToRotate, GaveUp, RotateOut, RoomSources, NeedsRoom;
    MakeRoomStep(s, c, d, victim);
    EndpointInv(s, d);
    RotationSource(s, c, d, victim);
    SourcesAreExact(s, c, d);
    CandidateIsChosen(s.endpoints[d], s.now, Some(victim));
    RotationGivesUp(s.endpoints[d], victim, s.endpoints[d].recovery, s.now);
    RotationGivesUp(s.endpoints[d], victim, Rotating(s.now, d, victim), s.now);
    RotationKeepsRecovery(s.endpoints[d], victim);
  }

  lemma RotationSource(s: System, c: ChannelId, d: ChannelId, victim: Task)
    requires c in s.endpoints && RotationChosen(s, c, d, victim)
    ensures d in RoomSources(s, c) && d in s.endpoints && CapacityCandidate(s.endpoints[d].ch, s.now, Some(victim))
  {
    hide CapacityCandidate, RoomSources, NoNewerUpload;
  }

  /**
    The other way round: in every run, the recovery goes on without giving a
    request up only if no upload of its channel needs room, or no channel that may
    lose a request has one that can be given up.
    */
  lemma RoomIsMadeIfPossible(states: seq<System>, events: seq<Event>, i: nat, c: ChannelId, plan: Plan, d: ChannelId, t: Task)
    requires IsRun(states, events) && i < |events| && events[i] == On(c, Scan(plan))
    requires c in states[i].endpoints && states[i].endpoints[c].recovery == Watching
    requires NeedsRoom(states[i], c) && MayLose(states[i], c, d)
    ensures !SafeToRotate(states[i].endpoints[d], t, states[i].now)
  {
    hide SysInv, Inv, Step, NeedsRoom, MayLose, SafeToRotate, ScanDecides, RoomSources, CapacityCandidate;
    RunsKeep(states, events, i);
    SourcesAreExact(states[i], c, d);
    EndpointInv(states[i], d);
    CandidateIsChosen(states[i].endpoints[d], states[i].now, None);
  }

  /**
    In every run, a scan that replaces a replay cancels exactly that one and keeps
    the packet in mind, which is tried again as soon as the cancelled one is over.
    */
  lemma ReplacementsAreRetried(
    states: seq<System>, events: seq<Event>, i: nat, c: ChannelId, k: nat, victim: Task)
    requires IsRun(states, events) && i < |events| && events[i] == On(c, Scan(ReplaceThenSend(k, victim)))
    ensures c in states[i].endpoints && c in states[i + 1].endpoints
    ensures var ep, after := states[i].endpoints[c], states[i + 1].endpoints[c];
            && k < |ep.ch.history| && victim < |ep.tasks|
            && after.recovery == Replacing(ep.ch.history[k].body, victim)
            && after.tasks == ep.tasks[victim := ep.tasks[victim].(cancelled := true)] && after.ch == ep.ch
    ensures forall j :: 0 <= j < |states| && c in states[j].endpoints && states[j].endpoints[c].recovery.Replacing? ==>
              (Enabled(states[j], On(c, Resend)) <==>
                 InPhase(states[j].endpoints[c], states[j].endpoints[c].recovery.task, Over))
  {
    hide SysInv, Inv, ScanDecides;
    RunsKeep(states, events, i);
    EndpointInv(states[i], c);
    assert ScanEnabled(states[i], c, ReplaceThenSend(k, victim));
    ReplacedIsUploadedReplay(states[i].endpoints[c], ScanTime(states[i], c), k, victim);
    ScanIndexes(states[i], c, ReplaceThenSend(k, victim));
  }

  // ------------------------------------------------------ what was given up before

  /** Request `t` of the channel was given up for room. */
  ghost predicate GivenUp(log: Log, c: ChannelId, t: Task) { exists d :: On(d, MakeRoom(c, t)) in log }

  ghost predicate OriginalGivenUp(ep: Endpoint, log: Log, c: ChannelId, sequence: nat) {
    exists t :: 0 <= t < |ep.tasks| && ep.tasks[t].packet == Some(sequence) && !ep.tasks[t].replay && GivenUp(log, c, t)
  }

  ghost predicate RetiredLogged(ep: Endpoint, log: Log, c: ChannelId) {
    && (forall t: Task :: GivenUp(log, c, t) ==> t < |ep.tasks|)
    && (forall k :: 0 <= k < |ep.ch.history| ==>
          (ep.ch.history[k].retired <==> OriginalGivenUp(ep, log, c, ep.ch.history[k].sequence)))
  }

  predicate SameMark(p: Packet, q: Packet) { p.sequence == q.sequence && p.retired == q.retired }

  /** A packet is an old one with its old mark, or new and unmarked. */
  ghost predicate KeepsMarks(before: seq<Packet>, after: seq<Packet>, requests: nat) {
    forall q :: q in after ==> (exists p :: p in before && SameMark(p, q)) || (q.sequence > requests && !q.retired)
  }

  lemma SendKeepsMarks(ep: Endpoint, body: Bytes, now: int)
    requires Inv(ep)
    ensures KeepsMarks(ep.ch.history, SendNative(ep, body, now).ch.history, ep.ch.requests)
  {
    hide Inv, Remember, MemoryOf, Trim, KeepsMarks;
    var r := Remember(ep.ch.(requests := ep.ch.requests + 1), body, now);
    RememberAddsAtMostOne(ep.ch, body, now);
    RememberKeepsMarks(ep, body, now);
    if r.1.Some? {
      TrimKeepsMarks(ep, r.0.history, r.1.value, now, r.0.replayKey, body);
    }
  }

  lemma RememberKeepsMarks(ep: Endpoint, body: Bytes, now: int)
    ensures KeepsMarks(ep.ch.history, Remember(ep.ch.(requests := ep.ch.requests + 1), body, now).0.history, ep.ch.requests)
  {
    hide Remember, MemoryOf;
    RememberAddsAtMostOne(ep.ch, body, now);
    assert forall p :: SameMark(p, p);
  }

  lemma TrimKeepsMarks(ep: Endpoint, h: seq<Packet>, i: nat, now: int, key: Option<Bytes>, body: Bytes)
    requires Inv(ep) && i < |h| && KeepsMarks(ep.ch.history, h, ep.ch.requests)
    requires var r := Remember(ep.ch.(requests := ep.ch.requests + 1), body, now); h == r.0.history && key == r.0.replayKey
    ensures KeepsMarks(ep.ch.history, Trim(MarkOriginal(h, i, |ep.tasks|), now), ep.ch.requests)
  {
    hide Inv, Trim, Remember;
    var marked := MarkOriginal(h, i, |ep.tasks|);
    TrimSelects(marked, now);
    forall q | q in marked ensures exists p :: p in h && SameMark(p, q) {
      var j :| 0 <= j < |marked| && marked[j] == q;
      assert h[j] in h && SameMark(h[j], q);
    }
    MarksCompose(ep.ch.history, h, Trim(marked, now), ep.ch.requests);
  }

  lemma {:induction false} TrimSelects(history: seq<Packet>, now: int)
    ensures forall p :: p in Trim(history, now) ==> p in history
    decreases |history|
  {
    if OverBudget(history) && history != [] {
      TrimSelects(RemoveAt(history, Victim(history, now)), now);
    }
  }

  lemma MarksCompose(before: seq<Packet>, middle: seq<Packet>, after: seq<Packet>, requests: nat)
    requires KeepsMarks(before, middle, requests)
    requires forall q :: q in after ==> exists p :: p in middle && SameMark(p, q)
    ensures KeepsMarks(before, after, requests)
  {
    forall q | q in after
      ensures (exists p :: p in before && SameMark(p, q)) || (q.sequence > requests && !q.retired)
    {
      var m :| m in middle && SameMark(m, q);
      if p :| p in before && SameMark(p, m) {
        assert SameMark(p, q);
      }
    }
  }

  /** Updates in place keep marks, wherever they are. */
  lemma InPlaceKeepsMarks(before: seq<Packet>, after: seq<Packet>, requests: nat)
    requires |after| == |before| && forall k :: 0 <= k < |before| ==> SameMark(before[k], after[k])
    ensures KeepsMarks(before, after, requests)
  {
    forall q | q in after ensures exists p :: p in before && SameMark(p, q) {
      var k :| 0 <= k < |after| && after[k] == q;
      assert before[k] in before;
    }
  }

  lemma FinishKeepsMarks(ch: Channel, t: Task, packet: Option<nat>)
    ensures KeepsMarks(ch.history, Finish(ch, t, packet).history, ch.requests)
  {
    hide FinishTarget;
    InPlaceKeepsMarks(ch.history, Finish(ch, t, packet).history, ch.requests);
  }

  lemma EndKeepsMarks(ep: Endpoint, t: Task, outcome: Outcome, now: int)
    requires t < |ep.tasks|
    ensures KeepsMarks(ep.ch.history, End(ep, t, outcome, now).ch.history, ep.ch.requests)
  {
    hide Finish, KeepsMarks;
    var left := ep.(ch := ep.ch.(receiving := ep.ch.receiving - {t}), tasks := ep.tasks[t := ep.tasks[t].(phase := Over)]);
    FinishKeepsMarks(Settle(left, outcome, now).ch, t, ep.tasks[t].packet);
  }

  lemma ReplayKeepsMarks(s: System, c: ChannelId, body: Bytes)
    requires c in s.endpoints
    ensures c in Replay(s, c, body).endpoints
    ensures KeepsMarks(s.endpoints[c].ch.history, Replay(s, c, body).endpoints[c].ch.history, s.endpoints[c].ch.requests)
  {
    hide ReplayDue, FindPacket, KeepsMarks;
    InPlaceKeepsMarks(s.endpoints[c].ch.history, Replay(s, c, body).endpoints[c].ch.history, s.endpoints[c].ch.requests);
  }

  lemma ActKeepsMarks(s: System, c: ChannelId, act: Act)
    requires SysInv(s) && c in s.endpoints && ActEnabled(s, c, act) && !(act.MakeRoom? && act.d == c)
    ensures c in ActStep(s, c, act).endpoints
    ensures KeepsMarks(s.endpoints[c].ch.history, ActStep(s, c, act).endpoints[c].ch.history, s.endpoints[c].ch.requests)
  {
    hide SysInv, Inv, KeepsMarks, Finish, End, Replay, SendNative, ScanDecides, CapacityCandidate, NoNewerUpload, Fail, Complete,
      RotateOut, Validate;
    var ep := s.endpoints[c];
    EndpointInv(s, c);
    InPlaceKeepsMarks(ep.ch.history, ep.ch.history, ep.ch.requests);
    match act {
      case GrantLane =>
        UploadMayChange(ep, NoUpload);
        SendKeepsMarks(ep.(upload := NoUpload), ep.upload.body, s.now);
      case Scan(SendAgain(k)) => ScanIndexes(s, c, act.plan); ReplayKeepsMarks(s, c, ep.ch.history[k].body);
      case Resend => ReplayKeepsMarks(s, c, ep.recovery.body);
      case SweepTask(t) => FinishKeepsMarks(ep.ch, t, None);
      case FinishClose => NoPacketsKeepMarks(ep.ch.history, ep.ch.requests);
      case Chunk(t, _) => EndKeepsMarks(ep, t, Failed(BufferExceeded), s.now);
      case BodyComplete(t) => EndKeepsMarks(ep, t, Validate(ep.tasks[t].content), s.now);
      case PostRaises(t, error) => EndKeepsMarks(ep, t, Failed(error), s.now);
      case Unwind(t) => EndKeepsMarks(ep, t, Unwound, s.now);
      case StartClose => FailKeepsHistory(ep.ch);
      case _ =>
    }
  }

  lemma FailKeepsHistory(ch: Channel)
    ensures Fail(ch, ConnectionLost).history == ch.history
  {
  }

  lemma NoPacketsKeepMarks(history: seq<Packet>, requests: nat)
    ensures KeepsMarks(history, [], requests)
  {
  }

  /** Marks that the step keeps still agree with the log. */
  lemma KeptMarksLogged(ep: Endpoint, after: Endpoint, log: Log, e: Event, c: ChannelId)
    requires Inv(ep) && RetiredLogged(ep, log, c) && SameRequests(ep.tasks, after.tasks)
    requires KeepsMarks(ep.ch.history, after.ch.history, ep.ch.requests)
    requires forall t: Task :: GivenUp(log + [e], c, t) <==> GivenUp(log, c, t)
    ensures RetiredLogged(after, log + [e], c)
  {
    hide Inv, GivenUp;
    forall q: nat ensures q <= ep.ch.requests ==> (OriginalGivenUp(after, log + [e], c, q) <==> OriginalGivenUp(ep, log, c, q)) {
      OldPacketsKeepRequests(ep, after, log, e, c, q);
    }
    forall k | 0 <= k < |after.ch.history|
      ensures after.ch.history[k].retired <==> OriginalGivenUp(after, log + [e], c, after.ch.history[k].sequence)
    {
      var q := after.ch.history[k];
      assert q in after.ch.history;
      if p :| p in ep.ch.history && SameMark(p, q) {
        RetainedIsNumbered(ep, p);
      } else {
        FreshIsNotGivenUp(ep, after, log, e, c, q.sequence);
      }
    }
  }

  lemma RetainedIsNumbered(ep: Endpoint, p: Packet)
    requires Inv(ep) && p in ep.ch.history
    ensures p.sequence <= ep.ch.requests
  {
    OrderedWithinHistory(ep.ch.history, ep.ch.replayKey, ep.ch.requests);
  }

  lemma OldPacketsKeepRequests(ep: Endpoint, after: Endpoint, log: Log, e: Event, c: ChannelId, sequence: nat)
    requires RetiredLogged(ep, log, c) && SameRequests(ep.tasks, after.tasks)
    requires forall t: Task :: GivenUp(log + [e], c, t) <==> GivenUp(log, c, t)
    ensures OriginalGivenUp(after, log + [e], c, sequence) <==> OriginalGivenUp(ep, log, c, sequence)
  {
    hide GivenUp;
    forall t | 0 <= t < |ep.tasks| ensures SameRequest(ep.tasks[t], after.tasks[t]) {
    }
  }

  lemma FreshIsNotGivenUp(ep: Endpoint, after: Endpoint, log: Log, e: Event, c: ChannelId, sequence: nat)
    requires Inv(ep) && RetiredLogged(ep, log, c) && SameRequests(ep.tasks, after.tasks) && sequence > ep.ch.requests
    requires forall t: Task :: GivenUp(log + [e], c, t) <==> GivenUp(log, c, t)
    ensures !OriginalGivenUp(after, log + [e], c, sequence)
  {
    hide GivenUp;
    assert Issued(ep.tasks, ep.ch.requests);
    forall t | 0 <= t < |ep.tasks| ensures SameRequest(ep.tasks[t], after.tasks[t]) {
    }
  }

  lemma GiveUpLogged(ep: Endpoint, after: Endpoint, log: Log, e: ChannelId, c: ChannelId, t: Task)
    requires Inv(ep) && RetiredLogged(ep, log, c) && GaveUp(ep, after, t) && t in ep.ch.pending
    ensures RetiredLogged(after, log + [On(e, MakeRoom(c, t))], c)
  {
    hide Inv;
    var more := log + [On(e, MakeRoom(c, t))];
    forall u: Task ensures GivenUp(more, c, u) <==> GivenUp(log, c, u) || u == t {
      if u == t {
        assert On(e, MakeRoom(c, t)) in more;
      }
      if d :| On(d, MakeRoom(c, u)) in log {
        assert On(d, MakeRoom(c, u)) in more;
      }
    }
    forall k | 0 <= k < |ep.ch.history|
      ensures after.ch.history[k].retired <==> OriginalGivenUp(after, more, c, after.ch.history[k].sequence)
    {
      PacketKnows(ep, k, t);
      MarkFollows(ep, after, log, more, c, t, k);
    }
  }

  lemma MarkFollows(ep: Endpoint, after: Endpoint, log: Log, more: Log, c: ChannelId, t: Task, k: nat)
    requires RetiredLogged(ep, log, c) && GaveUp(ep, after, t) && k < |ep.ch.history|
    requires forall u: Task :: GivenUp(more, c, u) <==> GivenUp(log, c, u) || u == t
    requires t in ep.ch.history[k].originals <==> ep.tasks[t].packet == Some(ep.ch.history[k].sequence) && !ep.tasks[t].replay
    ensures after.ch.history[k].retired <==> OriginalGivenUp(after, more, c, after.ch.history[k].sequence)
  {
    hide GivenUp;
    var p := ep.ch.history[k];
    if p.retired {
      var u :| 0 <= u < |ep.tasks| && ep.tasks[u].packet == Some(p.sequence) && !ep.tasks[u].replay && GivenUp(log, c, u);
      assert after.tasks[u].packet == Some(p.sequence) && !after.tasks[u].replay;
    }
    if t in p.originals {
      assert after.tasks[t].packet == Some(p.sequence) && !after.tasks[t].replay;
    }
  }

  ghost predicate MarksLogged(s: System, log: Log) {
    forall c: ChannelId ::
      if c in s.endpoints then RetiredLogged(s.endpoints[c], log, c) else forall t: Task :: !GivenUp(log, c, t)
  }

  lemma OthersGiveUpNothing(log: Log, e: Event, c: ChannelId)
    requires !(e.On? && e.act.MakeRoom? && e.act.d == c)
    ensures forall t: Task :: GivenUp(log + [e], c, t) <==> GivenUp(log, c, t)
  {
    forall t: Task ensures GivenUp(log + [e], c, t) <==> GivenUp(log, c, t) {
      if d :| On(d, MakeRoom(c, t)) in log {
        assert On(d, MakeRoom(c, t)) in log + [e];
      }
    }
  }

  lemma MarksStep(s: System, e: Event, log: Log, c: ChannelId)
    requires SysInv(s) && SystemLogged(s, log) && MarksLogged(s, log) && Enabled(s, e)
    ensures if c in Step(s, e).endpoints then RetiredLogged(Step(s, e).endpoints[c], log + [e], c)
            else forall t: Task :: !GivenUp(log + [e], c, t)
  {
    hide SysInv, Inv, Logged, Silent, Enabled, Step, RetiredLogged, GivenUp, SafeToRotate, GaveUp, NeedsRoom, MayLose,
      GivenUpBefore, KeepsMarks, SameRequests, Sends, Added, Repeated;
    if e.On? && e.act.MakeRoom? && e.act.d == c {
      RotationStep(s, e.c, c, e.act.victim);
      EndpointInv(s, c);
      SafeIsPending(s.endpoints[c], e.act.victim, s.now);
      GiveUpLogged(s.endpoints[c], Step(s, e).endpoints[c], log, e.c, c, e.act.victim);
    } else {
      OthersGiveUpNothing(log, e, c);
      if c in s.endpoints {
        EndpointInv(s, c);
        StepSends(s, log, e, c);
        AddedKeepsRequests(s, Step(s, e), c);
        StepKeepsMarks(s, e, c);
        KeptMarksLogged(s.endpoints[c], Step(s, e).endpoints[c], log, e, c);
      } else if c in Step(s, e).endpoints {
        OpenedIsEmpty(s, e, c);
        EmptyMarks(Step(s, e).endpoints[c], log + [e], c);
      }
    }
  }

  lemma SafeIsPending(ep: Endpoint, t: Task, now: int)
    requires SafeToRotate(ep, t, now)
    ensures t in ep.ch.pending
  {
  }

  lemma AddedKeepsRequests(s: System, s': System, c: ChannelId)
    requires c in s.endpoints && c in s'.endpoints
    ensures forall body, replay :: Added(s, s', c, body, replay) ==> SameRequests(s.endpoints[c].tasks, s'.endpoints[c].tasks)
  {
    var ep, after := s.endpoints[c], s'.endpoints[c];
    assert |after.tasks| > |ep.tasks| && after.tasks[..|ep.tasks|] == ep.tasks ==>
             forall t :: 0 <= t < |ep.tasks| ==> after.tasks[t] == after.tasks[..|ep.tasks|][t];
  }

  lemma StepKeepsMarks(s: System, e: Event, c: ChannelId)
    requires SysInv(s) && Enabled(s, e) && c in s.endpoints && !(e.On? && e.act.MakeRoom? && e.act.d == c)
    ensures c in Step(s, e).endpoints
    ensures KeepsMarks(s.endpoints[c].ch.history, Step(s, e).endpoints[c].ch.history, s.endpoints[c].ch.requests)
  {
    hide SysInv, ActEnabled, ActStep, KeepsMarks;
    if Aside(e, c) {
      StepElsewhere(s, e, c);
      InPlaceKeepsMarks(s.endpoints[c].ch.history, s.endpoints[c].ch.history, s.endpoints[c].ch.requests);
    } else {
      ActKeepsMarks(s, c, e.act);
    }
  }

  lemma OpenedIsEmpty(s: System, e: Event, c: ChannelId)
    requires Enabled(s, e) && c !in s.endpoints && c in Step(s, e).endpoints
    ensures Step(s, e).endpoints[c].tasks == [] && Step(s, e).endpoints[c].ch.history == []
  {
    hide ActEnabled, ActStep;
    if e.On? {
      ActOpensNothing(s, e.c, e.act);
    }
  }

  lemma EmptyMarks(ep: Endpoint, log: Log, c: ChannelId)
    requires ep.tasks == [] && ep.ch.history == [] && forall t: Task :: !GivenUp(log, c, t)
    ensures RetiredLogged(ep, log, c)
  {
  }

  /** In every run, a packet is retired exactly when one of its original requests was given up for room. */
  lemma {:induction false} PacketsRetireByRotation(states: seq<System>, events: seq<Event>, i: nat)
    requires IsRun(states, events) && i < |states|
    ensures MarksLogged(states[i], events[..i])
    decreases i
  {
    hide SysInv, SystemLogged, Enabled, Step, RetiredLogged, GivenUp;
    if i == 0 {
      NothingGivenUp();
    } else {
      var s, e, log := states[i - 1], events[i - 1], events[..i - 1];
      PacketsRetireByRotation(states, events, i - 1);
      RunsKeep(states, events, i - 1);
      ChannelsKnowTheLog(states, events, i - 1);
      assert events[..i] == log + [e];
      forall c: ChannelId
        ensures if c in Step(s, e).endpoints then RetiredLogged(Step(s, e).endpoints[c], log + [e], c)
                else forall t: Task :: !GivenUp(log + [e], c, t)
      {
        MarksStep(s, e, log, c);
      }
    }
  }

  lemma NothingGivenUp()
    ensures MarksLogged(Initial(), [])
  {
  }
}
