/**
  Every enabled step keeps the invariant of the multiplexer, so every run does;
  the properties the multiplexer is for are read off the invariant.
  */
module MultiplexRuns {
  import opened Common
  import opened ChannelState
  import opened ReplayHistory
  import opened Multiplex
  import opened EndpointInvariant
  import opened EndpointSteps
  import opened MultiplexInvariant

  // ------------------------------------------------------------ the recovery

  lemma RecoveryMayChange(ep: Endpoint, recovery: Recovery)
    requires Inv(ep)
    requires recovery.Replacing? ==> |ep.ch.replayPending - {recovery.task}| < MAX_CHANNEL_REPLAYS
    ensures Inv(ep.(recovery := recovery))
    ensures Quiet(ep, ep.(recovery := recovery))
  {
    hide TasksOk, OwnersOk, HistoryOk, LogOk, AllRecorded, DeliveredInOrder, AttemptsLeft, Sum, QueuedBytes;
  }

  lemma UploadMayChange(ep: Endpoint, upload: Upload)
    requires Inv(ep)
    requires upload.AwaitLane? ==> ep.ch.closed || ep.ch.HasCapacity(|upload.body|)
    ensures Inv(ep.(upload := upload))
    ensures Quiet(ep, ep.(upload := upload))
  {
    hide TasksOk, OwnersOk, HistoryOk, LogOk, AllRecorded, DeliveredInOrder, AttemptsLeft, Sum, QueuedBytes;
  }

  /** A task that is over holds no replay slot of an open channel. */
  lemma OverHasNoSlot(ep: Endpoint, t: Task)
    requires Inv(ep) && InPhase(ep, t, Over) && !ep.ch.closed
    ensures t !in ep.ch.pending && t !in ep.ch.replayPending
  {
  }

  lemma ReplayedPacketIsPending(ep: Endpoint, i: nat)
    requires Inv(ep) && i < |ep.ch.history| && ep.ch.history[i].pending.Some?
    ensures ep.ch.history[i].pending.value in ep.ch.replayPending
  {
    var t := ep.ch.history[i].pending.value;
    assert WorksFor(ep.ch.pending, ep.tasks, t, ep.ch.history[i].sequence, true);
  }

  lemma UploadedIsPosting(ep: Endpoint, t: Task)
    requires Inv(ep) && t in ep.ch.sentSince
    ensures InPhase(ep, t, Posting) && ep.tasks[t].sent && t in ep.ch.pending
  {
  }

  lemma RemovingOne(a: set<Task>, t: Task)
    requires t in a
    ensures |a - {t}| == |a| - 1
  {
  }

  /** What `_recover` replaces is an uploaded replay, so replacing it frees a slot. */
  lemma ReplacedIsUploadedReplay(ep: Endpoint, now: int, i: nat, victim: Task)
    requires Inv(ep) && ScanDecides(ep.ch, now, ReplaceThenSend(i, victim))
    ensures victim in ep.ch.replayPending && victim in ep.ch.sentSince && victim !in ep.ch.receiving
    ensures now - ep.ch.sentSince[victim] >= REPLAY_SLOT_MS
    ensures InPhase(ep, victim, Posting)
    ensures |ep.ch.replayPending - {victim}| < MAX_CHANNEL_REPLAYS
  {
    hide Inv, ReplayDue;
    var packet := ep.ch.history[i];
    if packet.pending.Some? {
      ReplayedPacketIsPending(ep, i);
    } else {
      assert victim in IdleReplays(ep.ch);
    }
    UploadedIsPosting(ep, victim);
    RemovingOne(ep.ch.replayPending, victim);
    SlotsBounded(ep);
  }

  lemma SlotsBounded(ep: Endpoint)
    requires Inv(ep)
    ensures |ep.ch.replayPending| <= MAX_CHANNEL_REPLAYS
  {
  }

  lemma ReplayKeeps(s: System, c: ChannelId, body: Bytes)
    requires SysInv(s) && c in s.endpoints
    requires !s.endpoints[c].ch.closed ==> |s.endpoints[c].ch.replayPending| < MAX_CHANNEL_REPLAYS
    ensures SysInv(Replay(s, c, body))
  {
    hide Inv, AllInv, HeldByPending, ReservedOnce, BufferedByPosting, LaneOk, ReplayDue, SysInv, Quiet, SendReplay;
    var ep := s.endpoints[c];
    EndpointInv(s, c);
    RecoveryMayChange(ep, Watching);
    RecoveryMayChange(ep, Ended);
    QuietStepKeeps(s, c, ep.(recovery := Watching));
    QuietStepKeeps(s, c, ep.(recovery := Ended));
    if ep.upload == NoUpload && ep.ch.HasCapacity(|body|) && !ep.ch.closed && s.lane.HasCapacity(|body|) && !s.lane.closed {
      match FindPacket(ep.ch.history, body)
      case None =>
      case Some(i) =>
        if ep.ch.history[i].pending == None && ReplayDue(ep.ch, ep.ch.history[i], s.now) {
          var watching := ep.(recovery := Watching);
          SendReplayKeeps(watching, i, s.now);
          SendReplayAddsTask(watching, i, s.now);
          AdmissionKeeps(s, c, SendReplay(watching, i, s.now), |body|);
        }
    }
  }

  lemma EndpointInv(s: System, c: ChannelId)
    requires SysInv(s) && c in s.endpoints
    ensures Inv(s.endpoints[c])
  {
    hide Inv;
  }

  lemma SendReplayAddsTask(ep: Endpoint, i: nat, now: int)
    requires i < |ep.ch.history|
    ensures var after := SendReplay(ep, i, now);
            && after.ch.pending == ep.ch.pending[|ep.tasks| := |ep.ch.history[i].body|]
            && |after.tasks| == |ep.tasks| + 1 && after.tasks[..|ep.tasks|] == ep.tasks
            && after.tasks[|ep.tasks|].phase == Created
  {
  }

  lemma SendNativeAddsTask(ep: Endpoint, body: Bytes, now: int)
    ensures var after := SendNative(ep, body, now);
            && after.ch.pending == ep.ch.pending[|ep.tasks| := |body|]
            && |after.tasks| == |ep.tasks| + 1 && after.tasks[..|ep.tasks|] == ep.tasks
            && after.tasks[|ep.tasks|].phase == Created
  {
    hide Remember, NativePacket, Trim;
  }

  // ------------------------------------------------------- the lane's steps

  lemma GrantedKeeps(s: System, c: ChannelId)
    requires SysInv(s) && c in s.endpoints && s.endpoints[c].upload.AwaitLane?
    requires s.lane.closed || s.lane.HasCapacity(|s.endpoints[c].upload.body|)
    ensures SysInv(Granted(s, c))
  {
    hide Inv, AllInv, HeldByPending, ReservedOnce, BufferedByPosting, LaneOk, SysInv, Quiet, SendNative;
    var ep := s.endpoints[c];
    var body := ep.upload.body;
    EndpointInv(s, c);
    UploadMayChange(ep, NoUpload);
    if s.lane.closed || ep.ch.closed {
      QuietStepKeeps(s, c, ep.(upload := NoUpload));
    } else {
      RoomWasKept(ep);
      SendNativeKeeps(ep.(upload := NoUpload), body, s.now);
      SendNativeAddsTask(ep.(upload := NoUpload), body, s.now);
      AdmissionKeeps(s, c, SendNative(ep.(upload := NoUpload), body, s.now), |body|);
    }
  }

  /** The room found before waiting for the lane is still there: only `send_lock`'s holder adds. */
  lemma RoomWasKept(ep: Endpoint)
    requires Inv(ep) && ep.upload.AwaitLane? && !ep.ch.closed
    ensures ep.ch.HasCapacity(|ep.upload.body|)
  {
  }

  lemma BufferedKeeps(s: System, c: ChannelId, t: Task, data: Bytes)
    requires SysInv(s) && c in s.endpoints && Running(s.endpoints[c], t)
    ensures SysInv(Buffered(s, c, t, data))
  {
    hide Inv, AllInv, HeldByPending, ReservedOnce, BufferedByPosting, EndRequest, Sum;
    var ep := s.endpoints[c];
    var size := |ep.tasks[t].content| + |data|;
    if size > MAX_PACKET || s.lane.replyBufferBytes + |data| > MAX_LANE_REPLY_BYTES {
      EndRequestKeeps(s, c, t, Failed(BufferExceeded));
    } else {
      var after := Buffer(ep, t, data, s.now);
      InvAt(s.endpoints, c);
      BufferKeeps(ep, t, data, s.now);
      AllInvAfter(s.endpoints, c, after);
      QuietHeld(s.ledger.held, s.endpoints, c, after);
      GrownBuffer(s.ledger.buffers, s.endpoints, c, t, data, s.now);
      SumUpdate<Claim>(s.ledger.buffers, (c, t), size);
      ReservedAfter(s.ledger, s.endpoints, c, after);
      ReservedIgnoresBuffers(s.ledger, s.ledger.buffers[(c, t) := size], s.endpoints[c := after]);
    }
  }

  lemma GrownBuffer(buffers: map<Claim, nat>, endpoints: Endpoints, c: ChannelId, t: Task, data: Bytes, now: int)
    requires BufferedByPosting(buffers, endpoints) && c in endpoints && Running(endpoints[c], t)
    ensures (c, t) in buffers && buffers[(c, t)] == |endpoints[c].tasks[t].content|
    ensures var size := |endpoints[c].tasks[t].content| + |data|;
            BufferedByPosting(buffers[(c, t) := size], endpoints[c := Buffer(endpoints[c], t, data, now)])
  {
    var after := Buffer(endpoints[c], t, data, now);
    var buffers' := buffers[(c, t) := |endpoints[c].tasks[t].content| + |data|];
    assert Posts(endpoints, (c, t));
    forall k: Claim | k.0 == c
      ensures k in buffers' <==> InPhase(after, k.1, Posting)
      ensures k in buffers' && InPhase(after, k.1, Posting) ==> buffers'[k] == |after.tasks[k.1].content|
    {
      assert k in buffers <==> Posts(endpoints, k);
    }
    BuffersAfter(buffers, endpoints, c, after, buffers');
  }

  lemma OpenKeeps(s: System, c: ChannelId)
    requires SysInv(s) && c !in s.endpoints
    ensures SysInv(With(s, c, NewEndpoint(s.now)))
  {
    hide Inv, AllInv, ReservedOnce, LaneOk, NewEndpoint;
    var after := NewEndpoint(s.now);
    NewEndpointInv(s.now);
    NewEndpointIsEmpty(s.now);
    AllInvAfter(s.endpoints, c, after);
    forall k: Claim | k.0 == c
      ensures k !in s.ledger.held && k !in s.ledger.buffers
    {
      assert !Pends(s.endpoints, k) && !Posts(s.endpoints, k);
    }
    HeldAfter(s.ledger.held, s.endpoints, c, after, s.ledger.held);
    BuffersAfter(s.ledger.buffers, s.endpoints, c, after, s.ledger.buffers);
    ReservedAfter(s.ledger, s.endpoints, c, after);
  }

  lemma NewEndpointIsEmpty(now: int)
    ensures NewEndpoint(now).ch.pending == map[] && NewEndpoint(now).tasks == []
  {
  }

  // ---------------------------------------------------------------- rotation

  /** What `_make_upload_room` may cancel, as the invariant shows it. */
  predicate SafeToRotate(ep: Endpoint, t: Task, now: int) {
    && InPhase(ep, t, Posting) && ep.tasks[t].sent && t in ep.ch.pending
    && t !in ep.ch.receiving
    && t in ep.ch.sentSince && now - ep.ch.sentSince[t] >= REPLAY_REQUEST_MS
    && (ep.tasks[t].replay ||
        exists i :: 0 <= i < |ep.ch.history| && t in ep.ch.history[i].originals
                    && ep.tasks[t].packet == Some(ep.ch.history[i].sequence)
                    && now - ep.ch.history[i].sentAt <= REPLAY_MAX_AGE_MS)
  }

  lemma CandidateIsSafe(ep: Endpoint, t: Task, now: int)
    requires Inv(ep) && CapacityCandidate(ep.ch, now, Some(t))
    ensures SafeToRotate(ep, t, now)
  {
    UploadedIsPosting(ep, t);
    if t in ep.ch.replayPending {
    } else {
      var owner := FindOriginal(ep.ch.history, t);
      assert WorksFor(ep.ch.pending, ep.tasks, t, ep.ch.history[owner.value].sequence, false);
    }
  }

  lemma SafeIsPosting(ep: Endpoint, t: Task, now: int)
    requires SafeToRotate(ep, t, now)
    ensures InPhase(ep, t, Posting)
  {
  }

  lemma RotatedKeeps(s: System, c: ChannelId, d: ChannelId, victim: Task)
    requires SysInv(s) && c in s.endpoints && RotationChosen(s, c, d, victim)
    ensures SysInv(Rotated(s, c, d, victim))
  {
    hide Inv, SysInv, RotateOut, CapacityCandidate, Quiet, SafeToRotate, RoomSources, NoNewerUpload;
    EndpointInv(s, d);
    CandidateIsSafe(s.endpoints[d], victim, s.now);
    SafeIsPosting(s.endpoints[d], victim, s.now);
    RotateOutKeeps(s.endpoints[d], victim);
    RotateOutIsQuiet(s.endpoints[d], victim);
    QuietStepKeeps(s, d, RotateOut(s.endpoints[d], victim));
    var rotated := With(s, d, RotateOut(s.endpoints[d], victim));
    EndpointInv(rotated, c);
    RecoveryMayChange(rotated.endpoints[c], Rotating(s.now, d, victim));
    QuietStepKeeps(rotated, c, rotated.endpoints[c].(recovery := Rotating(s.now, d, victim)));
  }

  lemma RotateOutIsQuiet(ep: Endpoint, t: Task)
    ensures Quiet(ep, RotateOut(ep, t)) && Quiet(ep, Cancel(ep, t))
  {
    RotateRetires(ep.ch, t);
    hide Rotate;
  }

  // ------------------------------------------------------------------- steps

  lemma ScannedKeeps(s: System, c: ChannelId, plan: Plan)
    requires SysInv(s) && c in s.endpoints && ScanEnabled(s, c, plan)
    ensures SysInv(Scanned(s, c, plan))
  {
    hide Inv, SysInv, Acceptable, Replay, NoRoomToMake, Quiet;
    var ep := s.endpoints[c];
    EndpointInv(s, c);
    match plan
    case Nothing =>
      RecoveryMayChange(ep, Watching);
      QuietStepKeeps(s, c, ep.(recovery := Watching));
    case SendAgain(i) =>
      ReplayKeeps(s, c, ep.ch.history[i].body);
    case ReplaceThenSend(i, victim) =>
      ReplacedIsUploadedReplay(ep, ScanTime(s, c), i, victim);
      CancelKeeps(ep, victim);
      RotateOutIsQuiet(ep, victim);
      var after := Cancel(ep, victim);
      RecoveryMayChange(after, Replacing(ep.ch.history[i].body, victim));
      QuietComposes(ep, after, after.(recovery := Replacing(ep.ch.history[i].body, victim)));
      QuietStepKeeps(s, c, after.(recovery := Replacing(ep.ch.history[i].body, victim)));
  }

  lemma QuietComposes(a: Endpoint, b: Endpoint, c: Endpoint)
    requires Quiet(a, b) && Quiet(b, c)
    ensures Quiet(a, c)
  {
    forall t | 0 <= t < |a.tasks| ensures SamePhase(a.tasks[t], c.tasks[t]) {
      assert SamePhase(a.tasks[t], b.tasks[t]) && SamePhase(b.tasks[t], c.tasks[t]);
    }
  }

  lemma ResendKeeps(s: System, c: ChannelId)
    requires SysInv(s) && c in s.endpoints
    requires s.endpoints[c].recovery.Replacing? && InPhase(s.endpoints[c], s.endpoints[c].recovery.task, Over)
    ensures SysInv(Replay(s, c, s.endpoints[c].recovery.body))
  {
    hide Inv, SysInv, Replay;
    var ep := s.endpoints[c];
    EndpointInv(s, c);
    if !ep.ch.closed {
      OverHasNoSlot(ep, ep.recovery.task);
      SlotIsFree(ep);
    }
    ReplayKeeps(s, c, ep.recovery.body);
  }

  lemma SlotIsFree(ep: Endpoint)
    requires Inv(ep) && ep.recovery.Replacing? && ep.recovery.task !in ep.ch.replayPending
    ensures |ep.ch.replayPending| < MAX_CHANNEL_REPLAYS
  {
    assert ep.ch.replayPending - {ep.recovery.task} == ep.ch.replayPending;
  }

  lemma DeliveryKeeps(ep: Endpoint, written: bool, now: int)
    requires Inv(ep)
    ensures var after := ep.(ch := ep.ch.(delivering := true)); Inv(after) && Quiet(ep, after)
    ensures var after := Delivered(ep, written, now); Inv(after) && Quiet(ep, after)
  {
    hide TasksOk, OwnersOk, HistoryOk, LogOk, AllRecorded, DeliveredInOrder, AttemptsLeft, Sum, QueuedBytes;
  }

  lemma QuietSteps(ep: Endpoint, t: Task, now: int)
    ensures t < |ep.tasks| ==> Quiet(ep, Uploaded(ep, t, now))
    ensures Quiet(ep, ResponseStarted(ep, t, now))
    ensures ep.ch.queue != [] ==> Quiet(ep, Take(ep))
    ensures Quiet(ep, BeginClose(ep))
    ensures Quiet(ep, ep.(ch := Swept(ep.ch)))
  {
  }

  lemma ActKeeps(s: System, c: ChannelId, act: Act)
    requires SysInv(s) && c in s.endpoints && ActEnabled(s, c, act)
    ensures SysInv(ActStep(s, c, act))
  {
    hide Inv, SysInv, Replay, Rotated, Granted, Started, Buffered, EndRequest, Scanned, GiveBack, Quiet, RotationChosen,
      ScanEnabled, Take, Uploaded, ResponseStarted, BeginClose, Swept, FinishTask, Validate;
    var ep := s.endpoints[c];
    EndpointInv(s, c);
    match act
    case Submit(body) => UploadMayChange(ep, AwaitChannel(body)); QuietStepKeeps(s, c, ep.(upload := AwaitChannel(body)));
    case GrantChannel =>
      var upload := if ep.ch.closed then NoUpload else AwaitLane(ep.upload.body);
      UploadMayChange(ep, upload);
      QuietStepKeeps(s, c, ep.(upload := upload));
    case GrantLane => GrantedKeeps(s, c);
    case AbortUpload => UploadMayChange(ep, NoUpload); QuietStepKeeps(s, c, ep.(upload := NoUpload));
    case FirstStep(t) => StartedKeeps(s, c, t);
    case BodySent(t) =>
      UploadedKeeps(ep, t, s.now); QuietSteps(ep, t, s.now); QuietStepKeeps(s, c, Uploaded(ep, t, s.now));
    case Headers(t) =>
      ResponseStartedKeeps(ep, t, s.now); QuietSteps(ep, t, s.now); QuietStepKeeps(s, c, ResponseStarted(ep, t, s.now));
    case Chunk(t, data) => BufferedKeeps(s, c, t, data);
    case BodyComplete(t) => EndRequestKeeps(s, c, t, Validate(ep.tasks[t].content));
    case PostRaises(t, error) => EndRequestKeeps(s, c, t, Failed(error));
    case Unwind(t) => EndRequestKeeps(s, c, t, Unwound);
    case TakeItem => TakeKeeps(ep); QuietSteps(ep, 0, s.now); QuietStepKeeps(s, c, Take(ep));
    case StartDelivery =>
      DeliveryKeeps(ep, true, s.now); QuietStepKeeps(s, c, ep.(ch := ep.ch.(delivering := true)));
    case EndDelivery(written) =>
      DeliveryKeeps(ep, written, s.now); QuietStepKeeps(s, c, Delivered(ep, written, s.now));
    case MakeRoom(d, victim) => RotatedKeeps(s, c, d, victim);
    case Scan(plan) => ScannedKeeps(s, c, plan);
    case Resend => ResendKeeps(s, c);
    case StartClose => BeginCloseKeeps(ep); QuietSteps(ep, 0, s.now); QuietStepKeeps(s, c, BeginClose(ep));
    case SweepTask(t) => PendingIsKnown(ep, t); SweepKeeps(s, c, t);
    case FinishClose =>
      SweptKeeps(ep); QuietSteps(ep, 0, s.now); QuietStepKeeps(s, c, ep.(ch := Swept(ep.ch)));
    case StopRecovery => RecoveryMayChange(ep, Ended); QuietStepKeeps(s, c, ep.(recovery := Ended));
  }

  lemma PendingIsKnown(ep: Endpoint, t: Task)
    requires Inv(ep) && t in ep.ch.pending
    ensures t < |ep.tasks|
  {
  }

  /** Every enabled step, whoever chooses it, keeps the invariant. */
  lemma StepKeeps(s: System, e: Event)
    requires SysInv(s) && Enabled(s, e)
    ensures SysInv(Step(s, e))
  {
    hide Inv, AllInv, HeldByPending, ReservedOnce, BufferedByPosting, LaneOk, ActStep, ActEnabled, NewEndpoint;
    match e
    case Tick(_) =>
    case CloseLane => hide Sum; LaneMayClose(s);
    case Open(c) => OpenKeeps(s, c);
    case On(c, act) => ActKeeps(s, c, act);
  }

  lemma LaneMayClose(s: System)
    requires SysInv(s)
    ensures SysInv(s.(lane := s.lane.(closed := true)))
  {
    hide AllInv, HeldByPending, ReservedOnce, BufferedByPosting, Sum;
  }

  /** The invariant holds in every state of every run. */
  lemma {:induction false} RunsKeep(states: seq<System>, events: seq<Event>, i: nat)
    requires IsRun(states, events) && i < |states|
    ensures SysInv(states[i])
    decreases i
  {
    hide SysInv, Enabled, Step, Initial;
    if i == 0 {
      InitialInv();
    } else {
      RunsKeep(states, events, i - 1);
      StepKeeps(states[i - 1], events[i - 1]);
    }
  }
}
