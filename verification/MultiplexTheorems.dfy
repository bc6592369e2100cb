/**
  What the multiplexer promises in every state of every run, whatever the
  scheduler and the network do.
  */
module MultiplexTheorems {
  import opened Common
  import opened ChannelState
  import opened ReplayHistory
  import opened Multiplex
  import opened EndpointInvariant
  import opened EndpointSteps
  import opened MultiplexInvariant
  import opened MultiplexRuns

  /**
    Capacity accounting is exact and bounded. Every reservation is held by the
    one pending request it was made for or was released, once; the lane's
    counters are the number and the bytes of those held; no limit is exceeded.
    */
  lemma CapacityIsExactlyOnce(states: seq<System>, events: seq<Event>, i: nat)
    requires IsRun(states, events) && i < |states|
    ensures var s := states[i];
            && s.lane.inflight == |s.ledger.held| <= MAX_LANE_REQUESTS
            && s.lane.queuedBytes == Sum(s.ledger.held) <= MAX_LANE_BYTES
            && HeldByPending(s.ledger.held, s.endpoints)
            && s.ledger.reserved == s.ledger.released + multiset(s.ledger.held.Keys)
            && (forall k :: s.ledger.reserved[k] <= 1)
            && (forall c :: c in s.endpoints ==>
                  && s.endpoints[c].ch.pendingBytes == Sum(s.endpoints[c].ch.pending) <= MAX_CHANNEL_BYTES
                  && |s.endpoints[c].ch.pending| <= MAX_CHANNEL_REQUESTS)
  {
    RunsKeep(states, events, i);
  }

  /** When every channel has finished closing, nothing of the lane is left in use. */
  lemma ClosedChannelsHoldNothing(states: seq<System>, events: seq<Event>, i: nat)
    requires IsRun(states, events) && i < |states|
    requires forall c :: c in states[i].endpoints ==> states[i].endpoints[c].ch.closeDone
    ensures states[i].lane.inflight == 0 && states[i].lane.queuedBytes == 0
    ensures states[i].lane.replyBufferBytes == 0
    ensures states[i].ledger.reserved == states[i].ledger.released
  {
    RunsKeep(states, events, i);
    var s := states[i];
    forall k: Claim ensures k !in s.ledger.held && k !in s.ledger.buffers {
      if k.0 in s.endpoints {
        DoneHasNothing(s.endpoints[k.0], k.1);
      }
      assert !Pends(s.endpoints, k) && !Posts(s.endpoints, k);
    }
    assert s.ledger.held == map[] && s.ledger.buffers == map[];
  }

  lemma DoneHasNothing(ep: Endpoint, t: Task)
    requires Inv(ep) && ep.ch.closeDone
    ensures t !in ep.ch.pending && !InPhase(ep, t, Posting)
  {
  }

  /**
    In every run, a retained packet has among its originals exactly the pending
    native requests that were sent for it, and as its replay exactly the pending
    replay that was; so a request belongs to one packet and in one role.
    */
  lemma PacketsKnowTheirRequests(states: seq<System>, events: seq<Event>, i: nat, c: ChannelId, k: nat, t: Task)
    requires IsRun(states, events) && i < |states| && c in states[i].endpoints && k < |states[i].endpoints[c].ch.history|
    ensures var ep, p := states[i].endpoints[c], states[i].endpoints[c].ch.history[k];
            && (t in ep.ch.pending ==> t < |ep.tasks|)
            && (t in p.originals <==> t in ep.ch.pending && ep.tasks[t].packet == Some(p.sequence) && !ep.tasks[t].replay)
            && (p.pending == Some(t) <==> t in ep.ch.pending && ep.tasks[t].packet == Some(p.sequence) && ep.tasks[t].replay)
            && (t in ep.ch.pending ==> (t in ep.ch.replayPending <==> ep.tasks[t].replay))
            && (forall j :: 0 <= j < |ep.ch.history| && j != k ==> !(p.Owns(t) && ep.ch.history[j].Owns(t)))
  {
    RunsKeep(states, events, i);
    EndpointInv(states[i], c);
    PacketKnows(states[i].endpoints[c], k, t);
  }

  lemma PacketKnows(ep: Endpoint, k: nat, t: Task)
    requires Inv(ep) && k < |ep.ch.history|
    ensures var p := ep.ch.history[k];
            && (t in ep.ch.pending ==> t < |ep.tasks|)
            && (t in p.originals <==> t in ep.ch.pending && ep.tasks[t].packet == Some(p.sequence) && !ep.tasks[t].replay)
            && (p.pending == Some(t) <==> t in ep.ch.pending && ep.tasks[t].packet == Some(p.sequence) && ep.tasks[t].replay)
            && (t in ep.ch.pending ==> (t in ep.ch.replayPending <==> ep.tasks[t].replay))
            && (forall j :: 0 <= j < |ep.ch.history| && j != k ==> !(p.Owns(t) && ep.ch.history[j].Owns(t)))
  {
    hide LogOk, AllRecorded, DeliveredInOrder, AttemptsLeft, Sum, QueuedBytes, Issued, OverBudget, AttemptsBounded;
    var p := ep.ch.history[k];
    assert t in p.originals <==> WorksFor(ep.ch.pending, ep.tasks, t, p.sequence, false);
    assert p.pending == Some(t) <==> WorksFor(ep.ch.pending, ep.tasks, t, p.sequence, true);
    forall j | 0 <= j < |ep.ch.history| && j != k ensures !(p.Owns(t) && ep.ch.history[j].Owns(t)) {
      if p.Owns(t) && ep.ch.history[j].Owns(t) {
        OwnerIsUnique(ep, j, k, t);
      }
    }
  }

  lemma OwnerIsUnique(ep: Endpoint, j: nat, k: nat, t: Task)
    requires Inv(ep) && j < |ep.ch.history| && k < |ep.ch.history|
    requires ep.ch.history[j].Owns(t) && ep.ch.history[k].Owns(t)
    ensures j == k && t in ep.ch.pending
    ensures t in ep.ch.history[j].originals <==> t !in ep.ch.replayPending
  {
    var h := ep.ch.history;
    assert ep.tasks[t].packet == Some(h[j].sequence) == Some(h[k].sequence);
  }

  /**
    The replay budget over a whole run: two at a time, three per packet, two
    seconds apart, within thirty seconds of the first send, and never more than
    three per native send, packets given up in between included.
    */
  lemma ReplayBudget(states: seq<System>, events: seq<Event>, i: nat, c: ChannelId)
    requires IsRun(states, events) && i < |states| && c in states[i].endpoints
    ensures var ep := states[i].endpoints[c];
            && |ep.ch.replayPending| <= MAX_CHANNEL_REPLAYS
            && Rationed(ep.journal.replays)
            && Spaced(ep.journal.replays)
            && InTime(ep.journal.replays, ep.journal.firstSent)
            && ep.ch.replayRequests == |ep.journal.replays|
            && ep.ch.replayRequests <= REPLAY_MAX_ATTEMPTS * ep.journal.nativeSends
            && ep.ch.requests == ep.journal.nativeSends + ep.ch.replayRequests
            && (forall t :: 0 <= t < |ep.tasks| && ep.tasks[t].replay ==> Key(ep.tasks[t].body) != ZERO_KEY)
  {
    RunsKeep(states, events, i);
    EndpointInv(states[i], c);
    AttemptsLeftNonNegative(states[i].endpoints[c].ch.history);
  }

  /** What tells the encryption key of a packet, if it has as many bytes. */
  function FirstEight(body: Bytes): Bytes { if |body| >= 8 then body[..8] else body }

  /** The replay history: distinct bodies under one encryption key, oldest first, within its limits. */
  lemma HistoryIsBounded(states: seq<System>, events: seq<Event>, i: nat, c: ChannelId)
    requires IsRun(states, events) && i < |states| && c in states[i].endpoints
    ensures var h := states[i].endpoints[c].ch.history;
            && |h| <= REPLAY_HISTORY_PACKETS && HistoryBytes(h) <= REPLAY_HISTORY_BYTES
            && (forall j, k :: 0 <= j < k < |h| ==> h[j].body != h[k].body && h[j].sequence < h[k].sequence)
            && (forall j, k :: 0 <= j < k < |h| ==> FirstEight(h[j].body) == FirstEight(h[k].body))
            && (forall j :: 0 <= j < |h| ==> FirstEight(h[j].body) != [0, 0, 0, 0, 0, 0, 0, 0])
  {
    RunsKeep(states, events, i);
    EndpointInv(states[i], c);
    var ep := states[i].endpoints[c];
    forall j | 0 <= j < |ep.ch.history| ensures UnderKey(ep.ch.history[j], ep.ch.replayKey) {
      RetainedIsEncrypted(ep, j);
    }
    forall j, k | 0 <= j < k < |ep.ch.history| ensures ep.ch.history[j].body != ep.ch.history[k].body {
      assert !SameBody(ep.ch.history[j], ep.ch.history[k]);
    }
  }

  /** The lane grants its share to a native upload of an open channel. */
  predicate SendsNative(s: System, e: Event, c: ChannelId) {
    && e == On(c, GrantLane) && Enabled(s, e)
    && !s.lane.closed && !s.endpoints[c].ch.closed
  }

  /** The history a native send hands to `_trim_history`, if it retains the packet. */
  function ToTrim(ep: Endpoint, body: Bytes, now: int): Option<seq<Packet>> {
    var (remembered, index) := Remember(ep.ch.(requests := ep.ch.requests + 1), body, now);
    match index
    case None => None
    case Some(i) => Some(MarkOriginal(remembered.history, i, |ep.tasks|))
  }

  /** A packet with an original in flight, or one that was given up and may still be sent again in time. */
  predicate WorthKeeping(p: Packet, now: int) {
    p.originals != {} || (p.retired && p.attempts < 3 && now <= p.sentAt + 30_000)
  }

  /**
    In every run, a send gives packets up only while there are more than sixteen,
    or more than 64 KiB; each time the oldest one not worth keeping, or the oldest
    of all if every one is.
    */
  lemma EvictionsAreForced(states: seq<System>, events: seq<Event>, i: nat, c: ChannelId, e: Eviction)
    requires IsRun(states, events) && i < |events| && SendsNative(states[i], events[i], c)
    requires var ep := states[i].endpoints[c];
             var trimmed := ToTrim(ep, ep.upload.body, states[i].now);
             trimmed.Some? && e in Evictions(trimmed.value, states[i].now)
    ensures var ep, now := states[i].endpoints[c], states[i].now;
            && c in states[i + 1].endpoints
            && states[i + 1].endpoints[c].ch.history == Trim(ToTrim(ep, ep.upload.body, now).value, now)
            && e.victim < |e.history|
            && (|e.history| > 16 || HistoryBytes(e.history) > 64 * 1024)
            && (if WorthKeeping(e.history[e.victim], now) then e.victim == 0 && forall p :: p in e.history ==> WorthKeeping(p, now)
                else forall j :: 0 <= j < e.victim ==> WorthKeeping(e.history[j], now))
  {
    var s, ep := states[i], states[i].endpoints[c];
    assert states[i + 1] == Step(s, events[i]);
    hide IsRun, ToTrim, Trim, HistoryBytes, Evictions, SendNative, Step, SendsNative;
    GrantSends(s, c);
    SendTrims(ep, ep.upload.body, s.now);
    EvictionIsForced(ToTrim(ep, ep.upload.body, s.now).value, s.now, e);
  }

  /** The packets that a send finds under its own key. */
  function KeptFor(history: seq<Packet>, body: Bytes): seq<Packet> {
    if history != [] && FirstEight(history[0].body) != FirstEight(body) then [] else history
  }

  /** What a send adds to them: its request to the packet with this body, or a new packet. */
  ghost predicate Remembers(kept: seq<Packet>, handed: seq<Packet>, body: Bytes, t: Task, number: nat, now: int) {
    if exists k :: 0 <= k < |kept| && kept[k].body == body then
      && |handed| == |kept|
      && forall k :: 0 <= k < |kept| ==>
           handed[k] == if kept[k].body == body then kept[k].(originals := kept[k].originals + {t}) else kept[k]
    else
      handed == kept + [Packet(now, body, number, 0, 0, None, {t}, false)]
  }

  /** The history after a send of `body` as request `number` by task `t`. */
  ghost predicate SentHistory(history: seq<Packet>, after: seq<Packet>, body: Bytes, t: Task, number: nat, now: int) {
    var kept := KeptFor(history, body);
    if FirstEight(body) == [0, 0, 0, 0, 0, 0, 0, 0] then after == history
    else if |body| > 64 * 1024 then after == kept
    else exists handed :: Remembers(kept, handed, body, t, number, now) && after == Trim(handed, now)
  }

  /**
    In every run, a native send leaves the history alone if its packet is in
    plaintext; another key empties it; a packet of more than 64 KiB is not kept;
    any other is marked, or added at the end, and then the history is trimmed.
    */
  lemma SendsRemember(states: seq<System>, events: seq<Event>, i: nat, c: ChannelId)
    requires IsRun(states, events) && i < |events| && SendsNative(states[i], events[i], c)
    ensures c in states[i + 1].endpoints
    ensures var ep, now := states[i].endpoints[c], states[i].now;
            SentHistory(ep.ch.history, states[i + 1].endpoints[c].ch.history, ep.upload.body, |ep.tasks|, ep.ch.requests + 1, now)
  {
    hide Inv, SysInv, Step, Enabled, SentHistory;
    RunsKeep(states, events, i);
    GrantRemembers(states[i], c);
  }

  lemma GrantRemembers(s: System, c: ChannelId)
    requires SysInv(s) && SendsNative(s, On(c, GrantLane), c)
    ensures var ep, s' := s.endpoints[c], Step(s, On(c, GrantLane));
            && ep.upload.AwaitLane? && c in s'.endpoints
            && SentHistory(ep.ch.history, s'.endpoints[c].ch.history, ep.upload.body, |ep.tasks|, ep.ch.requests + 1, s.now)
  {
    hide Inv, SysInv, SendNative, Step, SendsNative, SentHistory;
    GrantSends(s, c);
    EndpointInv(s, c);
    UploadMayChange(s.endpoints[c], NoUpload);
    SendRemembers(s.endpoints[c].(upload := NoUpload), s.endpoints[c].upload.body, s.now);
  }

  lemma KeyIsFirstEight(ep: Endpoint, body: Bytes)
    requires Inv(ep)
    ensures Key(body) == FirstEight(body)
    ensures KeyedHistory(ep.ch.history, ep.ch.replayKey, Key(body)) == KeptFor(ep.ch.history, body)
  {
    if ep.ch.history != [] {
      RetainedIsEncrypted(ep, 0);
    }
  }

  lemma SendRemembers(ep: Endpoint, body: Bytes, now: int)
    requires Inv(ep)
    ensures SentHistory(
              ep.ch.history, SendNative(ep, body, now).ch.history, body, |ep.tasks|, ep.ch.requests + 1, now)
  {
    hide Inv, Trim, Key, KeptFor, FirstEight, Remembers, KeyedHistory, FindPacket;
    KeyIsFirstEight(ep, body);
    var kept := KeptFor(ep.ch.history, body);
    if FirstEight(body) != ZERO_KEY && |body| <= 64 * 1024 {
      var r := Remember(ep.ch.(requests := ep.ch.requests + 1), body, now);
      var handed := MarkOriginal(r.0.history, r.1.value, |ep.tasks|);
      KeptIsDistinct(ep, body);
      MarkingRemembers(kept, r.0.history, handed, r.1.value, body, |ep.tasks|, ep.ch.requests + 1, now);
    }
  }

  lemma KeptIsDistinct(ep: Endpoint, body: Bytes)
    requires Inv(ep)
    ensures forall j, k :: 0 <= j < k < |KeptFor(ep.ch.history, body)| ==>
              KeptFor(ep.ch.history, body)[j].body != KeptFor(ep.ch.history, body)[k].body
  {
    forall j, k | 0 <= j < k < |ep.ch.history| ensures ep.ch.history[j].body != ep.ch.history[k].body {
      assert !SameBody(ep.ch.history[j], ep.ch.history[k]);
    }
  }

  lemma MarkingRemembers(
    kept: seq<Packet>, h: seq<Packet>, handed: seq<Packet>, i: nat, body: Bytes, t: Task, number: nat, now: int)
    requires i < |h| && handed == MarkOriginal(h, i, t) && h[i].body == body
    requires forall j, k :: 0 <= j < k < |kept| ==> kept[j].body != kept[k].body
    requires if FindPacket(kept, body).Some? then h == kept
             else i == |kept| && h == kept + [Packet(now, body, number, 0, 0, None, {}, false)]
    ensures Remembers(kept, handed, body, t, number, now)
  {
    if FindPacket(kept, body).Some? {
      assert kept[i].body == body;
      assert forall k :: 0 <= k < |kept| && k != i ==> kept[k].body != body;
    } else {
      assert handed == kept + [Packet(now, body, number, 0, 0, None, {} + {t}, false)];
      assert {} + {t} == {t};
    }
  }

  lemma SendTrims(ep: Endpoint, body: Bytes, now: int)
    requires ToTrim(ep, body, now).Some?
    ensures SendNative(ep.(upload := NoUpload), body, now).ch.history == Trim(ToTrim(ep, body, now).value, now)
  {
    hide Trim, Recall;
  }

  /** In every run, an encrypted packet that fits is retained by its send, with its request, whatever had to be given up. */
  lemma JustSentIsRetained(states: seq<System>, events: seq<Event>, i: nat, c: ChannelId)
    requires IsRun(states, events) && i < |events| && SendsNative(states[i], events[i], c)
    requires var body := states[i].endpoints[c].upload.body; Key(body) != ZERO_KEY && |body| <= REPLAY_HISTORY_BYTES
    ensures c in states[i + 1].endpoints
    ensures var ep, h := states[i].endpoints[c], states[i + 1].endpoints[c].ch.history;
            exists k :: 0 <= k < |h| && h[k].body == ep.upload.body && |ep.tasks| in h[k].originals
  {
    var s, ep := states[i], states[i].endpoints[c];
    assert states[i + 1] == Step(s, events[i]);
    hide IsRun, Inv, SysInv, Key, SendNative, Step, SendsNative;
    GrantSends(s, c);
    RunsKeep(states, events, i);
    EndpointInv(s, c);
    UploadMayChange(ep, NoUpload);
    SendRetains(ep.(upload := NoUpload), ep.upload.body, s.now);
  }

  lemma GrantSends(s: System, c: ChannelId)
    requires SendsNative(s, On(c, GrantLane), c)
    ensures c in s.endpoints
    ensures var ep, s' := s.endpoints[c], Step(s, On(c, GrantLane));
            && ep.upload.AwaitLane? && c in s'.endpoints
            && s'.endpoints[c] == SendNative(ep.(upload := NoUpload), ep.upload.body, s.now)
  {
    hide SendNative;
  }

  lemma SendRetains(ep: Endpoint, body: Bytes, now: int)
    requires Inv(ep) && Key(body) != ZERO_KEY && |body| <= REPLAY_HISTORY_BYTES
    ensures exists i :: 0 <= i < |SendNative(ep, body, now).ch.history|
              && SendNative(ep, body, now).ch.history[i].body == body
              && |ep.tasks| in SendNative(ep, body, now).ch.history[i].originals
  {
    hide Inv, Remember, MemoryOf, Trim, Key, OverBudget;
    var t, h := |ep.tasks|, Remember(ep.ch.(requests := ep.ch.requests + 1), body, now).0.history;
    RememberAddsAtMostOne(ep.ch, body, now);
    var i := RetainedIndex(ep, body, now);
    var marked := MarkOriginal(h, i, t);
    var after := Trim(marked, now);
    assert SendNative(ep, body, now).ch.history == after;
    if h == ep.ch.history {
      RecalledFits(ep, h, i, t, now);
      assert after[i] == marked[i];
    } else {
      TrimKeepsPacketJustSent(marked, now);
      assert after[|after| - 1] == marked[i];
    }
  }

  /** Where `_remember_packet` puts a packet that can be retained. */
  lemma RetainedIndex(ep: Endpoint, body: Bytes, now: int) returns (i: nat)
    requires Key(body) != ZERO_KEY && |body| <= REPLAY_HISTORY_BYTES
    ensures var r := Remember(ep.ch.(requests := ep.ch.requests + 1), body, now);
            && r.1 == Some(i) && i < |r.0.history| && r.0.history[i].body == body
            && (r.0.history == ep.ch.history || i == |r.0.history| - 1)
  {
    hide Key, OverBudget, HistoryBytes;
    i := Remember(ep.ch.(requests := ep.ch.requests + 1), body, now).1.value;
  }

  lemma RecalledFits(ep: Endpoint, h: seq<Packet>, i: nat, t: Task, now: int)
    requires Inv(ep) && h == ep.ch.history && i < |h|
    ensures Trim(MarkOriginal(h, i, t), now) == MarkOriginal(h, i, t)
  {
    MarkedRecords(h, i, t);
    SameRecordsMeasure(h, MarkOriginal(h, i, t));
  }

  /** Response bodies being received never take more than the lane allows. */
  lemma ReplyBuffersAreBounded(states: seq<System>, events: seq<Event>, i: nat)
    requires IsRun(states, events) && i < |states|
    ensures var s := states[i];
            && s.lane.replyBufferBytes == Sum(s.ledger.buffers) <= MAX_LANE_REPLY_BYTES
            && BufferedByPosting(s.ledger.buffers, s.endpoints)
            && (forall c, t :: c in s.endpoints && 0 <= t < |s.endpoints[c].tasks| ==>
                  |s.endpoints[c].tasks[t].content| <= MAX_PACKET)
  {
    RunsKeep(states, events, i);
    forall c, t | c in states[i].endpoints && 0 <= t < |states[i].endpoints[c].tasks|
      ensures |states[i].endpoints[c].tasks[t].content| <= MAX_PACKET
    {
      EndpointInv(states[i], c);
      ContentBounded(states[i].endpoints[c], t);
    }
  }

  /** Some step of the task is enabled, if it is not over. */
  predicate CanStep(s: System, c: ChannelId, t: Task)
    requires c in s.endpoints && t < |s.endpoints[c].tasks|
  {
    match s.endpoints[c].tasks[t].phase
    case Created => ActEnabled(s, c, FirstStep(t))
    case Posting =>
      ActEnabled(s, c, Unwind(t)) || (!s.endpoints[c].closing && ActEnabled(s, c, PostRaises(t, ConnectionLost)))
    case Over => true
  }

  /**
    No guard blocks a task or a close: a task that is not over can always take a
    step, and on a closing channel it has been cancelled and needs nobody's answer;
    when those of a closing channel are over, each of its requests can be swept,
    and with none left the close can finish.
    */
  lemma ClosingIsNeverStuck(states: seq<System>, events: seq<Event>, i: nat, c: ChannelId)
    requires IsRun(states, events) && i < |states| && c in states[i].endpoints
    ensures var s, ep := states[i], states[i].endpoints[c];
            && (forall t :: 0 <= t < |ep.tasks| ==> CanStep(s, c, t))
            && (ep.closing ==> ep.ch.closed && forall t :: 0 <= t < |ep.tasks| ==> ep.tasks[t].phase.Over? || ep.tasks[t].cancelled)
            && (forall t :: t in ep.ch.pending ==> t < |ep.tasks|)
            && (ep.closing && (forall t :: t in ep.ch.pending ==> ep.tasks[t].phase.Over?) ==>
                  forall t :: t in ep.ch.pending ==> ActEnabled(s, c, SweepTask(t)) && Sweeps(s, c, t))
            && (ep.closing && ep.ch.pending == map[] ==> ActEnabled(s, c, FinishClose) && Finishes(s, c))
  {
    hide IsRun, SysInv, Inv, CanStep;
    RunsKeep(states, events, i);
    EndpointInv(states[i], c);
    var s, ep := states[i], states[i].endpoints[c];
    forall t | t in ep.ch.pending ensures t < |ep.tasks| {
      PendingIsKnown(ep, t);
    }
    forall t | 0 <= t < |ep.tasks| ensures CanStep(s, c, t) {
      NoTaskIsStuck(s, c, t);
    }
    if ep.closing {
      ClosingCancels(ep);
      ClosingSteps(s, c);
    }
  }

  lemma ClosingCancels(ep: Endpoint)
    requires Inv(ep) && ep.closing
    ensures ep.ch.closed
    ensures forall t :: 0 <= t < |ep.tasks| ==> ep.tasks[t].phase.Over? || ep.tasks[t].cancelled
  {
  }

  lemma NoTaskIsStuck(s: System, c: ChannelId, t: Task)
    requires c in s.endpoints && t < |s.endpoints[c].tasks| && Inv(s.endpoints[c])
    ensures CanStep(s, c, t)
  {
    hide RotationChosen, ScanEnabled, Inv;
    if s.endpoints[c].closing {
      ClosingCancels(s.endpoints[c]);
    }
  }

  /** Sweeping a task takes it off the channel, and its body off the channel's and the lane's account. */
  ghost predicate Sweeps(s: System, c: ChannelId, t: Task)
    requires c in s.endpoints && ActEnabled(s, c, SweepTask(t))
  {
    var ch, s' := s.endpoints[c].ch, Step(s, On(c, SweepTask(t)));
    && c in s'.endpoints && s'.endpoints[c].ch.pending == ch.pending - {t}
    && s'.endpoints[c].ch.pendingBytes == ch.pendingBytes - ch.pending[t]
    && s'.lane.inflight == s.lane.inflight - 1 && s'.lane.queuedBytes == s.lane.queuedBytes - ch.pending[t]
  }

  /** The close finishes with an empty history. */
  ghost predicate Finishes(s: System, c: ChannelId)
    requires c in s.endpoints && ActEnabled(s, c, FinishClose)
  {
    var s' := Step(s, On(c, FinishClose));
    && c in s'.endpoints && s'.endpoints[c].ch.closeDone && s'.endpoints[c].ch.history == []
  }

  lemma ClosingSteps(s: System, c: ChannelId)
    requires c in s.endpoints && s.endpoints[c].closing
    requires forall t :: t in s.endpoints[c].ch.pending ==> t < |s.endpoints[c].tasks|
    ensures (forall t :: t in s.endpoints[c].ch.pending ==> s.endpoints[c].tasks[t].phase.Over?) ==>
              forall t :: t in s.endpoints[c].ch.pending ==> ActEnabled(s, c, SweepTask(t)) && Sweeps(s, c, t)
    ensures s.endpoints[c].ch.pending == map[] ==> ActEnabled(s, c, FinishClose) && Finishes(s, c)
  {
    hide RotationChosen, ScanEnabled;
  }
}
