/**
  `_HttpChannel` and `_HttpLane` of tgproxy/cf_h2.py in their own form: objects
  whose methods update their fields. Each method is proved against the function
  or relation of ChannelState and Multiplex that the invariants are about.
  */
module HttpChannel {
  import opened Common
  import opened ChannelState
  import opened ReplayHistory
  import M = Multiplex

  class HttpLane {
    var closed: bool
    var inflight: int
    var queuedBytes: int
    var replyBufferBytes: int

    constructor ()
      ensures View() == M.Lane(false, 0, 0, 0)
    {
      closed, inflight, queuedBytes, replyBufferBytes := false, 0, 0, 0;
    }

    function View(): M.Lane
      reads this
    {
      M.Lane(closed, inflight, queuedBytes, replyBufferBytes)
    }

    /** `_reserve` without waiting: no room is an answer, a closed lane an error. */
    method TryReserve(length: nat) returns (granted: Result<bool, Error>)
      modifies this
      ensures granted == (if !old(View()).HasCapacity(length) then Ok(false)
                          else if old(closed) then Err(ConnectionLost) else Ok(true))
      ensures View() == if granted == Ok(true) then old(View()).Reserve(length) else old(View())
    {
      if !(inflight < M.MAX_LANE_REQUESTS && queuedBytes + length <= M.MAX_LANE_BYTES) {
        return Ok(false);
      }
      if closed {
        return Err(ConnectionLost);
      }
      inflight := inflight + 1;
      queuedBytes := queuedBytes + length;
      return Ok(true);
    }

    method Release(length: nat)
      modifies `inflight, `queuedBytes
      ensures View() == old(View()).Release(length)
    {
      inflight := inflight - 1;
      queuedBytes := queuedBytes - length;
    }
  }

  class HttpChannel {
    const lane: HttpLane
    var closed: bool
    var closeDone: bool
    var transportError: Option<int>
    var pending: map<Task, nat>
    var pendingBytes: int
    var sentSince: map<Task, int>
    var receiving: set<Task>
    var replyBytes: int
    var queue: seq<Item>
    var delivering: bool
    var replayPending: set<Task>
    var history: seq<Packet>
    var replayKey: Option<Bytes>
    var requests: nat
    var replayRequests: nat
    var lastProgress: int

    constructor (lane: HttpLane, now: int)
      ensures this.lane == lane && View() == NewChannel(now)
    {
      this.lane := lane;
      closed, closeDone, transportError := false, false, None;
      pending, pendingBytes, sentSince, receiving := map[], 0, map[], {};
      replyBytes, queue, delivering := 0, [], false;
      replayPending, history, replayKey := {}, [], None;
      requests, replayRequests, lastProgress := 0, 0, now;
    }

    function View(): Channel
      reads this
    {
      Channel(closed, closeDone, transportError, pending, pendingBytes, sentSince, receiving, replyBytes, queue,
              delivering, replayPending, history, replayKey, requests, replayRequests, lastProgress)
    }

    /** `_fail`: what is queued is dropped one by one, the error takes its place. */
    method Fail(error: Error)
      modifies this
      ensures View() == ChannelState.Fail(old(View()), error)
    {
      if closed {
        return;
      }
      if error.Transport? {
        transportError := Some(error.code);
      }
      closed := true;
      while queue != []
        invariant View() == old(View()).(
          transportError := if error.Transport? then Some(error.code) else old(transportError), closed := true, queue := queue)
        decreases |queue|
      {
        queue := queue[1..];
      }
      replyBytes := 0;
      queue := queue + [Failure(error)];
    }

    /** `_remember_packet`. */
    method RememberPacket(body: Bytes, now: int) returns (index: Option<nat>)
      modifies `history, `replayKey
      ensures (View(), index) == Remember(old(View()), body, now)
    {
      var key := Key(body);
      if key == ZERO_KEY {
        return None;
      }
      if replayKey != Some(key) {
        history := [];
        replayKey := Some(key);
      }
      if |body| > REPLAY_HISTORY_BYTES {
        return None;
      }
      index := FindPacket(history, body);
      if index == None {
        history := history + [Packet(now, body, requests, 0, 0, None, {}, false)];
        index := Some(|history| - 1);
      }
    }

    /** `_trim_history`: the bytes retained are summed once and then kept up to date. */
    method TrimHistory(now: int)
      modifies this`history
      ensures history == Trim(old(history), now)
    {
      var retained := 0;
      for i := 0 to |history|
        invariant retained == HistoryBytes(history[..i])
      {
        assert history[..i + 1][..i] == history[..i];
        retained := retained + |history[i].body|;
      }
      assert history[..|history|] == history;
      while |history| > REPLAY_HISTORY_PACKETS || retained > REPLAY_HISTORY_BYTES
        invariant retained == HistoryBytes(history)
        invariant Trim(history, now) == Trim(old(history), now)
        decreases |history|
      {
        var victim := FindVictim(now);
        MeasuresAfterRemoval(history, victim);
        retained := retained - |history[victim].body|;
        history := RemoveAt(history, victim);
      }
    }

    /** The first evictable packet, else the oldest. */
    method FindVictim(now: int) returns (victim: nat)
      requires history != []
      ensures victim == Victim(history, now)
    {
      victim := 0;
      while victim < |history|
        invariant victim <= |history|
        invariant forall i :: 0 <= i < victim ==> !Evictable(history[i], now)
      {
        if Evictable(history[victim], now) {
          return;
        }
        victim := victim + 1;
      }
      victim := 0;
    }

    /** The await-free tail of `_send` for a native packet; the lane has granted its share. */
    method AdmitNative(body: Bytes, task: Task, now: int) returns (packet: Option<nat>)
      modifies `pending, `pendingBytes, `requests, `history, `replayKey
      ensures View() == ChannelState.AdmitNative(old(View()), body, task, now)
      ensures packet == NativePacket(old(View()), body, now)
    {
      hide Recall, Trim, MarkOriginal;
      pendingBytes := pendingBytes + |body|;
      requests := requests + 1;
      var index := RememberPacket(body, now);
      pending := pending[task := |body|];
      if index.Some? {
        packet := Some(history[index.value].sequence);
        history := MarkOriginal(history, index.value, task);
        TrimHistory(now);
      } else {
        packet := None;
      }
    }

    /** `_send(…, replay=True)` from its capacity checks on, as one uncontended step. */
    method TryReplay(body: Bytes, sendLocked: bool, task: Task, now: int) returns (sent: Result<bool, Error>)
      modifies `pending, `pendingBytes, `requests, `replayRequests, `replayPending, `history, lane
      ensures sent == (if sendLocked || !old(View()).HasCapacity(|body|) then Ok(false)
                       else if old(closed) then Err(ConnectionLost)
                       else if !old(lane.View()).HasCapacity(|body|) then Ok(false)
                       else if old(lane.closed) then Err(ConnectionLost)
                       else var i := FindPacket(old(history), body);
                            Ok(i.Some? && old(history)[i.value].pending == None
                               && ReplayDue(old(View()), old(history)[i.value], now)))
      ensures sent == Ok(true) ==>
                && View() == AdmitReplay(old(View()), FindPacket(old(history), body).value, task, now)
                && lane.View() == old(lane.View()).Reserve(|body|)
      ensures sent != Ok(true) ==> View() == old(View()) && lane.View() == old(lane.View())
    {
      hide ReplayDue, FindPacket;
      if sendLocked || !View().HasCapacity(|body|) {
        return Ok(false);
      }
      if closed {
        return Err(ConnectionLost);
      }
      var granted := lane.TryReserve(|body|);
      assert View() == old(View());
      if granted != Ok(true) {
        return granted;
      }
      var index := FindPacket(history, body);
      if index == None || history[index.value].pending.Some? || !ReplayDue(View(), history[index.value], now) {
        lane.Release(|body|);
        return Ok(false);
      }
      CommitReplay(index.value, task, now);
      return Ok(true);
    }

    method CommitReplay(index: nat, task: Task, now: int)
      requires index < |history|
      modifies `pending, `pendingBytes, `requests, `replayRequests, `replayPending, `history
      ensures View() == AdmitReplay(old(View()), index, task, now)
    {
      var packet := history[index];
      pendingBytes := pendingBytes + |packet.body|;
      requests := requests + 1;
      replayRequests := replayRequests + 1;
      pending := pending[task := |packet.body|];
      replayPending := replayPending + {task};
      packet := packet.(attempts := packet.attempts + 1);
      packet := packet.(lastAttemptAt := now);
      packet := packet.(pending := Some(task));
      history := history[index := packet];
    }

    /** `_capacity_candidate`: one pass over the uploads that finished. */
    method FindCandidate(now: int) returns (choice: Option<Task>)
      ensures CapacityCandidate(View(), now, choice)
    {
      choice := None;
      var left := sentSince.Keys;
      while left != {}
        invariant left <= sentSince.Keys
        invariant choice.Some? ==> choice.value in sentSince && Rotatable(View(), choice.value, now)
        invariant forall t :: t in sentSince && t !in left && Rotatable(View(), t, now) ==>
                    choice.Some? && RotatesNoLater(View(), choice.value, t)
        decreases left
      {
        var task :| task in left;
        left := left - {task};
        if Rotatable(View(), task, now) && (choice == None || !RotatesNoLater(View(), choice.value, task)) {
          choice := Some(task);
        }
      }
    }

    /** The part of `_make_upload_room` that touches the channel losing `task`. */
    method RotateOut(task: Task)
      modifies this
      ensures View() == Rotate(old(View()), task)
    {
      var owner := if task in replayPending then None else FindOriginal(history, task);
      sentSince := sentSince - {task};
      if owner.Some? {
        history := history[owner.value := history[owner.value].(retired := true)];
      }
    }

    /** The scan of `_recover` over the retained packets. */
    method ScanHistory(now: int) returns (plan: Plan)
      requires forall i, j :: 0 <= i < j < |history| ==> history[i].sequence < history[j].sequence
      ensures ScanDecides(View(), now, plan)
    {
      var best: Option<nat> := None;
      for k := 0 to |history|
        invariant best.Some? ==> best.value < k && Acceptable(View(), history[best.value], now)
        invariant forall i :: 0 <= i < k && Acceptable(View(), history[i], now) && best != Some(i) ==>
                    best.Some? && ScannedBefore(View(), history[best.value], history[i], now)
      {
        var acceptable := IsAcceptable(history[k], now);
        if acceptable {
          if best == None || ScannedBefore(View(), history[k], history[best.value], now) {
            best := Some(k);
          }
        }
      }
      if best == None {
        return Nothing;
      }
      var packet := history[best.value];
      if packet.pending.Some? {
        return ReplaceThenSend(best.value, packet.pending.value);
      }
      if |replayPending| < MAX_CHANNEL_REPLAYS {
        return SendAgain(best.value);
      }
      var victim := OldestIdleReplay();
      return ReplaceThenSend(best.value, victim.value);
    }

    /** `next(task for task in self.pending if …)` over the insertion order of `pending`. */
    method OldestIdleReplay() returns (oldest: Option<Task>)
      ensures oldest == None <==> IdleReplays(View()) == {}
      ensures oldest.Some? ==> oldest.value in IdleReplays(View())
                               && forall t :: t in IdleReplays(View()) ==> oldest.value <= t
    {
      oldest := None;
      var idle := IdleReplays(View());
      var left := idle;
      while left != {}
        invariant left <= idle
        invariant oldest == None <==> left == idle
        invariant oldest.Some? ==> oldest.value in idle && forall t :: t in idle && t !in left ==> oldest.value <= t
        decreases left
      {
        var task :| task in left;
        left := left - {task};
        if oldest == None || task < oldest.value {
          oldest := Some(task);
        }
        assert task !in left;
      }
    }

    method IsAcceptable(packet: Packet, now: int) returns (acceptable: bool)
      ensures acceptable <==> Acceptable(View(), packet, now)
    {
      if !ReplayDue(View(), packet, now) {
        return false;
      }
      if packet.pending.Some? {
        return SlotExpired(View(), packet.pending.value, now);
      }
      if |replayPending| < MAX_CHANNEL_REPLAYS {
        return true;
      }
      var oldest := OldestIdleReplay();
      return oldest.Some? && SlotExpired(View(), oldest.value, now);
    }

    /** What `_run_request` does with the reply `_post` returned. */
    method Complete(reply: Bytes, now: int)
      modifies this
      ensures View() == ChannelState.Complete(old(View()), reply, now)
    {
      lastProgress := now;
      if reply != [] && !closed {
        if |queue| >= MAX_QUEUED_REPLIES || replyBytes + |reply| > MAX_CHANNEL_BYTES {
          Fail(BufferExceeded);
          return;
        }
        replyBytes := replyBytes + |reply|;
        queue := queue + [Reply(reply)];
      }
    }

    /** The packet that `task` was sent for no longer counts on it. */
    method DetachTask(task: Task, packet: Option<nat>)
      modifies `history
      ensures history == Detach(old(history), task, packet)
    {
      var target := FinishTarget(history, task, packet);
      if target.Some? {
        history := history[target.value := history[target.value].Without(task)];
      }
    }

    /** `_finish_request`: the reservation goes back to the lane exactly when the task was pending. */
    method FinishRequest(task: Task, packet: Option<nat>)
      modifies `pending, `pendingBytes, `sentSince, `replayPending, `history, lane`inflight, lane`queuedBytes
      ensures View() == Finish(old(View()), task, packet)
      ensures lane.View() == if task in old(pending) then old(lane.View()).Release(old(pending)[task]) else old(lane.View())
    {
      hide Detach;
      if task !in pending {
        return;
      }
      var length := pending[task];
      pending := pending - {task};
      pendingBytes := pendingBytes - length;
      sentSince := sentSince - {task};
      replayPending := replayPending - {task};
      DetachTask(task, packet);
      assert View() == Finish(old(View()), task, packet);
      lane.Release(length);
    }

    /** `receive` once the queue has an item. */
    method Receive() returns (item: Item)
      requires queue != []
      modifies this
      ensures View() == ChannelState.Receive(old(View())) && item == old(queue)[0]
    {
      item := queue[0];
      queue := queue[1..];
      if item.Reply? {
        replyBytes := replyBytes - |item.body|;
      }
    }

    /** One turn of the sweep in `close`. */
    method SweepOne()
      requires pending != map[] && pendingBytes == Sum(pending)
      modifies `pending, `pendingBytes, `sentSince, `replayPending, `history, lane`inflight, lane`queuedBytes
      ensures |pending| == |old(pending)| - 1 && pendingBytes == Sum(pending)
      ensures lane.inflight - |pending| == old(lane.inflight - |pending|)
      ensures lane.queuedBytes - Sum(pending) == old(lane.queuedBytes - Sum(pending))
    {
      hide Finish, Sum;
      var task :| task in pending;
      SumRemove(pending, task);
      SizeRemove(pending, task);
      FinishTakesOut(View(), task);
      FinishRequest(task, None);
    }

    /** The end of `close`: tasks cancelled before their first step are finished here. */
    method SweepAndClear()
      requires pendingBytes == Sum(pending)
      modifies `pending, `pendingBytes, `sentSince, `replayPending, `history, `closeDone, lane`inflight, lane`queuedBytes
      ensures View() == Swept(old(View()).(pending := map[], pendingBytes := 0))
      ensures lane.inflight == old(lane.inflight) - |old(pending)|
      ensures lane.queuedBytes == old(lane.queuedBytes) - Sum(old(pending))
    {
      hide Sum, HistoryBytes;
      SumOfNothing<Task>();
      while pending != map[]
        invariant closeDone == old(closeDone)
        invariant pendingBytes == Sum(pending)
        invariant lane.inflight - |pending| == old(lane.inflight - |pending|)
        invariant lane.queuedBytes - Sum(pending) == old(lane.queuedBytes - Sum(pending))
        decreases |pending|
      {
        SweepOne();
      }
      replayPending := {};
      history := [];
      sentSince := map[];
      closeDone := true;
    }
  }

  lemma FinishTakesOut(ch: Channel, task: Task)
    requires task in ch.pending
    ensures Finish(ch, task, None).pending == ch.pending - {task}
    ensures Finish(ch, task, None).pendingBytes == ch.pendingBytes - ch.pending[task]
  {
    hide Detach;
  }
}
