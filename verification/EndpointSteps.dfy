/**
  Each step of one channel keeps its invariant.
  */
module EndpointSteps {
  import opened Common
  import opened ChannelState
  import opened ReplayHistory
  import opened Multiplex
  import opened EndpointInvariant

  // -------------------------------------------------- updates of the history

  /** `after` differs from `before` only in task sets and the retired mark. */
  predicate SameRecords(before: seq<Packet>, after: seq<Packet>) {
    && |before| == |after|
    && forall i :: 0 <= i < |before| ==> SameRecord(before[i], after[i])
  }

  predicate SameRecord(p: Packet, q: Packet) {
    && p.body == q.body && p.sequence == q.sequence && p.sentAt == q.sentAt
    && p.attempts == q.attempts && p.lastAttemptAt == q.lastAttemptAt
  }

  lemma {:induction false} SameRecordsMeasure(before: seq<Packet>, after: seq<Packet>)
    requires SameRecords(before, after)
    ensures HistoryBytes(before) == HistoryBytes(after) && AttemptsLeft(before) == AttemptsLeft(after)
  {
    if before != [] {
      var last := |before| - 1;
      assert SameRecord(before[last], after[last]);
      SameRecordsMeasure(before[..last], after[..last]);
    }
  }

  lemma SameRecordsKeep(before: seq<Packet>, after: seq<Packet>, key: Option<Bytes>, requests: nat)
    requires SameRecords(before, after) && HistoryOk(before, key, requests)
    ensures HistoryOk(after, key, requests) && AttemptsLeft(before) == AttemptsLeft(after)
  {
    SameRecordsMeasure(before, after);
    assert forall i :: 0 <= i < |after| ==> SameRecord(before[i], after[i]);
    SameRecordsOrder(before, after, key, requests);
  }

  lemma SameRecordsOrder(before: seq<Packet>, after: seq<Packet>, key: Option<Bytes>, requests: nat)
    requires |before| == |after|
    requires forall i :: 0 <= i < |before| ==> before[i].body == after[i].body && before[i].sequence == after[i].sequence
    requires WellOrdered(before, key, requests)
    ensures WellOrdered(after, key, requests)
  {
    forall i, j | 0 <= i < j < |after| ensures !SameBody(after[i], after[j]) {
      assert !SameBody(before[i], before[j]);
    }
    forall i | 0 <= i < |after| ensures UnderKey(after[i], key) {
      assert UnderKey(before[i], key);
    }
  }

  lemma SameRecordsRecorded(before: seq<Packet>, after: seq<Packet>, marks: seq<ReplayMark>, firstSent: map<nat, int>)
    requires SameRecords(before, after) && AllRecorded(before, marks, firstSent)
    ensures AllRecorded(after, marks, firstSent)
  {
    forall i | 0 <= i < |after| ensures Recorded(after[i], marks, firstSent) {
      assert SameRecord(before[i], after[i]) && Recorded(before[i], marks, firstSent);
    }
  }

  // ----------------------------------------------------------- finished task

  lemma DetachForgets(ep: Endpoint, t: Task, packet: Option<nat>)
    requires OwnersOk(ep.ch.history, ep.ch.pending, ep.ch.replayPending, ep.tasks)
    requires HistoryOk(ep.ch.history, ep.ch.replayKey, ep.ch.requests)
    requires t < |ep.tasks| && (packet == None || packet == ep.tasks[t].packet)
    ensures var after := Detach(ep.ch.history, t, packet);
            && SameRecords(ep.ch.history, after)
            && forall i :: 0 <= i < |after| ==>
                 && after[i].originals == ep.ch.history[i].originals - {t}
                 && after[i].pending == if ep.ch.history[i].pending == Some(t) then None else ep.ch.history[i].pending
  {
    var h := ep.ch.history;
    var target := FinishTarget(h, t, packet);
    forall i | 0 <= i < |h| && h[i].Owns(t)
      ensures target == Some(i)
    {
      assert ep.tasks[t].packet == Some(h[i].sequence);
      if target.Some? && h[target.value].Owns(t) {
        assert ep.tasks[t].packet == Some(h[target.value].sequence);
      }
    }
  }

  lemma FinishedTasksOk(ch: Channel, tasks: seq<Request>, closing: bool, t: Task)
    requires TasksOk(ch.pending, ch.sentSince, ch.receiving, tasks, closing) && t < |tasks|
    ensures TasksOk(ch.pending - {t}, ch.sentSince - {t}, ch.receiving - {t}, tasks[t := tasks[t].(phase := Over)], closing)
  {
    var after := tasks[t := tasks[t].(phase := Over)];
    assert Charged(ch.pending - {t}, after);
    assert Live(ch.pending - {t}, after, closing);
  }

  lemma FinishedOwners(ep: Endpoint, t: Task, packet: Option<nat>, after: seq<Request>)
    requires OwnersOk(ep.ch.history, ep.ch.pending, ep.ch.replayPending, ep.tasks)
    requires HistoryOk(ep.ch.history, ep.ch.replayKey, ep.ch.requests)
    requires t < |ep.tasks| && (packet == None || packet == ep.tasks[t].packet)
    requires after == ep.tasks[t := ep.tasks[t].(phase := Over)]
    ensures OwnersOk(Detach(ep.ch.history, t, packet), ep.ch.pending - {t}, ep.ch.replayPending - {t}, after)
  {
    hide Detach;
    DetachForgets(ep, t, packet);
    var h, pending := Detach(ep.ch.history, t, packet), ep.ch.pending - {t};
    forall i, u: Task | 0 <= i < |h|
      ensures u in h[i].originals <==> WorksFor(pending, after, u, h[i].sequence, false)
      ensures h[i].pending == Some(u) <==> WorksFor(pending, after, u, h[i].sequence, true)
    {
      assert SameRecord(ep.ch.history[i], h[i]);
      assert u in ep.ch.history[i].originals <==> WorksFor(ep.ch.pending, ep.tasks, u, ep.ch.history[i].sequence, false);
      assert ep.ch.history[i].pending == Some(u) <==> WorksFor(ep.ch.pending, ep.tasks, u, ep.ch.history[i].sequence, true);
    }
  }

  /** The endpoint once task `t` is over and `_finish_request` has removed it. */
  function Removed(ep: Endpoint, t: Task, packet: Option<nat>): Endpoint
    requires t < |ep.tasks|
  {
    FinishTask(ep.(ch := ep.ch.(receiving := ep.ch.receiving - {t}),
                   tasks := ep.tasks[t := ep.tasks[t].(phase := Over)]), t, packet)
  }

  lemma ShrinkingSets(a: set<Task>, t: Task, u: Task, bound: nat)
    requires |a| <= bound
    ensures |a - {t}| <= bound
    ensures |a - {u}| < bound ==> |a - {t} - {u}| < bound
    ensures t in a ==> |a - {t}| < bound
  {
    assert t !in a ==> a - {t} == a;
    assert a - {t} - {u} == a - {u} - {t};
    assert t !in a - {u} ==> a - {u} - {t} == a - {u};
  }

  lemma RemovedKeeps(ep: Endpoint, t: Task, packet: Option<nat>)
    requires Inv(ep) && t in ep.ch.pending && t < |ep.tasks|
    requires packet == None || packet == ep.tasks[t].packet
    ensures Inv(Removed(ep, t, packet))
    ensures t !in Removed(ep, t, packet).ch.pending
  {
    hide TasksOk, OwnersOk, HistoryOk, LogOk, AllRecorded, DeliveredInOrder, Detach, SameRecords, AttemptsLeft, Sum, QueuedBytes;
    var after := Removed(ep, t, packet);
    SumRemove(ep.ch.pending, t);
    SizeRemove(ep.ch.pending, t);
    FinishedTasksOk(ep.ch, ep.tasks, ep.closing, t);
    FinishedOwners(ep, t, packet, after.tasks);
    DetachForgets(ep, t, packet);
    SameRecordsKeep(ep.ch.history, after.ch.history, ep.ch.replayKey, ep.ch.requests);
    SameRecordsRecorded(ep.ch.history, after.ch.history, ep.journal.replays, ep.journal.firstSent);
    ShrinkingSets(ep.ch.replayPending, t, if ep.recovery.Replacing? then ep.recovery.task else t, MAX_CHANNEL_REPLAYS);
    assert ep.ch.pending[t] >= 0;
  }

  // --------------------------------------------------------------- delivery

  lemma {:induction false} QueuedBytesAppend(queue: seq<Item>, reply: Bytes)
    ensures QueuedBytes(queue + [Reply(reply)]) == QueuedBytes(queue) + |reply|
  {
    if queue != [] {
      assert (queue + [Reply(reply)])[1..] == queue[1..] + [Reply(reply)];
      QueuedBytesAppend(queue[1..], reply);
    }
  }

  /** A reply that is queued is the next one the receiver will see. */
  lemma CompletionKeepsOrder(completed: seq<Item>, delivered: seq<Item>, queue: seq<Item>, reply: Bytes)
    requires DeliveredInOrder(completed, delivered, None, queue, false)
    ensures DeliveredInOrder(completed + [Reply(reply)], delivered, None, queue + [Reply(reply)], false)
  {
    assert delivered + (queue + [Reply(reply)]) == (delivered + queue) + [Reply(reply)];
  }

  /** A failure drops what is queued and becomes the only thing left to see. */
  lemma FailureKeepsOrder(completed: seq<Item>, delivered: seq<Item>, queue: seq<Item>, error: Error)
    requires DeliveredInOrder(completed, delivered, None, queue, false)
    ensures DeliveredInOrder(completed, delivered, Some(error), [Failure(error)], true)
    ensures QueuedBytes([Failure(error)]) == 0
  {
    assert delivered <= delivered + queue;
    assert [Failure(error)][1..] == [];
  }

  /** What completes after the failure is never seen. */
  lemma LateReplyIsIgnored(
    completed: seq<Item>, delivered: seq<Item>, failure: Option<Error>, queue: seq<Item>, reply: Bytes)
    requires DeliveredInOrder(completed, delivered, failure, queue, true)
    ensures DeliveredInOrder(completed + [Reply(reply)], delivered, failure, queue, true)
  {
    if queue == [] {
      var seen :| seen <= completed && delivered == seen + [Failure(failure.value)];
      assert seen <= completed + [Reply(reply)];
    }
  }

  lemma OpenHasNotFailed(ep: Endpoint)
    requires Inv(ep) && !ep.ch.closed
    ensures ep.journal.failure == None
  {
  }

  lemma ClosedHasFailed(ep: Endpoint)
    requires Inv(ep) && ep.ch.closed
    ensures ep.journal.failure.Some?
  {
  }

  lemma TakingKeepsOrder(
    completed: seq<Item>, delivered: seq<Item>, failure: Option<Error>, queue: seq<Item>, closed: bool)
    requires DeliveredInOrder(completed, delivered, failure, queue, closed) && queue != []
    ensures DeliveredInOrder(completed, delivered + [queue[0]], failure, queue[1..], closed)
    ensures !closed ==> queue[0].Reply?
  {
    if closed {
      var error := Failure(failure.value);
      assert queue == [error] && delivered <= completed;
      assert delivered + [queue[0]] == delivered + [error];
    } else {
      assert (delivered + [queue[0]]) + queue[1..] == delivered + queue;
      assert queue[0] == completed[|delivered|];
    }
  }

  lemma TakeKeeps(ep: Endpoint)
    requires Inv(ep) && ep.ch.queue != []
    ensures Inv(Take(ep))
  {
    hide TasksOk, OwnersOk, HistoryOk, LogOk, AllRecorded, DeliveredInOrder, AttemptsLeft, Sum;
    TakingKeepsOrder(ep.journal.completed, ep.journal.delivered, ep.journal.failure, ep.ch.queue, ep.ch.closed);
  }

  lemma FailKeeps(ep: Endpoint, error: Error)
    requires Inv(ep)
    ensures Inv(Settle(ep, Failed(error), 0))
  {
    hide TasksOk, OwnersOk, HistoryOk, LogOk, AllRecorded, DeliveredInOrder, AttemptsLeft, Sum, QueuedBytes;
    if ep.ch.closed {
      ClosedHasFailed(ep);
    } else {
      OpenHasNotFailed(ep);
      FailureKeepsOrder(ep.journal.completed, ep.journal.delivered, ep.ch.queue, error);
    }
  }

  lemma SettleKeeps(ep: Endpoint, outcome: Outcome, now: int)
    requires Inv(ep)
    ensures Inv(Settle(ep, outcome, now))
  {
    hide TasksOk, OwnersOk, HistoryOk, LogOk, AllRecorded, DeliveredInOrder, AttemptsLeft, Sum, QueuedBytes;
    match outcome
    case Failed(error) =>
      FailKeeps(ep, error);
    case Unwound =>
    case Success(reply) =>
      if reply == [] {
      } else if ep.ch.closed {
        ClosedHasFailed(ep);
        LateReplyIsIgnored(ep.journal.completed, ep.journal.delivered, ep.journal.failure, ep.ch.queue, reply);
      } else {
        OpenHasNotFailed(ep);
        if |ep.ch.queue| >= MAX_QUEUED_REPLIES || ep.ch.replyBytes + |reply| > MAX_CHANNEL_BYTES {
          FailureKeepsOrder(ep.journal.completed, ep.journal.delivered, ep.ch.queue, BufferExceeded);
          LateReplyIsIgnored(
            ep.journal.completed, ep.journal.delivered, Some(BufferExceeded), [Failure(BufferExceeded)], reply);
        } else {
          CompletionKeepsOrder(ep.journal.completed, ep.journal.delivered, ep.ch.queue, reply);
          QueuedBytesAppend(ep.ch.queue, reply);
        }
      }
  }

  /** The `finally` of `_post` and the settling of the outcome do not depend on each other. */
  lemma EndIsSettleThenRemove(ep: Endpoint, t: Task, outcome: Outcome, now: int)
    requires t < |ep.tasks|
    ensures End(ep, t, outcome, now) == Removed(Settle(ep, outcome, now), t, ep.tasks[t].packet)
  {
    hide Finish;
  }

  lemma EndKeeps(ep: Endpoint, t: Task, outcome: Outcome, now: int)
    requires Inv(ep) && t in ep.ch.pending && t < |ep.tasks|
    ensures Inv(End(ep, t, outcome, now))
    ensures t !in End(ep, t, outcome, now).ch.pending
  {
    hide Inv, Removed;
    EndIsSettleThenRemove(ep, t, outcome, now);
    SettleKeeps(ep, outcome, now);
    RemovedKeeps(Settle(ep, outcome, now), t, ep.tasks[t].packet);
  }

  // ------------------------------------------------------------ quiet steps

  lemma UploadMarksTask(ch: Channel, tasks: seq<Request>, closing: bool, t: Task, now: int)
    requires TasksOk(ch.pending, ch.sentSince, ch.receiving, tasks, closing)
    requires t < |tasks| && tasks[t].phase == Posting && tasks[t].sent
    ensures TasksOk(ch.pending, ch.sentSince[t := now], ch.receiving, tasks, closing)
  {
  }

  lemma UploadedKeeps(ep: Endpoint, t: Task, now: int)
    requires Inv(ep) && Running(ep, t)
    ensures Inv(Uploaded(ep, t, now))
  {
    hide TasksOk, OwnersOk, HistoryOk, LogOk, AllRecorded, DeliveredInOrder, AttemptsLeft, Sum, QueuedBytes;
    var r := ep.tasks[t].(sent := true);
    ContentBounded(ep, t);
    MoveKeeps(ep, t, r);
    UploadMarksTask(ep.ch, ep.tasks[t := r], ep.closing, t, now);
  }

  lemma ResponseMarksTask(ch: Channel, tasks: seq<Request>, closing: bool, t: Task)
    requires TasksOk(ch.pending, ch.sentSince, ch.receiving, tasks, closing)
    requires t < |tasks| && tasks[t].phase == Posting
    ensures TasksOk(ch.pending, ch.sentSince, ch.receiving + {t}, tasks, closing)
  {
  }

  lemma ResponseStartedKeeps(ep: Endpoint, t: Task, now: int)
    requires Inv(ep) && InPhase(ep, t, Posting)
    ensures Inv(ResponseStarted(ep, t, now))
  {
    hide TasksOk, OwnersOk, HistoryOk, LogOk, AllRecorded, DeliveredInOrder, AttemptsLeft, Sum, QueuedBytes;
    ResponseMarksTask(ep.ch, ep.tasks, ep.closing, t);
  }

  lemma BeginKeeps(ep: Endpoint, t: Task)
    requires Inv(ep) && InPhase(ep, t, Created)
    ensures Inv(Begin(ep, t)) && ep.tasks[t].content == []
  {
    hide TasksOk, OwnersOk, HistoryOk, LogOk, AllRecorded, DeliveredInOrder, AttemptsLeft, Sum, QueuedBytes;
    CreatedTaskIsBlank(ep, t);
    MoveKeeps(ep, t, Begin(ep, t).tasks[t]);
  }

  lemma CreatedTaskIsBlank(ep: Endpoint, t: Task)
    requires Inv(ep) && InPhase(ep, t, Created)
    ensures !ep.tasks[t].sent && ep.tasks[t].content == [] && (ep.tasks[t].cancelled ==> ep.closing)
    ensures t !in ep.ch.sentSince && t !in ep.ch.receiving
  {
  }

  lemma FreshTaskIsNew(ep: Endpoint)
    requires Inv(ep)
    ensures |ep.tasks| !in ep.ch.pending
  {
  }

  lemma BufferKeeps(ep: Endpoint, t: Task, data: Bytes, now: int)
    requires Inv(ep) && Running(ep, t) && |ep.tasks[t].content| + |data| <= MAX_PACKET
    ensures Inv(Buffer(ep, t, data, now))
  {
    hide TasksOk, OwnersOk, HistoryOk, LogOk, AllRecorded, DeliveredInOrder, AttemptsLeft, Sum, QueuedBytes;
    MoveKeeps(ep, t, ep.tasks[t].(content := ep.tasks[t].content + data));
  }

  lemma CancelKeeps(ep: Endpoint, t: Task)
    requires Inv(ep) && InPhase(ep, t, Posting)
    ensures Inv(Cancel(ep, t))
  {
    hide TasksOk, OwnersOk, HistoryOk, LogOk, AllRecorded, DeliveredInOrder, AttemptsLeft, Sum, QueuedBytes;
    ContentBounded(ep, t);
    MoveKeeps(ep, t, ep.tasks[t].(cancelled := true));
  }

  lemma ContentBounded(ep: Endpoint, t: Task)
    requires Inv(ep) && t < |ep.tasks|
    ensures |ep.tasks[t].content| <= MAX_PACKET
  {
    assert Shaped(ep.tasks, ep.closing);
  }

  // --------------------------------------------------------------- rotation

  lemma RetiringKeepsOwners(ep: Endpoint, after: seq<Packet>)
    requires OwnersOk(ep.ch.history, ep.ch.pending, ep.ch.replayPending, ep.tasks)
    requires SameRecords(ep.ch.history, after)
    requires forall i :: 0 <= i < |after| ==>
               after[i].originals == ep.ch.history[i].originals && after[i].pending == ep.ch.history[i].pending
    ensures OwnersOk(after, ep.ch.pending, ep.ch.replayPending, ep.tasks)
  {
    forall i | 0 <= i < |after| ensures after[i].sequence == ep.ch.history[i].sequence {
      assert SameRecord(ep.ch.history[i], after[i]);
    }
  }

  lemma FewerUploads(ch: Channel, tasks: seq<Request>, closing: bool, t: Task)
    requires TasksOk(ch.pending, ch.sentSince, ch.receiving, tasks, closing)
    ensures TasksOk(ch.pending, ch.sentSince - {t}, ch.receiving, tasks, closing)
  {
  }

  lemma RotateRetires(ch: Channel, t: Task)
    ensures var after := Rotate(ch, t);
            && after == ch.(sentSince := ch.sentSince - {t}, history := after.history)
            && SameRecords(ch.history, after.history)
            && forall i :: 0 <= i < |after.history| ==>
                 && after.history[i].originals == ch.history[i].originals
                 && after.history[i].pending == ch.history[i].pending
  {
    hide FindOriginal;
  }

  lemma RotateKeeps(ep: Endpoint, t: Task)
    requires Inv(ep)
    ensures Inv(ep.(ch := Rotate(ep.ch, t)))
  {
    hide TasksOk, OwnersOk, HistoryOk, LogOk, AllRecorded, DeliveredInOrder, AttemptsLeft, Sum, QueuedBytes, Rotate, SameRecords;
    var after := Rotate(ep.ch, t).history;
    RotateRetires(ep.ch, t);
    FewerUploads(ep.ch, ep.tasks, ep.closing, t);
    RetiringKeepsOwners(ep, after);
    SameRecordsKeep(ep.ch.history, after, ep.ch.replayKey, ep.ch.requests);
    SameRecordsRecorded(ep.ch.history, after, ep.journal.replays, ep.journal.firstSent);
  }

  lemma RotateOutKeeps(ep: Endpoint, t: Task)
    requires Inv(ep) && InPhase(ep, t, Posting)
    ensures Inv(RotateOut(ep, t))
  {
    hide Inv, Rotate;
    RotateKeeps(ep, t);
    CancelKeeps(ep.(ch := Rotate(ep.ch, t)), t);
  }

  // ------------------------------------------------------------------ close

  lemma CancellingAllTasks(ch: Channel, tasks: seq<Request>, closing: bool, after: seq<Request>)
    requires TasksOk(ch.pending, ch.sentSince, ch.receiving, tasks, closing)
    requires |after| == |tasks|
    requires forall i :: 0 <= i < |tasks| ==>
               after[i] == if i in ch.pending then tasks[i].(cancelled := true) else tasks[i]
    ensures TasksOk(ch.pending, ch.sentSince, ch.receiving, after, true)
  {
    assert Charged(ch.pending, after);
    assert Live(ch.pending, after, true);
  }

  lemma CancellingKeepsOwners(ep: Endpoint, after: seq<Request>)
    requires OwnersOk(ep.ch.history, ep.ch.pending, ep.ch.replayPending, ep.tasks)
    requires |after| == |ep.tasks|
    requires forall i :: 0 <= i < |after| ==> after[i] == ep.tasks[i] || after[i] == ep.tasks[i].(cancelled := true)
    ensures OwnersOk(ep.ch.history, ep.ch.pending, ep.ch.replayPending, after)
  {
    assert ReplaysMarked(ep.ch.pending, ep.ch.replayPending, after);
  }

  lemma BeginCloseKeeps(ep: Endpoint)
    requires Inv(ep)
    ensures Inv(BeginClose(ep))
  {
    hide TasksOk, OwnersOk, HistoryOk, LogOk, AllRecorded, DeliveredInOrder, AttemptsLeft, Sum, QueuedBytes;
    var after := BeginClose(ep);
    FailKeeps(ep, ConnectionLost);
    CancellingAllTasks(ep.ch, ep.tasks, ep.closing, after.tasks);
    CancellingKeepsOwners(ep, after.tasks);
  }

  lemma NothingPending(ep: Endpoint)
    requires Inv(ep) && ep.closing && ep.ch.pending == map[]
    ensures ep.ch.sentSince == map[] && ep.ch.receiving == {} && ep.ch.replayPending == {} && ep.ch.pendingBytes == 0
  {
    assert forall t :: t in ep.ch.sentSince ==> t in ep.ch.pending;
    assert ep.ch.sentSince.Keys == {};
  }

  /** The final clearing of `close` finds everything but the history empty already. */
  lemma SweptKeeps(ep: Endpoint)
    requires Inv(ep) && ep.closing && ep.ch.pending == map[]
    ensures Inv(ep.(ch := Swept(ep.ch)))
  {
    hide TasksOk, LogOk, DeliveredInOrder, Sum, QueuedBytes;
    NothingPending(ep);
    AttemptsLeftNonNegative(ep.ch.history);
    assert HistoryBytes([]) == 0;
  }

  // -------------------------------------------------------------- native send

  lemma NewTaskOk(ch: Channel, tasks: seq<Request>, closing: bool, r: Request)
    requires TasksOk(ch.pending, ch.sentSince, ch.receiving, tasks, closing)
    requires r.phase == Created && !r.sent && !r.cancelled && r.content == []
    requires !closing && (r.replay ==> Key(r.body) != ZERO_KEY)
    ensures TasksOk(ch.pending[|tasks| := |r.body|], ch.sentSince, ch.receiving, tasks + [r], closing)
    ensures |tasks| !in ch.pending
  {
    assert Charged(ch.pending[|tasks| := |r.body|], tasks + [r]);
    assert Live(ch.pending[|tasks| := |r.body|], tasks + [r], closing);
  }

  lemma SelectionKeeps(
    before: seq<Packet>, after: seq<Packet>, ep: Endpoint, marks: seq<ReplayMark>, firstSent: map<nat, int>)
    requires forall p :: p in after ==> p in before
    requires Owned(before, ep.ch.pending, ep.tasks) && AllRecorded(before, marks, firstSent) && AttemptsBounded(before)
    ensures Owned(after, ep.ch.pending, ep.tasks) && AllRecorded(after, marks, firstSent) && AttemptsBounded(after)
  {
    forall i | 0 <= i < |after|
      ensures exists k :: 0 <= k < |before| && before[k] == after[i]
    {
      assert after[i] in before;
    }
  }

  lemma {:induction false} NoMarksAhead(marks: seq<ReplayMark>, firstSent: map<nat, int>, requests: nat, q: nat)
    requires InTime(marks, firstSent) && Numbered(firstSent, requests) && q > requests
    ensures Count(marks, q) == 0
  {
    if marks != [] {
      NoMarksAhead(marks[..|marks| - 1], firstSent, requests, q);
    }
  }

  lemma LogGrows(marks: seq<ReplayMark>, firstSent: map<nat, int>, requests: nat, now: int)
    requires LogOk(marks, firstSent, requests)
    ensures LogOk(marks, firstSent, requests + 1)
    ensures LogOk(marks, firstSent[requests + 1 := now], requests + 1)
  {
    hide Rationed, Spaced;
  }

  lemma RecordsGrow(history: seq<Packet>, marks: seq<ReplayMark>, firstSent: map<nat, int>, requests: nat, now: int)
    requires AllRecorded(history, marks, firstSent) && Numbered(firstSent, requests)
    ensures AllRecorded(history, marks, firstSent[requests + 1 := now])
  {
    forall i | 0 <= i < |history| ensures Recorded(history[i], marks, firstSent[requests + 1 := now]) {
      assert Recorded(history[i], marks, firstSent);
    }
  }

  lemma SequencesAreNumbered(history: seq<Packet>, key: Option<Bytes>, requests: nat)
    requires HistoryOk(history, key, requests)
    ensures forall i :: 0 <= i < |history| ==> history[i].sequence <= requests
    ensures AttemptsLeft(history) >= 0 && AttemptsBounded(history)
  {
    AttemptsLeftNonNegative(history);
  }

  lemma FreshPacketIsNoted(ep: Endpoint, body: Bytes, now: int)
    requires HistoryOk(ep.ch.history, ep.ch.replayKey, ep.ch.requests)
    ensures SendNative(ep, body, now).journal.firstSent ==
            if MemoryOf(ep.ch, body).Added? then ep.journal.firstSent[ep.ch.requests + 1 := now] else ep.journal.firstSent
  {
    hide Remember, MemoryOf, HistoryOk, AdmitNative;
    RememberAddsAtMostOne(ep.ch, body, now);
    SequencesAreNumbered(ep.ch.history, ep.ch.replayKey, ep.ch.requests);
    var r := Remember(ep.ch.(requests := ep.ch.requests + 1), body, now);
    assert r.1.Some? ==> NativePacket(ep.ch, body, now) == Some(r.0.history[r.1.value].sequence);
    match MemoryOf(ep.ch, body)
    case Added(kept) => assert r.0.history[|kept|] == FreshPacket(ep.ch, body, now);
    case _ =>
  }

  lemma FreshPacketRecorded(
    kept: seq<Packet>, packet: Packet, marks: seq<ReplayMark>, firstSent: map<nat, int>, requests: nat)
    requires AllRecorded(kept, marks, firstSent) && LogOk(marks, firstSent, requests)
    requires packet.sequence == requests + 1 && packet.attempts == 0
    ensures AllRecorded(kept + [packet], marks, firstSent[requests + 1 := packet.sentAt])
  {
    RecordsGrow(kept, marks, firstSent, requests, packet.sentAt);
    NoMarksAhead(marks, firstSent, requests, packet.sequence);
    assert Recorded(packet, marks, firstSent[requests + 1 := packet.sentAt]);
  }

  lemma FreshPacketOwned(kept: seq<Packet>, packet: Packet, pending: map<Task, nat>, tasks: seq<Request>)
    requires Owned(kept, pending, tasks) && packet.originals == {} && packet.pending == None
    requires packet.sequence > 0 && Issued(tasks, packet.sequence - 1)
    ensures Owned(kept + [packet], pending, tasks)
  {
  }

  lemma FreshPacketBounded(kept: seq<Packet>, packet: Packet)
    requires AttemptsBounded(kept) && packet.attempts == 0
    ensures AttemptsBounded(kept + [packet])
    ensures AttemptsLeft(kept + [packet]) == AttemptsLeft(kept) + REPLAY_MAX_ATTEMPTS
  {
    MeasuresAfterAppend(kept, packet);
  }

  /** The packets `_send` remembers are owned, recorded and short of three attempts like the ones before. */
  lemma RememberedPackets(ep: Endpoint, body: Bytes, now: int)
    requires Owned(ep.ch.history, ep.ch.pending, ep.tasks) && Issued(ep.tasks, ep.ch.requests)
    requires HistoryOk(ep.ch.history, ep.ch.replayKey, ep.ch.requests)
    requires AllRecorded(ep.ch.history, ep.journal.replays, ep.journal.firstSent)
    requires LogOk(ep.journal.replays, ep.journal.firstSent, ep.ch.requests)
    ensures var h := Remember(ep.ch.(requests := ep.ch.requests + 1), body, now).0.history;
            && Owned(h, ep.ch.pending, ep.tasks)
            && AllRecorded(h, ep.journal.replays, SendNative(ep, body, now).journal.firstSent)
            && AttemptsBounded(h)
            && AttemptsLeft(h) <= AttemptsLeft(ep.ch.history) + REPLAY_MAX_ATTEMPTS
  {
    hide Remember, MemoryOf, SendNative, HistoryOk, LogOk, AllRecorded, Owned, Issued, AttemptsBounded;
    FreshPacketIsNoted(ep, body, now);
    RememberAddsAtMostOne(ep.ch, body, now);
    SequencesAreNumbered(ep.ch.history, ep.ch.replayKey, ep.ch.requests);
    EmptyHistoryIsOk(ep.ch.pending, ep.tasks, ep.journal.replays, ep.journal.firstSent);
    match MemoryOf(ep.ch, body)
    case Added(kept) =>
      var packet := FreshPacket(ep.ch, body, now);
      FreshPacketRecorded(kept, packet, ep.journal.replays, ep.journal.firstSent, ep.ch.requests);
      FreshPacketOwned(kept, packet, ep.ch.pending, ep.tasks);
      FreshPacketBounded(kept, packet);
    case _ =>
  }

  lemma EmptyHistoryIsOk(pending: map<Task, nat>, tasks: seq<Request>, marks: seq<ReplayMark>, firstSent: map<nat, int>)
    ensures Owned([], pending, tasks) && AllRecorded([], marks, firstSent) && AttemptsBounded([])
  {
  }

  /** A new task may join the pending ones; as an original only of the packet it was created for. */
  lemma NewOriginalIsOwned(h: seq<Packet>, i: Option<nat>, pending: map<Task, nat>, tasks: seq<Request>, r: Request)
    requires Owned(h, pending, tasks) && |tasks| !in pending
    requires forall j, k :: 0 <= j < k < |h| ==> h[j].sequence < h[k].sequence
    requires i.Some? ==> i.value < |h| && r.packet == Some(h[i.value].sequence) && !r.replay
    requires i.None? ==> r.packet == None
    ensures var after := if i.Some? then MarkOriginal(h, i.value, |tasks|) else h;
            Owned(after, pending[|tasks| := |r.body|], tasks + [r])
  {
  }

  lemma OrderedBySequence(h: seq<Packet>, key: Option<Bytes>, newest: nat)
    requires WellOrdered(h, key, newest)
    ensures forall j, k :: 0 <= j < k < |h| ==> h[j].sequence < h[k].sequence
  {
  }

  lemma OrderedWithinHistory(h: seq<Packet>, key: Option<Bytes>, newest: nat)
    requires HistoryOk(h, key, newest)
    ensures forall j, k :: 0 <= j < k < |h| ==> h[j].sequence < h[k].sequence
    ensures forall j :: 0 <= j < |h| ==> h[j].sequence <= newest
  {
    hide OverBudget, AttemptsBounded;
  }

  lemma MarkedRecords(h: seq<Packet>, i: nat, t: Task)
    requires i < |h|
    ensures SameRecords(h, MarkOriginal(h, i, t))
  {
  }

  /** History, owners, records and attempts after the await-free tail of a native send. */
  lemma NativeHistory(ep: Endpoint, body: Bytes, now: int)
    requires Owned(ep.ch.history, ep.ch.pending, ep.tasks) && Issued(ep.tasks, ep.ch.requests)
    requires |ep.tasks| !in ep.ch.pending
    requires HistoryOk(ep.ch.history, ep.ch.replayKey, ep.ch.requests)
    requires AllRecorded(ep.ch.history, ep.journal.replays, ep.journal.firstSent)
    requires LogOk(ep.journal.replays, ep.journal.firstSent, ep.ch.requests)
    ensures var after := SendNative(ep, body, now);
            && HistoryOk(after.ch.history, after.ch.replayKey, after.ch.requests)
            && Owned(after.ch.history, after.ch.pending, after.tasks)
            && AllRecorded(after.ch.history, ep.journal.replays, after.journal.firstSent)
            && AttemptsLeft(after.ch.history) <= AttemptsLeft(ep.ch.history) + REPLAY_MAX_ATTEMPTS
  {
    hide Remember, MemoryOf, WellOrdered, AllRecorded, Owned, AttemptsBounded, AttemptsLeft, Trim, OverBudget, LogOk;
    var after := SendNative(ep, body, now);
    var r := Remember(ep.ch.(requests := ep.ch.requests + 1), body, now);
    var h := r.0.history;
    RememberedPackets(ep, body, now);
    RememberKeepsOrder(ep.ch, body, now);
    if r.1 == None {
      RememberAddsAtMostOne(ep.ch, body, now);
      RememberFits(ep.ch, body, now);
    }
    OrderedBySequence(h, r.0.replayKey, ep.ch.requests + 1);
    NewOriginalIsOwned(h, r.1, ep.ch.pending, ep.tasks, after.tasks[|ep.tasks|]);
    if r.1.Some? {
      var marked := MarkOriginal(h, r.1.value, |ep.tasks|);
      NativeTrim(ep, h, r.1.value, now, r.0.replayKey, ep.ch.requests + 1, after.journal.firstSent);
      SelectionKeeps(marked, Trim(marked, now), after, ep.journal.replays, after.journal.firstSent);
    }
  }

  lemma NativeTrim(
    ep: Endpoint, h: seq<Packet>, i: nat, now: int, key: Option<Bytes>, requests: nat, firstSent: map<nat, int>)
    requires i < |h| && WellOrdered(h, key, requests) && AttemptsBounded(h)
    requires AllRecorded(h, ep.journal.replays, firstSent)
    ensures var marked := MarkOriginal(h, i, |ep.tasks|);
            && AttemptsBounded(marked) && AllRecorded(marked, ep.journal.replays, firstSent)
            && WellOrdered(Trim(marked, now), key, requests) && !OverBudget(Trim(marked, now))
            && (forall p :: p in Trim(marked, now) ==> p in marked)
            && AttemptsLeft(Trim(marked, now)) <= AttemptsLeft(h)
  {
    var marked := MarkOriginal(h, i, |ep.tasks|);
    MarkedRecords(h, i, |ep.tasks|);
    SameRecordsRecorded(h, marked, ep.journal.replays, firstSent);
    SameRecordsMeasure(h, marked);
    assert forall k :: 0 <= k < |h| ==> SameRecord(h[k], marked[k]);
    SameRecordsOrder(h, marked, key, requests);
    TrimKeeps(marked, now, key, requests);
  }

  lemma NativePacketIsIssued(ep: Endpoint, body: Bytes, now: int)
    requires HistoryOk(ep.ch.history, ep.ch.replayKey, ep.ch.requests)
    ensures var packet := NativePacket(ep.ch, body, now); packet.Some? ==> packet.value <= ep.ch.requests + 1
  {
    hide Remember, OverBudget, AttemptsBounded;
    RememberKeepsOrder(ep.ch, body, now);
  }

  lemma NewTaskMarked(ch: Channel, tasks: seq<Request>, r: Request)
    requires ReplaysMarked(ch.pending, ch.replayPending, tasks) && |tasks| !in ch.pending
    ensures var replays := if r.replay then ch.replayPending + {|tasks|} else ch.replayPending;
            ReplaysMarked(ch.pending[|tasks| := |r.body|], replays, tasks + [r])
  {
  }

  lemma AdmitNativeFrame(ch: Channel, body: Bytes, task: Task, now: int)
    ensures var after := AdmitNative(ch, body, task, now);
            after == ch.(pending := ch.pending[task := |body|], pendingBytes := ch.pendingBytes + |body|,
                         requests := ch.requests + 1, history := after.history, replayKey := after.replayKey)
  {
    hide Recall, Trim, MarkOriginal;
  }

  /** A native packet admitted under `send_lock` with room on the channel. */
  lemma SendNativeKeeps(ep: Endpoint, body: Bytes, now: int)
    requires Inv(ep) && !ep.ch.closed && ep.ch.HasCapacity(|body|) && ep.upload == NoUpload
    ensures Inv(SendNative(ep, body, now))
  {
    hide TasksOk, OwnersOk, HistoryOk, LogOk, AllRecorded, DeliveredInOrder, AttemptsLeft, Sum, QueuedBytes,
      AdmitNative, NativePacket,
      OverBudget;
    var after := SendNative(ep, body, now);
    AdmitNativeFrame(ep.ch, body, |ep.tasks|, now);
    NewTaskOk(ep.ch, ep.tasks, ep.closing, after.tasks[|ep.tasks|]);
    SumInsert<Task>(ep.ch.pending, |ep.tasks|, |body|);
    NativeOwners(ep, body, now);
    LogGrows(ep.journal.replays, ep.journal.firstSent, ep.ch.requests, now);
  }

  lemma NativeOwners(ep: Endpoint, body: Bytes, now: int)
    requires OwnersOk(ep.ch.history, ep.ch.pending, ep.ch.replayPending, ep.tasks) && Issued(ep.tasks, ep.ch.requests)
    requires |ep.tasks| !in ep.ch.pending
    requires HistoryOk(ep.ch.history, ep.ch.replayKey, ep.ch.requests)
    requires AllRecorded(ep.ch.history, ep.journal.replays, ep.journal.firstSent)
    requires LogOk(ep.journal.replays, ep.journal.firstSent, ep.ch.requests)
    ensures var after := SendNative(ep, body, now);
            && OwnersOk(after.ch.history, after.ch.pending, after.ch.replayPending, after.tasks)
            && HistoryOk(after.ch.history, after.ch.replayKey, after.ch.requests)
            && AllRecorded(after.ch.history, after.journal.replays, after.journal.firstSent)
            && AttemptsLeft(after.ch.history) <= AttemptsLeft(ep.ch.history) + REPLAY_MAX_ATTEMPTS
            && Issued(after.tasks, after.ch.requests)
  {
    hide Owned, ReplaysMarked, HistoryOk, AllRecorded, LogOk, Remember, NativePacket, Trim;
    NativeHistory(ep, body, now);
    NativePacketIsIssued(ep, body, now);
    NewTaskMarked(ep.ch, ep.tasks, SendNative(ep, body, now).tasks[|ep.tasks|]);
  }

  // ------------------------------------------------------------- replay send

  lemma {:induction false} MarkIsCounted(marks: seq<ReplayMark>, k: nat)
    requires k < |marks|
    ensures Count(marks, marks[k].sequence) > 0
  {
    if k < |marks| - 1 {
      MarkIsCounted(marks[..|marks| - 1], k);
    }
  }

  /** A replay due now obeys the three replay rules. */
  lemma DueReplayObeysRules(p: Packet, marks: seq<ReplayMark>, firstSent: map<nat, int>, requests: nat, now: int)
    requires LogOk(marks, firstSent, requests) && Recorded(p, marks, firstSent)
    requires 0 <= now - p.sentAt <= REPLAY_MAX_AGE_MS && p.attempts < REPLAY_MAX_ATTEMPTS
    requires p.Replayed() ==> now - p.lastAttemptAt >= REPLAY_RETRY_MS
    ensures LogOk(marks + [ReplayMark(p.sequence, now)], firstSent, requests + 1)
    ensures Recorded(p.(attempts := p.attempts + 1, lastAttemptAt := now), marks + [ReplayMark(p.sequence, now)], firstSent)
  {
    var mark := ReplayMark(p.sequence, now);
    var after := marks + [mark];
    forall k | 0 <= k < |marks| && marks[k].sequence == p.sequence
      ensures now - marks[k].at >= REPLAY_RETRY_MS
    {
      MarkIsCounted(marks, k);
    }
    forall q ensures Count(after, q) == Count(marks, q) + if q == p.sequence then 1 else 0 {
      CountAppend(marks, mark, q);
    }
    assert Spaced(after);
    assert InTime(after, firstSent);
  }

  lemma CountAppend(marks: seq<ReplayMark>, mark: ReplayMark, q: nat)
    ensures Count(marks + [mark], q) == Count(marks, q) + if q == mark.sequence then 1 else 0
  {
    assert (marks + [mark])[..|marks|] == marks;
  }

  lemma ReplayRecorded(h: seq<Packet>, i: nat, key: Option<Bytes>, after: seq<Packet>, marks: seq<ReplayMark>,
                       firstSent: map<nat, int>, requests: nat, now: int)
    requires i < |h| && AllRecorded(h, marks, firstSent) && HistoryOk(h, key, requests)
    requires |after| == |h|
    requires forall j :: 0 <= j < |h| && j != i ==> after[j] == h[j]
    requires after[i].sequence == h[i].sequence
    requires Recorded(after[i], marks + [ReplayMark(h[i].sequence, now)], firstSent)
    ensures AllRecorded(after, marks + [ReplayMark(h[i].sequence, now)], firstSent)
  {
    hide OverBudget, AttemptsBounded;
    forall j | 0 <= j < |after|
      ensures Recorded(after[j], marks + [ReplayMark(h[i].sequence, now)], firstSent)
    {
      if j != i {
        assert Recorded(h[j], marks, firstSent);
        CountAppend(marks, ReplayMark(h[i].sequence, now), h[j].sequence);
      }
    }
  }

  lemma ReplayHistoryOk(h: seq<Packet>, i: nat, key: Option<Bytes>, requests: nat, packet: Packet)
    requires i < |h| && HistoryOk(h, key, requests)
    requires packet.body == h[i].body && packet.sequence == h[i].sequence
    requires packet.attempts == h[i].attempts + 1 && packet.attempts <= REPLAY_MAX_ATTEMPTS
    ensures HistoryOk(h[i := packet], key, requests + 1)
    ensures AttemptsLeft(h[i := packet]) == AttemptsLeft(h) - 1
  {
    MeasuresAfterUpdate(h, i, packet);
    SameRecordsOrder(h, h[i := packet], key, requests);
    NewerIsWellOrdered(h[i := packet], key, requests, requests + 1);
  }

  lemma ReplayOwned(h: seq<Packet>, i: nat, pending: map<Task, nat>, tasks: seq<Request>, r: Request, packet: Packet)
    requires i < |h| && Owned(h, pending, tasks) && |tasks| !in pending
    requires packet.sequence == h[i].sequence && packet.originals == h[i].originals && packet.pending == Some(|tasks|)
    requires r.replay && r.packet == Some(h[i].sequence) && h[i].pending == None
    requires forall j, k :: 0 <= j < k < |h| ==> h[j].sequence < h[k].sequence
    ensures Owned(h[i := packet], pending[|tasks| := |r.body|], tasks + [r])
  {
  }

  /** What `_replay_blocker` guarantees when it does not object. */
  lemma DueMeansInTime(ch: Channel, p: Packet, now: int)
    requires ReplayDue(ch, p, now)
    ensures 0 <= now - p.sentAt <= REPLAY_MAX_AGE_MS && p.attempts < REPLAY_MAX_ATTEMPTS
    ensures p.Replayed() ==> now - p.lastAttemptAt >= REPLAY_RETRY_MS
    ensures !ch.NativeBackpressure() && p.originals * ch.receiving == {}
  {

  }

  /** A replay admitted by `_send`, with a free replay slot and room on the channel. */
  lemma SendReplayKeeps(ep: Endpoint, i: nat, now: int)
    requires Inv(ep) && i < |ep.ch.history| && ep.ch.HasCapacity(|ep.ch.history[i].body|)
    requires !ep.ch.closed && ep.upload == NoUpload && ep.recovery == Watching
    requires |ep.ch.replayPending| < MAX_CHANNEL_REPLAYS
    requires ep.ch.history[i].pending == None && ReplayDue(ep.ch, ep.ch.history[i], now)
    ensures Inv(SendReplay(ep, i, now))
  {
    hide TasksOk, HistoryOk, LogOk, AllRecorded, DeliveredInOrder, AttemptsLeft, Sum, QueuedBytes,
      ReplayDue, ReplaysMarked, Owned, Recorded,
      UnderKey, Key, OverBudget;
    var after := SendReplay(ep, i, now);
    var t, packet := |ep.tasks|, ep.ch.history[i];
    DueMeansInTime(ep.ch, packet, now);
    RetainedIsEncrypted(ep, i);
    NewTaskOk(ep.ch, ep.tasks, ep.closing, after.tasks[t]);
    SumInsert<Task>(ep.ch.pending, t, |packet.body|);
    NewTaskMarked(ep.ch, ep.tasks, after.tasks[t]);
    OrderedWithinHistory(ep.ch.history, ep.ch.replayKey, ep.ch.requests);
    ReplayOwned(ep.ch.history, i, ep.ch.pending, ep.tasks, after.tasks[t], after.ch.history[i]);
    ReplayHistoryOk(ep.ch.history, i, ep.ch.replayKey, ep.ch.requests, after.ch.history[i]);
    RecordedAt(ep.ch.history, i, ep.journal);
    DueReplayObeysRules(packet, ep.journal.replays, ep.journal.firstSent, ep.ch.requests, now);
    RecordedIgnoresTasks(packet.(attempts := packet.attempts + 1, lastAttemptAt := now), after.ch.history[i], after.journal);
    ReplayRecorded(ep.ch.history, i, ep.ch.replayKey, after.ch.history, ep.journal.replays, ep.journal.firstSent,
                   ep.ch.requests, now);
  }

  lemma RetainedIsEncrypted(ep: Endpoint, i: nat)
    requires Inv(ep) && i < |ep.ch.history|
    ensures UnderKey(ep.ch.history[i], ep.ch.replayKey)
    ensures Key(ep.ch.history[i].body) != ZERO_KEY
  {
    hide Key;
  }

  lemma RecordedAt(h: seq<Packet>, i: nat, journal: Journal)
    requires i < |h| && AllRecorded(h, journal.replays, journal.firstSent)
    ensures Recorded(h[i], journal.replays, journal.firstSent)
  {
  }

  lemma RecordedIgnoresTasks(p: Packet, q: Packet, journal: Journal)
    requires SameRecord(p, q) && Recorded(p, journal.replays, journal.firstSent)
    ensures Recorded(q, journal.replays, journal.firstSent)
  {
  }
}
