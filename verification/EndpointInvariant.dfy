/**
  What every step keeps of one channel, its request tasks and its two senders.
  */
module EndpointInvariant {
  import opened Common
  import opened ChannelState
  import opened ReplayHistory
  import opened Multiplex

  // ------------------------------------------------------------------ tasks

  /** `pending` charges every task with the length of its body. */
  ghost predicate Charged(pending: map<Task, nat>, tasks: seq<Request>) {
    forall t :: t in pending ==> t < |tasks| && pending[t] == |tasks[t].body|
  }

  /** Exactly the unfinished tasks are pending; close may leave ones that never ran. */
  ghost predicate Live(pending: map<Task, nat>, tasks: seq<Request>, closing: bool) {
    && (forall t :: 0 <= t < |tasks| && tasks[t].phase != Over ==> t in pending)
    && (forall t :: t in pending ==> t < |tasks| && (tasks[t].phase == Over ==> closing && !tasks[t].sent))
  }

  /** Only a task inside `_post` that uploaded its body has an upload time. */
  ghost predicate SentBy(sentSince: map<Task, int>, tasks: seq<Request>) {
    forall t :: t in sentSince ==> t < |tasks| && tasks[t].phase == Posting && tasks[t].sent
  }

  /** Only a task inside `_post` is receiving. */
  ghost predicate ReceivedBy(receiving: set<Task>, tasks: seq<Request>) {
    forall t :: t in receiving ==> t < |tasks| && tasks[t].phase == Posting
  }

  /**
    A task that has not run holds nothing; one cancelled before it ran belongs
    to a closing channel; only encrypted packets are ever replayed; and a closing
    channel has cancelled every task that is not over.
    */
  ghost predicate Shaped(tasks: seq<Request>, closing: bool) {
    forall t :: 0 <= t < |tasks| ==>
      && |tasks[t].content| <= MAX_PACKET
      && (tasks[t].phase == Created ==> !tasks[t].sent && tasks[t].content == [] && (tasks[t].cancelled ==> closing))
      && (tasks[t].replay ==> Key(tasks[t].body) != ZERO_KEY)
      && (closing && tasks[t].phase != Over ==> tasks[t].cancelled)
  }

  // -------------------------------------------------------------- ownership

  /** The pending replays are exactly the pending tasks created as replays. */
  ghost predicate ReplaysMarked(pending: map<Task, nat>, replayPending: set<Task>, tasks: seq<Request>) {
    && (forall t :: t in replayPending ==> t in pending)
    && (forall t :: t in pending && t < |tasks| ==> (tasks[t].replay <==> t in replayPending))
  }

  /** `task` is pending and was sent for the packet, as a replay or as an original. */
  predicate WorksFor(pending: map<Task, nat>, tasks: seq<Request>, task: Task, sequence: nat, replay: bool) {
    task in pending && task < |tasks| && tasks[task].packet == Some(sequence) && tasks[task].replay == replay
  }

  /** A retained packet names exactly the pending tasks that were sent for it, each in its role. */
  ghost predicate Owned(history: seq<Packet>, pending: map<Task, nat>, tasks: seq<Request>) {
    && (forall i, t: Task :: 0 <= i < |history| ==>
          (t in history[i].originals <==> WorksFor(pending, tasks, t, history[i].sequence, false)))
    && (forall i, t: Task :: 0 <= i < |history| ==>
          (history[i].pending == Some(t) <==> WorksFor(pending, tasks, t, history[i].sequence, true)))
  }

  /** No task was sent for a packet that is still to come. */
  ghost predicate Issued(tasks: seq<Request>, requests: nat) {
    forall t :: 0 <= t < |tasks| && tasks[t].packet.Some? ==> tasks[t].packet.value <= requests
  }

  // ----------------------------------------------------------- replay rules

  ghost predicate AttemptsBounded(history: seq<Packet>) {
    forall i :: 0 <= i < |history| ==> history[i].attempts <= REPLAY_MAX_ATTEMPTS
  }

  function Count(marks: seq<ReplayMark>, sequence: nat): nat {
    if marks == [] then 0
    else Count(marks[..|marks| - 1], sequence) + if marks[|marks| - 1].sequence == sequence then 1 else 0
  }

  /** Every replay happened within thirty seconds of the first send of its packet. */
  ghost predicate InTime(marks: seq<ReplayMark>, firstSent: map<nat, int>) {
    forall k :: 0 <= k < |marks| ==>
      marks[k].sequence in firstSent && 0 <= marks[k].at - firstSent[marks[k].sequence] <= REPLAY_MAX_AGE_MS
  }

  /** Replays of one packet are at least two seconds apart. */
  ghost predicate Spaced(marks: seq<ReplayMark>) {
    forall j, k :: 0 <= j < k < |marks| && marks[j].sequence == marks[k].sequence ==>
      marks[k].at - marks[j].at >= REPLAY_RETRY_MS
  }

  /** No packet is replayed more than three times. */
  ghost predicate Rationed(marks: seq<ReplayMark>) {
    forall q :: Count(marks, q) <= REPLAY_MAX_ATTEMPTS
  }

  ghost predicate Numbered(firstSent: map<nat, int>, requests: nat) {
    forall q :: q in firstSent ==> q <= requests
  }

  /** The fields of a retained packet agree with what was observed. */
  ghost predicate Recorded(p: Packet, marks: seq<ReplayMark>, firstSent: map<nat, int>) {
    && p.sequence in firstSent && firstSent[p.sequence] == p.sentAt
    && Count(marks, p.sequence) == p.attempts
    && (forall k :: 0 <= k < |marks| && marks[k].sequence == p.sequence ==> marks[k].at <= p.lastAttemptAt)
    && (p.Replayed() ==> exists k :: 0 <= k < |marks| && marks[k] == ReplayMark(p.sequence, p.lastAttemptAt))
  }

  ghost predicate AllRecorded(history: seq<Packet>, marks: seq<ReplayMark>, firstSent: map<nat, int>) {
    forall i :: 0 <= i < |history| ==> Recorded(history[i], marks, firstSent)
  }

  // --------------------------------------------------------------- delivery

  function QueuedBytes(queue: seq<Item>): nat {
    if queue == [] then 0
    else (if queue[0].Reply? then |queue[0].body| else 0) + QueuedBytes(queue[1..])
  }

  ghost predicate OnlyReplies(items: seq<Item>) {
    forall i :: 0 <= i < |items| ==> items[i].Reply?
  }

  /**
    The receiver sees the completed replies in order; a failure replaces what is
    still queued, is seen at most once, and is the last thing there is to see.
    */
  ghost predicate DeliveredInOrder(
    completed: seq<Item>, delivered: seq<Item>, failure: Option<Error>, queue: seq<Item>, closed: bool)
  {
    && OnlyReplies(completed)
    && (!closed ==> failure.None? && delivered + queue == completed)
    && (closed ==> failure.Some? && EndsWithFailure(completed, delivered, queue, Failure(failure.value)))
  }

  ghost predicate EndsWithFailure(completed: seq<Item>, delivered: seq<Item>, queue: seq<Item>, error: Item) {
    || (queue == [error] && delivered <= completed)
    || (queue == [] && exists seen :: seen <= completed && delivered == seen + [error])
  }

  // -------------------------------------------------------------- invariant

  ghost predicate TasksOk(
    pending: map<Task, nat>, sentSince: map<Task, int>, receiving: set<Task>, tasks: seq<Request>, closing: bool)
  {
    && Charged(pending, tasks)
    && Live(pending, tasks, closing)
    && SentBy(sentSince, tasks)
    && ReceivedBy(receiving, tasks)
    && Shaped(tasks, closing)
  }

  ghost predicate OwnersOk(history: seq<Packet>, pending: map<Task, nat>, replayPending: set<Task>, tasks: seq<Request>) {
    ReplaysMarked(pending, replayPending, tasks) && Owned(history, pending, tasks)
  }

  ghost predicate HistoryOk(history: seq<Packet>, key: Option<Bytes>, requests: nat) {
    && WellOrdered(history, key, requests)
    && !OverBudget(history)
    && AttemptsBounded(history)
  }

  ghost predicate LogOk(marks: seq<ReplayMark>, firstSent: map<nat, int>, requests: nat) {
    && InTime(marks, firstSent)
    && Spaced(marks)
    && Rationed(marks)
    && Numbered(firstSent, requests)
  }

  ghost predicate Inv(ep: Endpoint) {
    // capacity accounting
    && ep.ch.pendingBytes == Sum(ep.ch.pending)
    && |ep.ch.pending| <= MAX_CHANNEL_REQUESTS
    && ep.ch.pendingBytes <= MAX_CHANNEL_BYTES
    // tasks, and who may name them
    && TasksOk(ep.ch.pending, ep.ch.sentSince, ep.ch.receiving, ep.tasks, ep.closing)
    && (ep.closing ==> ep.ch.closed)
    && (ep.ch.closeDone ==> ep.closing && ep.ch.pending == map[])
    && OwnersOk(ep.ch.history, ep.ch.pending, ep.ch.replayPending, ep.tasks)
    && Issued(ep.tasks, ep.ch.requests)
    // retention and replay budget
    && HistoryOk(ep.ch.history, ep.ch.replayKey, ep.ch.requests)
    && ep.ch.requests == ep.journal.nativeSends + ep.ch.replayRequests
    && ep.ch.replayRequests + AttemptsLeft(ep.ch.history) <= REPLAY_MAX_ATTEMPTS * ep.journal.nativeSends
    && |ep.journal.replays| == ep.ch.replayRequests
    && LogOk(ep.journal.replays, ep.journal.firstSent, ep.ch.requests)
    && AllRecorded(ep.ch.history, ep.journal.replays, ep.journal.firstSent)
    // delivery
    && ep.ch.replyBytes == QueuedBytes(ep.ch.queue)
    && |ep.ch.queue| <= MAX_QUEUED_REPLIES
    && ep.ch.replyBytes <= MAX_CHANNEL_BYTES
    && DeliveredInOrder(ep.journal.completed, ep.journal.delivered, ep.journal.failure, ep.ch.queue, ep.ch.closed)
    // what a suspended sender relies on when it is resumed
    && (ep.upload.AwaitLane? ==> ep.ch.closed || ep.ch.HasCapacity(|ep.upload.body|))
    && |ep.ch.replayPending| <= MAX_CHANNEL_REPLAYS
    && (ep.recovery.Replacing? ==> |ep.ch.replayPending - {ep.recovery.task}| < MAX_CHANNEL_REPLAYS)
  }

  lemma NewEndpointInv(now: int)
    ensures Inv(NewEndpoint(now))
  {
    hide TasksOk, OwnersOk, HistoryOk, LogOk, AllRecorded, DeliveredInOrder;
    NothingIsInOrder();
    SumOfNothing<Task>();
  }

  lemma NothingIsInOrder()
    ensures TasksOk(map[], map[], {}, [], false) && OwnersOk([], map[], {}, [])
    ensures HistoryOk([], None, 0) && LogOk([], map[], 0) && AllRecorded([], [], map[])
    ensures DeliveredInOrder([], [], None, [], false)
  {
    assert HistoryBytes([]) == 0;
  }

  // ------------------------------------------------------- steps of one task

  /** A task may move on as long as it stays the same request and its marks fit its phase. */
  predicate MayBecome(ep: Endpoint, t: Task, r: Request) {
    && t < |ep.tasks|
    && r.body == ep.tasks[t].body && r.replay == ep.tasks[t].replay && r.packet == ep.tasks[t].packet
    && ep.tasks[t].phase != Over
    && (r.phase == Over ==> ep.closing && !r.sent && t !in ep.ch.sentSince && t !in ep.ch.receiving)
    && (ep.tasks[t].phase == Posting ==> r.phase == Posting)
    && (ep.tasks[t].sent ==> r.sent)
    && (ep.tasks[t].cancelled ==> r.cancelled)
    && |r.content| <= MAX_PACKET
    && (r.phase == Created ==> !r.sent && r.content == [] && (r.cancelled ==> ep.closing))
  }

  lemma TaskMoves(ep: Endpoint, t: Task, r: Request)
    requires MayBecome(ep, t, r)
    requires TasksOk(ep.ch.pending, ep.ch.sentSince, ep.ch.receiving, ep.tasks, ep.closing)
    ensures TasksOk(ep.ch.pending, ep.ch.sentSince, ep.ch.receiving, ep.tasks[t := r], ep.closing)
  {
    var tasks := ep.tasks[t := r];
    assert Charged(ep.ch.pending, tasks);
    assert Live(ep.ch.pending, tasks, ep.closing);
    assert SentBy(ep.ch.sentSince, tasks);
    assert ReceivedBy(ep.ch.receiving, tasks);
  }

  lemma TaskKeepsOwner(ep: Endpoint, t: Task, r: Request)
    requires MayBecome(ep, t, r)
    requires OwnersOk(ep.ch.history, ep.ch.pending, ep.ch.replayPending, ep.tasks)
    ensures OwnersOk(ep.ch.history, ep.ch.pending, ep.ch.replayPending, ep.tasks[t := r])
  {
  }

  lemma MoveKeeps(ep: Endpoint, t: Task, r: Request)
    requires Inv(ep) && MayBecome(ep, t, r)
    ensures Inv(ep.(tasks := ep.tasks[t := r]))
  {
    hide TasksOk, OwnersOk, HistoryOk, LogOk, AllRecorded, DeliveredInOrder;
    TaskMoves(ep, t, r);
    TaskKeepsOwner(ep, t, r);
  }
}
