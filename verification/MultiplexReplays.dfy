/**
  When a packet is sent again, and what is given up for it or for a new upload:
  the decisions of `_replay_blocker`, `_recover` and `_make_upload_room` in terms
  of what the channel has observed.
  */
module MultiplexReplays {
  import opened Common
  import opened ChannelState
  import opened ReplayHistory
  import opened Multiplex
  import opened EndpointInvariant
  import opened EndpointSteps
  import opened MultiplexInvariant
  import opened MultiplexRuns
  import opened MultiplexLog

  // ---------------------------------------------------------------- being due

  /** Nothing forbids sending the packet again: it is young, has attempts left, and nobody is busy answering. */
  predicate MayRepeat(ch: Channel, p: Packet, now: int) {
    && p.sentAt <= now <= p.sentAt + 30_000
    && p.attempts < 3
    && ch.replyBytes == 0 && !ch.delivering
    && (forall t :: t in ch.receiving ==> !p.Owns(t))
    && (p.attempts == 0 || now >= p.lastAttemptAt + 2000)
  }

  /** An original request of the packet was given up, or has waited three seconds for its answer. */
  predicate Late(ch: Channel, p: Packet, now: int) {
    p.retired || exists t :: t in p.originals && t in ch.sentSince && t !in ch.receiving && now >= ch.sentSince[t] + 3000
  }

  /** The packet is the newest one and nothing but its own replay is on the way. */
  predicate Alone(ch: Channel, k: nat, now: int)
    requires k < |ch.history|
  {
    && k == |ch.history| - 1
    && (forall t :: t in ch.pending ==> ch.history[k].pending == Some(t))
    && (ch.history[k].attempts == 0 || now >= ch.lastProgress + 1000)
  }

  /** Exactly when a retained packet is due. */
  predicate Due(ch: Channel, k: nat, now: int)
    requires k < |ch.history|
  {
    MayRepeat(ch, ch.history[k], now) && (Late(ch, ch.history[k], now) || Alone(ch, k, now))
  }

  predicate Ordered(history: seq<Packet>) {
    forall i, j :: 0 <= i < j < |history| ==> history[i].sequence < history[j].sequence
  }

  lemma LateIsOverdue(ch: Channel, p: Packet, now: int)
    ensures Overdue(ch, p, now) <==> Late(ch, p, now)
    ensures Late(ch, p, now) ==> p.retired || p.originals != {}
  {
  }

  lemma NewestIsLatest(ch: Channel, k: nat)
    requires k < |ch.history| && Ordered(ch.history)
    ensures IsLatest(ch, ch.history[k]) <==> k == |ch.history| - 1
  {
  }

  lemma NobodyAnswers(ch: Channel, p: Packet)
    ensures (forall t :: t in ch.receiving ==> !p.Owns(t)) <==>
            p.originals * ch.receiving == {} && (p.pending.Some? ==> p.pending.value !in ch.receiving)
  {
    assert forall t :: t in ch.receiving && t in p.originals ==> t in p.originals * ch.receiving;
    if p.originals * ch.receiving != {} {
      var t :| t in p.originals * ch.receiving;
      assert p.Owns(t);
    }
    if p.pending.Some? && p.pending.value in ch.receiving {
      assert p.Owns(p.pending.value);
    }
  }

  /** `_replay_blocker` has no objection exactly when the packet is due. */
  lemma DueExactly(ch: Channel, k: nat, now: int)
    requires k < |ch.history| && Ordered(ch.history)
    ensures ReplayDue(ch, ch.history[k], now) <==> Due(ch, k, now)
  {
    hide Overdue, Late, IsLatest;
    LateIsOverdue(ch, ch.history[k], now);
    NewestIsLatest(ch, k);
    NobodyAnswers(ch, ch.history[k]);
  }

  lemma HistoryIsOrdered(ep: Endpoint)
    requires Inv(ep)
    ensures Ordered(ep.ch.history)
    ensures |ep.ch.replayPending| <= MAX_CHANNEL_REPLAYS
  {
  }

  // ------------------------------------------------------------ the decision

  /** The replays on the way whose answers have not begun. */
  function Waiting(ch: Channel): set<Task> { set t | t in ch.pending && t in ch.replayPending && t !in ch.receiving }

  predicate IsOldest(tasks: set<Task>, task: Task) { task in tasks && forall t :: t in tasks ==> task <= t }

  /** The replay was uploaded half a minute ago or more, and nothing has come back. */
  predicate Hopeless(ch: Channel, task: Task, now: int) {
    task in ch.sentSince && now >= ch.sentSince[task] + 30_000 && task !in ch.receiving
  }

  /** Which request on the way must make place for another replay of the packet, if one must. */
  predicate MakesPlace(ch: Channel, p: Packet, victim: Option<Task>) {
    if p.pending.Some? then victim == p.pending
    else if |ch.replayPending| < 2 then victim == None
    else victim.Some? && IsOldest(Waiting(ch), victim.value)
  }

  /** The packet is due, and there is a place for its replay. */
  predicate Choosable(ch: Channel, k: nat, now: int)
    requires k < |ch.history|
  {
    && Due(ch, k, now)
    && (if ch.history[k].pending.Some? then Hopeless(ch, ch.history[k].pending.value, now)
        else |ch.replayPending| < 2 || exists t :: t in Waiting(ch) && IsOldest(Waiting(ch), t) && Hopeless(ch, t, now))
  }

  /** Late packets go first, the oldest of them before all; of the others the newest. */
  predicate GoesFirst(ch: Channel, k: nat, i: nat, now: int)
    requires k < |ch.history| && i < |ch.history|
  {
    var lateK, lateI := Late(ch, ch.history[k], now), Late(ch, ch.history[i], now);
    (lateK && !lateI) || (lateK && lateI && k <= i) || (!lateK && !lateI && k >= i)
  }

  predicate Chosen(ch: Channel, k: nat, now: int) {
    && k < |ch.history| && Choosable(ch, k, now)
    && forall i :: 0 <= i < |ch.history| && Choosable(ch, i, now) ==> GoesFirst(ch, k, i, now)
  }

  /** What the scan must decide. */
  predicate Decides(ch: Channel, now: int, plan: Plan) {
    match plan
    case Nothing => forall i :: 0 <= i < |ch.history| ==> !Choosable(ch, i, now)
    case SendAgain(k) => Chosen(ch, k, now) && MakesPlace(ch, ch.history[k], None)
    case ReplaceThenSend(k, victim) => Chosen(ch, k, now) && MakesPlace(ch, ch.history[k], Some(victim))
  }

  lemma ChoosableIsAcceptable(ch: Channel, k: nat, now: int)
    requires k < |ch.history| && Ordered(ch.history)
    ensures Acceptable(ch, ch.history[k], now) <==> Choosable(ch, k, now)
  {
    hide ReplayDue, Due;
    DueExactly(ch, k, now);
    assert Waiting(ch) == IdleReplays(ch);
  }

  lemma FirstIsChosen(ch: Channel, now: int, k: nat)
    requires Ordered(ch.history)
    ensures First(ch, now, k) <==> Chosen(ch, k, now)
  {
    hide Acceptable, Choosable, Late, Overdue;
    forall i | 0 <= i < |ch.history|
      ensures Acceptable(ch, ch.history[i], now) <==> Choosable(ch, i, now)
      ensures Overdue(ch, ch.history[i], now) <==> Late(ch, ch.history[i], now)
    {
      ChoosableIsAcceptable(ch, i, now);
      LateIsOverdue(ch, ch.history[i], now);
    }
  }

  lemma ScanDecidesExactly(ch: Channel, now: int, plan: Plan)
    requires Ordered(ch.history)
    ensures ScanDecides(ch, now, plan) <==> Decides(ch, now, plan)
  {
    hide Acceptable, Choosable, First, Chosen;
    forall i | 0 <= i < |ch.history|
      ensures Acceptable(ch, ch.history[i], now) <==> Choosable(ch, i, now)
    {
      ChoosableIsAcceptable(ch, i, now);
    }
    if plan.SendAgain? || plan.ReplaceThenSend? {
      FirstIsChosen(ch, now, plan.index);
    }
    assert Waiting(ch) == IdleReplays(ch);
  }

  /**
    In every run, a scan of an open channel without backpressure decides on
    nothing only if no retained packet is due with a place for its replay; else
    on the packet that goes first, with exactly the request that must make place.
    */
  lemma ScansDecideAsDue(states: seq<System>, events: seq<Event>, i: nat, c: ChannelId, plan: Plan)
    requires IsRun(states, events) && i < |events| && events[i] == On(c, Scan(plan))
    ensures c in states[i].endpoints
    ensures var ch := states[i].endpoints[c].ch;
            if ch.closed || ch.replyBytes != 0 || ch.delivering then plan == Nothing
            else Decides(ch, ScanTime(states[i], c), plan)
  {
    hide SysInv, Inv, Step, ScanDecides, Decides, NoRoomToMake;
    RunsKeep(states, events, i);
    EndpointInv(states[i], c);
    HistoryIsOrdered(states[i].endpoints[c]);
    ScanDecidesExactly(states[i].endpoints[c].ch, ScanTime(states[i], c), plan);
  }

  /** A packet that is due, not on the way already, with fewer than two replays on the way, is never passed over. */
  lemma DueIsNeverIgnored(states: seq<System>, events: seq<Event>, i: nat, c: ChannelId, plan: Plan, k: nat)
    requires IsRun(states, events) && i < |events| && events[i] == On(c, Scan(plan))
    requires c in states[i].endpoints && k < |states[i].endpoints[c].ch.history| && !states[i].endpoints[c].ch.closed
    requires var ch := states[i].endpoints[c].ch;
             Due(ch, k, ScanTime(states[i], c)) && ch.history[k].pending == None && |ch.replayPending| < 2
    ensures plan != Nothing
  {
    ScansDecideAsDue(states, events, i, c, plan);
  }

  // ------------------------------------------------------- due, by the log alone

  /** Task `t` was sent for the packet and is inside `_post`. */
  predicate OnItsWay(ep: Endpoint, p: Packet, t: Task) {
    InPhase(ep, t, Posting) && ep.tasks[t].packet == Some(p.sequence)
  }

  /** The replays of the packet that the journal knows, as the rules see them at time `now`. */
  ghost predicate RulesAllow(journal: Journal, p: Packet, now: int) {
    && p.sequence in journal.firstSent
    && journal.firstSent[p.sequence] <= now <= journal.firstSent[p.sequence] + 30_000
    && Count(journal.replays, p.sequence) < 3
    && forall m :: m in journal.replays && m.sequence == p.sequence ==> now >= m.at + 2000
  }

  /** A request for the packet is being answered. */
  ghost predicate BeingAnswered(ep: Endpoint, p: Packet, log: Log, c: ChannelId) {
    exists t: Task :: OnItsWay(ep, p, t) && Answered(log, c, t)
  }

  /** An original of the packet finished its upload three seconds ago, or more, and is not answered. */
  ghost predicate Unanswered(ep: Endpoint, p: Packet, log: Log, c: ChannelId, now: int) {
    exists t: Task ::
      && OnItsWay(ep, p, t) && !ep.tasks[t].replay
      && UploadedAt(log, c, t).Some? && now >= UploadedAt(log, c, t).value + 3000 && !Answered(log, c, t)
  }

  /** All that is on the way on the channel are replays of the packet. */
  predicate OnlyItsReplay(ep: Endpoint, p: Packet) {
    forall t :: t in ep.ch.pending ==> t < |ep.tasks| && ep.tasks[t].packet == Some(p.sequence) && ep.tasks[t].replay
  }

  /**
    When a packet is due, told from outside: by the clock, by what the network
    answered and when uploads finished, and by the replays made so far.
    */
  ghost predicate DueByTheLog(ep: Endpoint, log: Log, c: ChannelId, k: nat, now: int)
    requires k < |ep.ch.history|
  {
    var p := ep.ch.history[k];
    && RulesAllow(ep.journal, p, now)
    && QueuedBytes(ep.ch.queue) == 0 && !ep.ch.delivering
    && !BeingAnswered(ep, p, log, c)
    && (|| p.retired
        || Unanswered(ep, p, log, c, now)
        || (&& k == |ep.ch.history| - 1 && OnlyItsReplay(ep, p)
            && (Count(ep.journal.replays, p.sequence) == 0 || now >= ProgressAt(log, c) + 1000)))
  }

  lemma RulesAreRecorded(ep: Endpoint, k: nat, now: int)
    requires Inv(ep) && k < |ep.ch.history|
    ensures var p := ep.ch.history[k];
            && (RulesAllow(ep.journal, p, now) <==>
                  && p.sentAt <= now <= p.sentAt + 30_000 && p.attempts < 3
                  && (p.attempts == 0 || now >= p.lastAttemptAt + 2000))
            && Count(ep.journal.replays, p.sequence) == p.attempts
  {
    hide TasksOk, OwnersOk, HistoryOk, LogOk, DeliveredInOrder, AttemptsLeft, Sum, QueuedBytes, Issued;
    var p, marks := ep.ch.history[k], ep.journal.replays;
    assert Recorded(p, marks, ep.journal.firstSent);
    forall m | m in marks && m.sequence == p.sequence
      ensures m.at <= p.lastAttemptAt && p.attempts > 0
    {
      var j :| 0 <= j < |marks| && marks[j] == m;
      MarkIsCounted(marks, j);
    }
  }

  lemma OwnersAreOnTheirWay(ep: Endpoint, k: nat, t: Task)
    requires Inv(ep) && !ep.ch.closed && k < |ep.ch.history|
    ensures var p := ep.ch.history[k];
            && (t in ep.ch.receiving ==> (p.Owns(t) <==> OnItsWay(ep, p, t)))
            && (t in ep.ch.sentSince ==> (t in p.originals <==> OnItsWay(ep, p, t) && !ep.tasks[t].replay))
            && (t in ep.ch.pending ==> t < |ep.tasks|)
            && (t in ep.ch.pending ==> (p.pending == Some(t) <==> ep.tasks[t].packet == Some(p.sequence) && ep.tasks[t].replay))
  {
    hide HistoryOk, LogOk, AllRecorded, DeliveredInOrder, AttemptsLeft, Sum, QueuedBytes, Issued;
    var p := ep.ch.history[k];
    assert t in p.originals <==> WorksFor(ep.ch.pending, ep.tasks, t, p.sequence, false);
    assert p.pending == Some(t) <==> WorksFor(ep.ch.pending, ep.tasks, t, p.sequence, true);
  }

  lemma AnsweredAreReceiving(ep: Endpoint, log: Log, c: ChannelId, k: nat)
    requires Inv(ep) && Logged(ep, log, c) && !ep.ch.closed && k < |ep.ch.history|
    ensures BeingAnswered(ep, ep.ch.history[k], log, c) <==> exists t :: t in ep.ch.receiving && ep.ch.history[k].Owns(t)
  {
    hide Inv, Arrived, Answered, UploadedAt, Owed, ProgressAt, LastSubmitted;
    forall t: Task
      ensures t in ep.ch.receiving && ep.ch.history[k].Owns(t) <==> OnItsWay(ep, ep.ch.history[k], t) && Answered(log, c, t)
    {
      OwnersAreOnTheirWay(ep, k, t);
      assert TaskLogged(ep, log, c, t);
    }
  }

  lemma UnansweredAreLate(ep: Endpoint, log: Log, c: ChannelId, k: nat, now: int)
    requires Inv(ep) && Logged(ep, log, c) && !ep.ch.closed && k < |ep.ch.history|
    ensures Late(ep.ch, ep.ch.history[k], now) <==>
            ep.ch.history[k].retired || Unanswered(ep, ep.ch.history[k], log, c, now)
  {
    hide Inv, Arrived, Answered, UploadedAt, Owed, ProgressAt, LastSubmitted;
    var p := ep.ch.history[k];
    forall t: Task
      ensures t in p.originals && t in ep.ch.sentSince && t !in ep.ch.receiving && now >= ep.ch.sentSince[t] + 3000 <==>
              && OnItsWay(ep, p, t) && !ep.tasks[t].replay
              && UploadedAt(log, c, t).Some? && now >= UploadedAt(log, c, t).value + 3000 && !Answered(log, c, t)
    {
      LateByTheLog(ep, log, c, k, t);
    }
  }

  lemma LateByTheLog(ep: Endpoint, log: Log, c: ChannelId, k: nat, t: Task)
    requires Inv(ep) && Logged(ep, log, c) && !ep.ch.closed && k < |ep.ch.history|
    ensures OnItsWay(ep, ep.ch.history[k], t) ==> t < |ep.tasks|
    ensures t in ep.ch.history[k].originals && t in ep.ch.sentSince && t !in ep.ch.receiving <==>
              && OnItsWay(ep, ep.ch.history[k], t) && !ep.tasks[t].replay
              && UploadedAt(log, c, t).Some? && !Answered(log, c, t)
    ensures t in ep.ch.sentSince ==> UploadedAt(log, c, t) == Some(ep.ch.sentSince[t])
  {
    hide Inv, Arrived, Answered, UploadedAt, Owed, ProgressAt, LastSubmitted;
    OwnersAreOnTheirWay(ep, k, t);
    assert TaskLogged(ep, log, c, t);
  }

  lemma AloneByTheLog(ep: Endpoint, k: nat)
    requires Inv(ep) && !ep.ch.closed && k < |ep.ch.history|
    ensures (forall t :: t in ep.ch.pending ==> ep.ch.history[k].pending == Some(t)) <==> OnlyItsReplay(ep, ep.ch.history[k])
  {
    hide Inv;
    forall t | t in ep.ch.pending
      ensures t < |ep.tasks|
      ensures ep.ch.history[k].pending == Some(t) <==>
              ep.tasks[t].packet == Some(ep.ch.history[k].sequence) && ep.tasks[t].replay
    {
      OwnersAreOnTheirWay(ep, k, t);
    }
  }

  lemma DueIsByTheLog(ep: Endpoint, log: Log, c: ChannelId, k: nat, now: int)
    requires Inv(ep) && Logged(ep, log, c) && !ep.ch.closed && k < |ep.ch.history|
    ensures Due(ep.ch, k, now) <==> DueByTheLog(ep, log, c, k, now)
  {
    hide Inv, RulesAllow, QueuedBytes, Count, BeingAnswered, Unanswered, OnlyItsReplay, Late, ProgressAt, TaskLogged, Owed,
      LastSubmitted;
    RulesAreRecorded(ep, k, now);
    QueueMeasured(ep);
    AnsweredAreReceiving(ep, log, c, k);
    UnansweredAreLate(ep, log, c, k, now);
    AloneByTheLog(ep, k);
  }

  lemma QueueMeasured(ep: Endpoint)
    requires Inv(ep)
    ensures ep.ch.replyBytes == QueuedBytes(ep.ch.queue)
  {
  }

  /** In every run, a retained packet of an open channel is due exactly when the log says so. */
  lemma DueExactlyByTheLog(states: seq<System>, events: seq<Event>, i: nat, c: ChannelId, k: nat)
    requires IsRun(states, events) && i < |states| && c in states[i].endpoints
    requires !states[i].endpoints[c].ch.closed && k < |states[i].endpoints[c].ch.history|
    ensures var ch, now := states[i].endpoints[c].ch, Clock(events[..i]);
            ReplayDue(ch, ch.history[k], now) <==> DueByTheLog(states[i].endpoints[c], events[..i], c, k, now)
  {
    hide SysInv, Inv, Logged, Silent, ReplayDue, Due, DueByTheLog;
    RunsKeep(states, events, i);
    ChannelsKnowTheLog(states, events, i);
    EndpointInv(states[i], c);
    HistoryIsOrdered(states[i].endpoints[c]);
    DueExactly(states[i].endpoints[c].ch, k, Clock(events[..i]));
    DueIsByTheLog(states[i].endpoints[c], events[..i], c, k, Clock(events[..i]));
  }
}
