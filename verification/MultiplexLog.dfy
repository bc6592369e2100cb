/**
  A run as someone outside the program sees it: the clock, the native client and
  the network, event by event. The fields of a channel that its decisions rest
  on are shown to be what this log says, whatever the steps in between did.
  */
module MultiplexLog {
  import opened Common
  import opened ChannelState
  import opened ReplayHistory
  import opened Multiplex
  import opened EndpointInvariant
  import opened EndpointSteps
  import opened MultiplexInvariant
  import opened MultiplexRuns

  type Log = seq<Event>

  // --------------------------------------------------------- what was observed

  /** Time passed. */
  function Clock(log: Log): int {
    if log == [] then 0
    else
      var last := |log| - 1;
      Clock(log[..last]) + if log[last].Tick? then log[last].elapsed else 0
  }

  /** The response bytes that arrived for request `t` of channel `c`. */
  function Arrived(log: Log, c: ChannelId, t: Task): Bytes {
    if log == [] then []
    else
      var last := |log| - 1;
      match log[last]
      case On(d, Chunk(u, data)) => if (d, u) == (c, t) then Arrived(log[..last], c, t) + data else Arrived(log[..last], c, t)
      case _ => Arrived(log[..last], c, t)
  }

  /** A response body the native client may get: whole words, and not a transport error. */
  predicate Deliverable(body: Bytes) {
    body != [] && |body| % 4 == 0 && (|body| == 4 ==> body[3] < 128)
  }

  /** The replies the network has completed for the channel, in order. */
  function Owed(log: Log, c: ChannelId): seq<Item> {
    if log == [] then []
    else
      var last := |log| - 1;
      match log[last]
      case On(d, BodyComplete(t)) =>
        var body := Arrived(log[..last], c, t);
        Owed(log[..last], c) + if d == c && Deliverable(body) then [Reply(body)] else []
      case _ => Owed(log[..last], c)
  }

  /** The response of request `t` has begun. */
  predicate Answered(log: Log, c: ChannelId, t: Task) { On(c, Headers(t)) in log }

  /** When the upload of request `t` finished, unless a rotation gave the request up since. */
  function UploadedAt(log: Log, c: ChannelId, t: Task): Option<int> {
    if log == [] then None
    else
      var last := |log| - 1;
      match log[last]
      case On(d, BodySent(u)) => if (d, u) == (c, t) then Some(Clock(log[..last])) else UploadedAt(log[..last], c, t)
      case On(_, MakeRoom(d, u)) => if (d, u) == (c, t) then None else UploadedAt(log[..last], c, t)
      case _ => UploadedAt(log[..last], c, t)
  }

  /** Something came for the channel or went to its client: a first header, data, an end, a delivery. */
  predicate IsProgress(log: Log, c: ChannelId, act: Act) {
    match act
    case Headers(t) => !Answered(log, c, t)
    case Chunk(_, _) => true
    case BodyComplete(_) => true
    case EndDelivery(written) => written
    case _ => false
  }

  /** When the channel was opened or last made progress. */
  function ProgressAt(log: Log, c: ChannelId): int {
    if log == [] then 0
    else
      var last := |log| - 1;
      match log[last]
      case Open(d) => if d == c then Clock(log[..last]) else ProgressAt(log[..last], c)
      case On(d, act) =>
        if d == c && IsProgress(log[..last], c, act) then Clock(log[..last]) else ProgressAt(log[..last], c)
      case _ => ProgressAt(log[..last], c)
  }

  /** What the native client submitted last. */
  function LastSubmitted(log: Log, c: ChannelId): Bytes {
    if log == [] then []
    else
      var last := |log| - 1;
      match log[last]
      case On(d, Submit(body)) => if d == c then body else LastSubmitted(log[..last], c)
      case _ => LastSubmitted(log[..last], c)
  }

  // ------------------------------------------------- what the channel knows of it

  /** The log has nothing about request `t` yet. */
  ghost predicate Unheard(log: Log, c: ChannelId, t: Task) {
    Arrived(log, c, t) == [] && !Answered(log, c, t) && UploadedAt(log, c, t) == None
  }

  ghost predicate TaskLogged(ep: Endpoint, log: Log, c: ChannelId, t: Task) {
    && (InPhase(ep, t, Posting) ==> ep.tasks[t].content == Arrived(log, c, t))
    && (t >= |ep.tasks| || InPhase(ep, t, Created) ==> Unheard(log, c, t))
    && (t in ep.ch.receiving <==> InPhase(ep, t, Posting) && Answered(log, c, t))
    && (t in ep.ch.sentSince <==> InPhase(ep, t, Posting) && UploadedAt(log, c, t).Some?)
    && (t in ep.ch.sentSince ==> UploadedAt(log, c, t) == Some(ep.ch.sentSince[t]))
  }

  ghost predicate Logged(ep: Endpoint, log: Log, c: ChannelId) {
    && (forall t :: TaskLogged(ep, log, c, t))
    && ep.journal.completed == Owed(log, c)
    && (ep.upload != NoUpload ==> ep.upload.body == LastSubmitted(log, c))
    && (!ep.ch.closed ==> ep.ch.lastProgress == ProgressAt(log, c))
  }

  /** Nothing has been said about a channel before it is opened. */
  ghost predicate Silent(log: Log, c: ChannelId) {
    (forall t :: Unheard(log, c, t)) && Owed(log, c) == []
  }

  ghost predicate SystemLogged(s: System, log: Log) {
    && s.now == Clock(log)
    && (forall c :: c in s.endpoints ==> Logged(s.endpoints[c], log, c))
    && (forall c :: c !in s.endpoints ==> Silent(log, c))
  }

  // ----------------------------------------------------------- the log grows

  /** The event says nothing about channel `c`. */
  predicate Aside(e: Event, c: ChannelId) {
    match e
    case Tick(_) => true
    case CloseLane => true
    case Open(d) => d != c
    case On(d, act) => d != c && (act.MakeRoom? ==> act.d != c)
  }

  lemma AsideChangesNothing(log: Log, e: Event, c: ChannelId, t: Task)
    requires Aside(e, c)
    ensures Arrived(log + [e], c, t) == Arrived(log, c, t)
    ensures Answered(log + [e], c, t) == Answered(log, c, t)
    ensures UploadedAt(log + [e], c, t) == UploadedAt(log, c, t)
    ensures Owed(log + [e], c) == Owed(log, c)
    ensures ProgressAt(log + [e], c) == ProgressAt(log, c)
    ensures LastSubmitted(log + [e], c) == LastSubmitted(log, c)
  {
    assert (log + [e])[..|log|] == log;
  }

  lemma AsideKeeps(ep: Endpoint, log: Log, e: Event, c: ChannelId)
    requires Aside(e, c)
    ensures Logged(ep, log, c) ==> Logged(ep, log + [e], c)
    ensures Silent(log, c) ==> Silent(log + [e], c)
  {
    hide Arrived, Answered, UploadedAt, Owed, ProgressAt, LastSubmitted;
    forall t: Task ensures TaskLogged(ep, log, c, t) ==> TaskLogged(ep, log + [e], c, t) {
      AsideChangesNothing(log, e, c, t);
    }
    forall t: Task ensures Unheard(log, c, t) ==> Unheard(log + [e], c, t) {
      AsideChangesNothing(log, e, c, t);
    }
    AsideChangesNothing(log, e, c, 0);
  }

  /** A step of another channel, or of none, leaves this one alone. */
  lemma StepElsewhere(s: System, e: Event, c: ChannelId)
    requires Enabled(s, e) && Aside(e, c)
    ensures c in Step(s, e).endpoints <==> c in s.endpoints
    ensures c in s.endpoints ==> Step(s, e).endpoints[c] == s.endpoints[c]
  {
    hide SendNative, SendReplay, Uploaded, ResponseStarted, Buffer, End, Take, RotateOut, BeginClose, FinishTask, Begin,
      Cancel, Swept, Delivered, Validate, ScanDecides, ReplayDue, CapacityCandidate, NoNewerUpload, NewEndpoint;
  }

  lemma ActOpensNothing(s: System, d: ChannelId, act: Act)
    requires d in s.endpoints && ActEnabled(s, d, act)
    ensures ActStep(s, d, act).endpoints.Keys == s.endpoints.Keys
  {
    hide SendNative, SendReplay, Uploaded, ResponseStarted, Buffer, End, Take, RotateOut, BeginClose, FinishTask, Begin,
      Cancel, Swept, Delivered, Validate, ScanDecides, ReplayDue, CapacityCandidate, NoNewerUpload;
  }

  // ------------------------------------------------- what one event says of a channel

  /** One more event on the channel, seen from one of its requests. */
  lemma TaskHears(log: Log, c: ChannelId, act: Act, t: Task)
    ensures Arrived(log + [On(c, act)], c, t) ==
            Arrived(log, c, t) + if act.Chunk? && act.t == t then act.data else []
    ensures Answered(log + [On(c, act)], c, t) <==> Answered(log, c, t) || act == Headers(t)
    ensures UploadedAt(log + [On(c, act)], c, t) ==
            if act == BodySent(t) then Some(Clock(log)) else if act == MakeRoom(c, t) then None else UploadedAt(log, c, t)
  {
    assert (log + [On(c, act)])[..|log|] == log;
    assert Arrived(log, c, t) + [] == Arrived(log, c, t);
  }

  lemma ChannelHears(log: Log, c: ChannelId, act: Act)
    ensures LastSubmitted(log + [On(c, act)], c) == if act.Submit? then act.body else LastSubmitted(log, c)
    ensures ProgressAt(log + [On(c, act)], c) == if IsProgress(log, c, act) then Clock(log) else ProgressAt(log, c)
    ensures Owed(log + [On(c, act)], c) ==
            if act.BodyComplete? && Deliverable(Arrived(log, c, act.t)) then Owed(log, c) + [Reply(Arrived(log, c, act.t))]
            else Owed(log, c)
  {
    assert (log + [On(c, act)])[..|log|] == log;
    assert Owed(log, c) + [] == Owed(log, c);
  }

  // -------------------------------------------- steps that no request hears about

  /** Old requests stand where they stood, and a new one has not begun. */
  predicate SameTasks(ep: Endpoint, after: Endpoint) {
    && |ep.tasks| <= |after.tasks|
    && (forall t :: 0 <= t < |ep.tasks| ==> SamePhase(ep.tasks[t], after.tasks[t]))
    && (forall t :: |ep.tasks| <= t < |after.tasks| ==> after.tasks[t].phase == Created)
    && after.ch.receiving == ep.ch.receiving
    && after.ch.sentSince == ep.ch.sentSince
  }

  /** The act is about no request in particular. */
  predicate AboutNoTask(c: ChannelId, act: Act) {
    !act.Chunk? && !act.Headers? && !act.BodySent? && !(act.MakeRoom? && act.d == c)
  }

  lemma SameTasksLogged(ep: Endpoint, after: Endpoint, log: Log, c: ChannelId, act: Act)
    requires SameTasks(ep, after) && AboutNoTask(c, act)
    requires forall t :: TaskLogged(ep, log, c, t)
    ensures forall t :: TaskLogged(after, log + [On(c, act)], c, t)
  {
    hide Arrived, Answered, UploadedAt;
    forall t: Task ensures TaskLogged(after, log + [On(c, act)], c, t) {
      assert TaskLogged(ep, log, c, t);
      TaskHears(log, c, act, t);
      assert t < |ep.tasks| ==> SamePhase(ep.tasks[t], after.tasks[t]);
    }
  }

  /** Such a step also makes no progress and completes no reply. */
  lemma QuietActLogged(ep: Endpoint, after: Endpoint, log: Log, c: ChannelId, act: Act)
    requires SameTasks(ep, after) && AboutNoTask(c, act) && !act.BodyComplete? && !IsProgress(log, c, act)
    requires Logged(ep, log, c)
    requires after.journal.completed == ep.journal.completed && after.ch.lastProgress == ep.ch.lastProgress
    requires ep.ch.closed ==> after.ch.closed
    requires after.upload != NoUpload ==>
               if act.Submit? then after.upload.body == act.body
               else ep.upload != NoUpload && after.upload.body == ep.upload.body
    ensures Logged(after, log + [On(c, act)], c)
  {
    hide Arrived, Answered, UploadedAt, Owed, ProgressAt, LastSubmitted, TaskLogged, SameTasks, IsProgress;
    SameTasksLogged(ep, after, log, c, act);
    ChannelHears(log, c, act);
  }

  lemma SendIsQuiet(ep: Endpoint, body: Bytes, now: int)
    ensures var after := SendNative(ep, body, now);
            && SameTasks(ep, after) && after.upload == ep.upload
            && after.journal.completed == ep.journal.completed
            && after.ch.lastProgress == ep.ch.lastProgress && after.ch.closed == ep.ch.closed
  {
    hide AdmitNative, NativePacket;
    AdmitNativeFrame(ep.ch, body, |ep.tasks|, now);
  }

  lemma ReplayIsQuiet(s: System, c: ChannelId, body: Bytes)
    requires c in s.endpoints
    ensures c in Replay(s, c, body).endpoints
    ensures var ep, after := s.endpoints[c], Replay(s, c, body).endpoints[c];
            && SameTasks(ep, after) && after.upload == ep.upload
            && after.journal.completed == ep.journal.completed
            && after.ch.lastProgress == ep.ch.lastProgress && after.ch.closed == ep.ch.closed
  {
    hide ReplayDue, FindPacket;
  }

  lemma GrantIsQuiet(s: System, c: ChannelId)
    requires c in s.endpoints && s.endpoints[c].upload.AwaitLane?
    ensures c in Granted(s, c).endpoints
    ensures var ep, after := s.endpoints[c], Granted(s, c).endpoints[c];
            && SameTasks(ep, after) && after.upload == NoUpload
            && after.journal.completed == ep.journal.completed
            && after.ch.lastProgress == ep.ch.lastProgress && after.ch.closed == ep.ch.closed
  {
    hide SendNative;
    var ep := s.endpoints[c];
    SendIsQuiet(ep.(upload := NoUpload), ep.upload.body, s.now);
  }

  lemma CancelIsQuiet(ep: Endpoint, t: Task, recovery: Recovery)
    ensures var after := Cancel(ep, t).(recovery := recovery);
            after == ep.(tasks := after.tasks, recovery := recovery) && SameTasks(ep, after)
  {
  }

  lemma CloseIsQuiet(ep: Endpoint)
    ensures var after := BeginClose(ep);
            && SameTasks(ep, after) && after.upload == ep.upload
            && after.journal.completed == ep.journal.completed
            && after.ch.lastProgress == ep.ch.lastProgress && after.ch.closed
  {
  }

  lemma SweepIsQuiet(ep: Endpoint, t: Task)
    requires Inv(ep) && t in ep.ch.pending && InPhase(ep, t, Over)
    ensures var after := FinishTask(ep, t, None);
            && SameTasks(ep, after) && after.upload == ep.upload && after.journal == ep.journal
            && after.ch.lastProgress == ep.ch.lastProgress && after.ch.closed == ep.ch.closed
  {
    hide OwnersOk, HistoryOk, LogOk, AllRecorded, DeliveredInOrder, AttemptsLeft, Sum, QueuedBytes, Detach;
    assert ep.ch.sentSince - {t} == ep.ch.sentSince;
  }

  lemma SweptIsQuiet(ep: Endpoint)
    requires Inv(ep) && ep.closing && ep.ch.pending == map[]
    ensures var after := ep.(ch := Swept(ep.ch));
            && SameTasks(ep, after) && after.ch.lastProgress == ep.ch.lastProgress && after.ch.closed == ep.ch.closed
  {
    NothingPending(ep);
  }

  lemma ScanIndexes(s: System, c: ChannelId, plan: Plan)
    requires c in s.endpoints && ScanEnabled(s, c, plan)
    ensures plan.Nothing? || plan.index < |s.endpoints[c].ch.history|
  {
    hide Acceptable;
  }

  lemma OwnRecoveryIsQuiet(s: System, c: ChannelId, d: ChannelId, victim: Task)
    requires c in s.endpoints && d in s.endpoints && c != d
    ensures c in Rotated(s, c, d, victim).endpoints
    ensures var after := Rotated(s, c, d, victim).endpoints[c];
            after == s.endpoints[c].(recovery := Rotating(s.now, d, victim)) && SameTasks(s.endpoints[c], after)
  {
    hide RotateOut;
  }

  lemma OtherwiseQuiet(s: System, c: ChannelId, act: Act)
    requires c in s.endpoints && ActEnabled(s, c, act) && IsQuiet(c, act)
    requires !act.GrantLane? && !act.Resend? && !act.StartClose? && !act.SweepTask? && !act.FinishClose? && !act.MakeRoom?
    requires act.Scan? ==> act.plan.Nothing?
    ensures c in ActStep(s, c, act).endpoints
    ensures var ep, after := s.endpoints[c], ActStep(s, c, act).endpoints[c];
            && SameTasks(ep, after) && after.journal.completed == ep.journal.completed
            && after.ch.lastProgress == ep.ch.lastProgress && after.ch.closed == ep.ch.closed
            && (after.upload != NoUpload ==>
                  if act.Submit? then after.upload.body == act.body
                  else ep.upload != NoUpload && after.upload.body == ep.upload.body)
  {
    hide ScanDecides, CapacityCandidate, NoNewerUpload;
  }

  /** The acts that only concern senders, the receiver's queue, or closing. */
  predicate IsQuiet(c: ChannelId, act: Act) {
    match act
    case Submit(_) => true
    case GrantChannel => true
    case GrantLane => true
    case AbortUpload => true
    case TakeItem => true
    case StartDelivery => true
    case EndDelivery(written) => !written
    case MakeRoom(d, _) => d != c
    case Scan(_) => true
    case Resend => true
    case StartClose => true
    case SweepTask(_) => true
    case FinishClose => true
    case StopRecovery => true
    case _ => false
  }

  lemma QuietActStep(s: System, log: Log, c: ChannelId, act: Act)
    requires SysInv(s) && c in s.endpoints && ActEnabled(s, c, act) && IsQuiet(c, act)
    requires Logged(s.endpoints[c], log, c)
    ensures c in ActStep(s, c, act).endpoints && Logged(ActStep(s, c, act).endpoints[c], log + [On(c, act)], c)
  {
    hide SysInv, Inv, Logged, SameTasks, ScanDecides, CapacityCandidate, NoNewerUpload, FinishTask, Fail, Replay, SendNative,
      BeginClose, Swept, Cancel, Take;
    var ep := s.endpoints[c];
    EndpointInv(s, c);
    match act {
      case GrantLane => GrantIsQuiet(s, c);
      case Scan(SendAgain(i)) => ScanIndexes(s, c, act.plan); ReplayIsQuiet(s, c, ep.ch.history[i].body);
      case Scan(ReplaceThenSend(i, victim)) => ScanIndexes(s, c, act.plan); CancelIsQuiet(ep, victim, Replacing(ep.ch.history[i].body, victim));
      case Resend => ReplayIsQuiet(s, c, ep.recovery.body);
      case StartClose => CloseIsQuiet(ep);
      case SweepTask(t) => PendingIsKnown(ep, t); SweepIsQuiet(ep, t);
      case FinishClose => SweptIsQuiet(ep);
      case MakeRoom(d, victim) => OwnRecoveryIsQuiet(s, c, d, victim);
      case _ => OtherwiseQuiet(s, c, act);
    }
    QuietActLogged(ep, ActStep(s, c, act).endpoints[c], log, c, act);
  }

  // ------------------------------------------------ steps that a request hears about

  /** The step is about request `t` alone. */
  ghost predicate OnlyTask(ep: Endpoint, after: Endpoint, t: Task) {
    && t < |ep.tasks| == |after.tasks|
    && (forall u :: 0 <= u < |ep.tasks| && u != t ==> SamePhase(ep.tasks[u], after.tasks[u]))
    && (forall u :: u != t ==> (u in after.ch.receiving <==> u in ep.ch.receiving))
    && (forall u :: u != t ==> (u in after.ch.sentSince <==> u in ep.ch.sentSince))
    && (forall u :: u != t && u in ep.ch.sentSince ==> after.ch.sentSince[u] == ep.ch.sentSince[u])
  }

  predicate AboutTask(c: ChannelId, act: Act, t: Task) {
    match act
    case Chunk(u, _) => u == t
    case Headers(u) => u == t
    case BodySent(u) => u == t
    case MakeRoom(d, u) => d == c ==> u == t
    case _ => true
  }

  lemma OtherTasksLogged(ep: Endpoint, after: Endpoint, log: Log, c: ChannelId, act: Act, t: Task)
    requires OnlyTask(ep, after, t) && AboutTask(c, act, t)
    requires forall u :: TaskLogged(ep, log, c, u)
    requires TaskLogged(after, log + [On(c, act)], c, t)
    ensures forall u :: TaskLogged(after, log + [On(c, act)], c, u)
  {
    hide Arrived, Answered, UploadedAt;
    forall u: Task | u != t ensures TaskLogged(after, log + [On(c, act)], c, u) {
      assert TaskLogged(ep, log, c, u);
      TaskHears(log, c, act, u);
      assert u < |ep.tasks| ==> SamePhase(ep.tasks[u], after.tasks[u]);
    }
  }

  /** The channel-wide half of `Logged`. */
  lemma RestLogged(ep: Endpoint, after: Endpoint, log: Log, c: ChannelId, act: Act)
    requires Logged(ep, log, c)
    requires forall t :: TaskLogged(after, log + [On(c, act)], c, t)
    requires !act.Submit? && after.upload == ep.upload
    requires after.journal.completed == ep.journal.completed +
               if act.BodyComplete? && Deliverable(Arrived(log, c, act.t)) then [Reply(Arrived(log, c, act.t))] else []
    requires ep.ch.closed ==> after.ch.closed
    requires !after.ch.closed ==> after.ch.lastProgress == if IsProgress(log, c, act) then Clock(log) else ep.ch.lastProgress
    ensures Logged(after, log + [On(c, act)], c)
  {
    hide Arrived, Answered, UploadedAt, Owed, ProgressAt, LastSubmitted, TaskLogged, IsProgress, Deliverable;
    ChannelHears(log, c, act);
  }

  /** What `_post` accepts is what the client may get, or nothing at all. */
  lemma ValidBodies(content: Bytes)
    ensures Validate(content).Success? <==> content == [] || Deliverable(content)
    ensures Validate(content).Success? ==> Validate(content).reply == content
    ensures Validate(content).Failed? || Validate(content).Success?
    ensures Deliverable(content) ==> content != []
  {
    if |content| == 4 {
      Numbers.LEOfFour(content);
    }
  }

  /** How a request can end. */
  predicate Ends(ep: Endpoint, act: Act, t: Task, outcome: Outcome)
    requires t < |ep.tasks|
  {
    match act
    case Chunk(u, _) => u == t && outcome.Failed?
    case BodyComplete(u) => u == t && outcome == Validate(ep.tasks[t].content)
    case PostRaises(u, _) => u == t && outcome.Failed?
    case Unwind(u) => u == t && outcome.Unwound?
    case _ => false
  }

  lemma EndLogged(ep: Endpoint, t: Task, outcome: Outcome, log: Log, c: ChannelId, act: Act)
    requires Inv(ep) && Logged(ep, log, c) && InPhase(ep, t, Posting) && Ends(ep, act, t, outcome)
    ensures Logged(End(ep, t, outcome, Clock(log)), log + [On(c, act)], c)
  {
    hide Inv, Arrived, Answered, UploadedAt, Owed, ProgressAt, LastSubmitted, Validate, Deliverable, End, OnlyTask;
    var after := End(ep, t, outcome, Clock(log));
    PostingIsPending(ep, t);
    assert TaskLogged(ep, log, c, t);
    ValidBodies(ep.tasks[t].content);
    EndTouchesOneTask(ep, t, outcome, Clock(log));
    OnlyThatTaskEnds(ep, t, outcome, Clock(log));
    OtherTasksLogged(ep, after, log, c, act, t);
    assert ep.journal.completed + [] == ep.journal.completed;
    EndNotes(ep, t, outcome, Clock(log));
    EndProgress(ep, t, outcome, Clock(log));
    RestLogged(ep, after, log, c, act);
  }

  lemma OnlyThatTaskEnds(ep: Endpoint, t: Task, outcome: Outcome, now: int)
    requires t < |ep.tasks| && t in ep.ch.pending
    ensures OnlyTask(ep, End(ep, t, outcome, now), t)
    ensures t !in End(ep, t, outcome, now).ch.receiving && t !in End(ep, t, outcome, now).ch.sentSince
    ensures InPhase(End(ep, t, outcome, now), t, Over)
  {
    hide Detach;
  }

  lemma EndProgress(ep: Endpoint, t: Task, outcome: Outcome, now: int)
    requires t < |ep.tasks|
    ensures var ch, after := ep.ch, End(ep, t, outcome, now);
            && after.upload == ep.upload && (ch.closed ==> after.ch.closed)
            && (outcome.Failed? ==> after.ch.closed)
            && (!after.ch.closed ==> after.ch.lastProgress == if outcome.Success? then now else ch.lastProgress)
  {
    hide Detach;
  }

  lemma EndNotes(ep: Endpoint, t: Task, outcome: Outcome, now: int)
    requires t < |ep.tasks|
    ensures End(ep, t, outcome, now).journal.completed ==
            if outcome.Success? && outcome.reply != [] then ep.journal.completed + [Reply(outcome.reply)]
            else ep.journal.completed
  {
    hide Finish, Complete, Fail;
  }

  lemma StartLogged(ep: Endpoint, t: Task, log: Log, c: ChannelId)
    requires Logged(ep, log, c) && InPhase(ep, t, Created) && ep.tasks[t].content == []
    ensures Logged(Begin(ep, t), log + [On(c, FirstStep(t))], c)
  {
    hide Arrived, Answered, UploadedAt, Owed, ProgressAt, LastSubmitted;
    TaskHears(log, c, FirstStep(t), t);
    assert TaskLogged(ep, log, c, t);
    OtherTasksLogged(ep, Begin(ep, t), log, c, FirstStep(t), t);
    RestLogged(ep, Begin(ep, t), log, c, FirstStep(t));
  }

  lemma UploadLogged(ep: Endpoint, t: Task, log: Log, c: ChannelId)
    requires Logged(ep, log, c) && Running(ep, t)
    ensures Logged(Uploaded(ep, t, Clock(log)), log + [On(c, BodySent(t))], c)
  {
    hide Arrived, Answered, UploadedAt, Owed, ProgressAt, LastSubmitted;
    TaskHears(log, c, BodySent(t), t);
    assert TaskLogged(ep, log, c, t);
    OtherTasksLogged(ep, Uploaded(ep, t, Clock(log)), log, c, BodySent(t), t);
    RestLogged(ep, Uploaded(ep, t, Clock(log)), log, c, BodySent(t));
  }

  lemma AnswerLogged(ep: Endpoint, t: Task, log: Log, c: ChannelId)
    requires Logged(ep, log, c) && InPhase(ep, t, Posting)
    ensures Logged(ResponseStarted(ep, t, Clock(log)), log + [On(c, Headers(t))], c)
  {
    hide Arrived, Answered, UploadedAt, Owed, ProgressAt, LastSubmitted;
    TaskHears(log, c, Headers(t), t);
    assert TaskLogged(ep, log, c, t);
    OtherTasksLogged(ep, ResponseStarted(ep, t, Clock(log)), log, c, Headers(t), t);
    RestLogged(ep, ResponseStarted(ep, t, Clock(log)), log, c, Headers(t));
  }

  lemma DataLogged(ep: Endpoint, t: Task, data: Bytes, log: Log, c: ChannelId)
    requires Logged(ep, log, c) && Running(ep, t)
    ensures Logged(Buffer(ep, t, data, Clock(log)), log + [On(c, Chunk(t, data))], c)
  {
    hide Arrived, Answered, UploadedAt, Owed, ProgressAt, LastSubmitted;
    TaskHears(log, c, Chunk(t, data), t);
    assert TaskLogged(ep, log, c, t);
    OtherTasksLogged(ep, Buffer(ep, t, data, Clock(log)), log, c, Chunk(t, data), t);
    RestLogged(ep, Buffer(ep, t, data, Clock(log)), log, c, Chunk(t, data));
  }

  lemma DeliveryLogged(ep: Endpoint, log: Log, c: ChannelId)
    requires Logged(ep, log, c)
    ensures Logged(Delivered(ep, true, Clock(log)), log + [On(c, EndDelivery(true))], c)
  {
    hide Arrived, Answered, UploadedAt, Owed, ProgressAt, LastSubmitted, TaskLogged;
    SameTasksLogged(ep, Delivered(ep, true, Clock(log)), log, c, EndDelivery(true));
    RestLogged(ep, Delivered(ep, true, Clock(log)), log, c, EndDelivery(true));
  }

  // ------------------------------------------------------------------- runs

  lemma HeardActStep(s: System, log: Log, c: ChannelId, act: Act)
    requires SysInv(s) && s.now == Clock(log) && c in s.endpoints && ActEnabled(s, c, act)
    requires !IsQuiet(c, act) && !act.MakeRoom?
    requires Logged(s.endpoints[c], log, c)
    ensures c in ActStep(s, c, act).endpoints && Logged(ActStep(s, c, act).endpoints[c], log + [On(c, act)], c)
  {
    hide SysInv, Inv, Logged, End, Validate, Uploaded, ResponseStarted, Buffer, Delivered, Begin;
    var ep := s.endpoints[c];
    EndpointInv(s, c);
    match act {
      case FirstStep(t) => BeginKeeps(ep, t); StartLogged(ep, t, log, c);
      case BodySent(t) => UploadLogged(ep, t, log, c);
      case Headers(t) => AnswerLogged(ep, t, log, c);
      case Chunk(t, data) => DataLogged(ep, t, data, log, c); EndLogged(ep, t, Failed(BufferExceeded), log, c, act);
      case BodyComplete(t) => EndLogged(ep, t, Validate(ep.tasks[t].content), log, c, act);
      case PostRaises(t, error) => EndLogged(ep, t, Failed(error), log, c, act);
      case Unwind(t) => EndLogged(ep, t, Unwound, log, c, act);
      case EndDelivery(_) => DeliveryLogged(ep, log, c);
    }
  }

  /** A rotation on behalf of `c` or of another channel gives up request `t` of channel `d`. */
  lemma RotationLogged(s: System, log: Log, c: ChannelId, d: ChannelId, t: Task)
    requires SysInv(s) && s.now == Clock(log) && c in s.endpoints && RotationChosen(s, c, d, t)
    requires Logged(s.endpoints[d], log, d)
    ensures d in Rotated(s, c, d, t).endpoints && Logged(Rotated(s, c, d, t).endpoints[d], log + [On(c, MakeRoom(d, t))], d)
  {
    hide SysInv, Inv, Logged, RotationChosen, RotateOut, SafeToRotate;
    RotationNames(s, c, d, t);
    EndpointInv(s, d);
    CandidateIsSafe(s.endpoints[d], t, s.now);
    SafeIsPosting(s.endpoints[d], t, s.now);
    var recovery := if c == d then Rotating(s.now, d, t) else s.endpoints[d].recovery;
    RotateLogged(s.endpoints[d], t, recovery, log, c, d);
    RotationKeepsRecovery(s.endpoints[d], t);
  }

  lemma RotationKeepsRecovery(ep: Endpoint, t: Task)
    ensures RotateOut(ep, t).recovery == ep.recovery
  {
    hide Rotate;
  }

  lemma RotationNames(s: System, c: ChannelId, d: ChannelId, victim: Task)
    requires c in s.endpoints && RotationChosen(s, c, d, victim)
    ensures d in s.endpoints && CapacityCandidate(s.endpoints[d].ch, s.now, Some(victim))
  {
    hide CapacityCandidate, RoomSources, NoNewerUpload;
  }

  lemma RotateLogged(ep: Endpoint, t: Task, recovery: Recovery, log: Log, c: ChannelId, d: ChannelId)
    requires Logged(ep, log, d) && InPhase(ep, t, Posting)
    ensures Logged(RotateOut(ep, t).(recovery := recovery), log + [On(c, MakeRoom(d, t))], d)
  {
    hide Arrived, Answered, UploadedAt, Owed, ProgressAt, LastSubmitted, FindOriginal;
    var act, after := MakeRoom(d, t), RotateOut(ep, t).(recovery := recovery);
    RotationHeard(log, c, d, t);
    forall u: Task ensures TaskLogged(after, log + [On(c, act)], d, u) {
      assert TaskLogged(ep, log, d, u);
    }
  }

  lemma RotationHeard(log: Log, c: ChannelId, d: ChannelId, t: Task)
    ensures var more := log + [On(c, MakeRoom(d, t))];
            && (forall u :: Arrived(more, d, u) == Arrived(log, d, u))
            && (forall u :: Answered(more, d, u) <==> Answered(log, d, u))
            && (forall u :: UploadedAt(more, d, u) == if u == t then None else UploadedAt(log, d, u))
            && Owed(more, d) == Owed(log, d)
            && ProgressAt(more, d) == ProgressAt(log, d)
            && LastSubmitted(more, d) == LastSubmitted(log, d)
  {
    assert (log + [On(c, MakeRoom(d, t))])[..|log|] == log;
  }

  lemma OpeningLogged(log: Log, c: ChannelId)
    requires Silent(log, c)
    ensures Logged(NewEndpoint(Clock(log)), log + [Open(c)], c)
  {
    hide Arrived, UploadedAt;
    var ep, more := NewEndpoint(Clock(log)), log + [Open(c)];
    assert more[..|log|] == log;
    forall t: Task ensures TaskLogged(ep, more, c, t) {
      assert Unheard(log, c, t);
      OpeningHeard(log, c, t);
    }
  }

  lemma OpeningHeard(log: Log, c: ChannelId, t: Task)
    ensures Arrived(log + [Open(c)], c, t) == Arrived(log, c, t)
    ensures UploadedAt(log + [Open(c)], c, t) == UploadedAt(log, c, t)
    ensures Answered(log + [Open(c)], c, t) <==> Answered(log, c, t)
  {
    assert (log + [Open(c)])[..|log|] == log;
  }

  /** Whatever happens next, the channel knows what the log says. */
  lemma StepLogged(s: System, e: Event, log: Log, c: ChannelId)
    requires SysInv(s) && SystemLogged(s, log) && Enabled(s, e)
    ensures c in Step(s, e).endpoints ==> Logged(Step(s, e).endpoints[c], log + [e], c)
    ensures c !in Step(s, e).endpoints ==> Silent(log + [e], c)
  {
    hide SysInv, Logged, Silent, Enabled, Step, NewEndpoint;
    if Aside(e, c) {
      StepElsewhere(s, e, c);
      if c in s.endpoints {
        AsideKeeps(s.endpoints[c], log, e, c);
      } else {
        AsideKeeps(NewEndpoint(0), log, e, c);
      }
    } else {
      StepHere(s, e, log, c);
    }
  }

  lemma StepHere(s: System, e: Event, log: Log, c: ChannelId)
    requires SysInv(s) && SystemLogged(s, log) && Enabled(s, e) && !Aside(e, c)
    ensures c in Step(s, e).endpoints && Logged(Step(s, e).endpoints[c], log + [e], c)
  {
    hide SysInv, Logged, Silent, ActEnabled, ActStep, NewEndpoint;
    match e {
      case Open(_) => OpeningLogged(log, c);
      case On(d, act) =>
        if act.MakeRoom? && act.d == c {
          MakeRoomStep(s, d, c, act.victim);
          RotationLogged(s, log, d, c, act.victim);
        } else if IsQuiet(c, act) {
          QuietActStep(s, log, c, act);
        } else {
          HeardActStep(s, log, c, act);
        }
    }
  }

  lemma MakeRoomStep(s: System, c: ChannelId, d: ChannelId, victim: Task)
    requires c in s.endpoints && ActEnabled(s, c, MakeRoom(d, victim))
    ensures RotationChosen(s, c, d, victim) && d in s.endpoints
    ensures ActStep(s, c, MakeRoom(d, victim)) == Rotated(s, c, d, victim)
  {
    hide RotationChosen, Rotated;
    RotationNamesItsChannel(s, c, d, victim);
  }

  lemma RotationNamesItsChannel(s: System, c: ChannelId, d: ChannelId, victim: Task)
    requires c in s.endpoints && RotationChosen(s, c, d, victim)
    ensures d in s.endpoints
  {
    hide CapacityCandidate, RoomSources, NoNewerUpload;
  }

  /**
    In every run, what a channel decides by is what was observed. The response
    buffered for a request inside `_post` is what arrived for it; it counts as
    receiving exactly when its response has begun; it has an upload time exactly
    when its upload has finished and no rotation gave it up, and it is that time.
    The last progress of an open channel is the last observed.
    */
  lemma {:induction false} ChannelsKnowTheLog(states: seq<System>, events: seq<Event>, i: nat)
    requires IsRun(states, events) && i < |states|
    ensures SystemLogged(states[i], events[..i])
    decreases i
  {
    hide SysInv, Enabled, Step, Logged, Silent;
    if i == 0 {
      NothingLogged();
    } else {
      var s, e, log := states[i - 1], events[i - 1], events[..i - 1];
      ChannelsKnowTheLog(states, events, i - 1);
      RunsKeep(states, events, i - 1);
      assert events[..i] == log + [e];
      forall c: ChannelId
        ensures c in Step(s, e).endpoints ==> Logged(Step(s, e).endpoints[c], log + [e], c)
        ensures c !in Step(s, e).endpoints ==> Silent(log + [e], c)
      {
        StepLogged(s, e, log, c);
      }
      ClockMoves(s, e, log);
    }
  }

  lemma NothingLogged()
    ensures SystemLogged(Initial(), [])
  {
  }

  lemma ClockMoves(s: System, e: Event, log: Log)
    requires Enabled(s, e) && s.now == Clock(log)
    ensures Step(s, e).now == Clock(log + [e])
  {
    hide SendNative, SendReplay, Uploaded, ResponseStarted, Buffer, End, Take, RotateOut, BeginClose, FinishTask, Begin,
      Cancel, Swept, Delivered, Validate, ScanDecides, ReplayDue, CapacityCandidate, NoNewerUpload, NewEndpoint;
    assert (log + [e])[..|log|] == log;
  }
}
