/**
  The HTTP/2 connection as a step system: requests run up to their next await
  in any order, between batches of frames, failures and closed responses. What
  no run breaks: no lost wakeup, admission, uploads, credit.
  */
module H2Safety {
  import opened Common
  import opened H2Streams

  type TaskId = nat

  /** Where a request stands; `data[offset..]` and `rest` are still to upload. */
  datatype Phase =
    | Reserving
    | Uploading(id: StreamId, data: Bytes, offset: nat, rest: seq<Bytes>)
    | AwaitingHeaders(id: StreamId)
    | Reading(id: StreamId)
    | Stopped(id: StreamId, how: Turn)
    | Over

  /** A request; `suspended` on the event its phase waits for. */
  datatype Task = Task(body: seq<Bytes>, phase: Phase, suspended: bool) {
    predicate OnConnection() { suspended && (phase.Reserving? || phase.Uploading?) }
    predicate OnStream() { suspended && (phase.AwaitingHeaders? || phase.Reading?) }
    predicate Holds() { !phase.Reserving? && !phase.Over? }
  }

  datatype System = System(conn: Conn, tasks: map<TaskId, Task>)

  /** An event that is set has woken everybody who waited for it. */
  function Woken(c: Conn, task: Task): Task {
    if (task.OnConnection() && c.changed)
       || (task.OnStream() && (task.phase.id !in c.streams || c.streams[task.phase.id].changed))
    then task.(suspended := false) else task
  }

  function Settle(sys: System): System {
    sys.(tasks := map t | t in sys.tasks :: Woken(sys.conn, sys.tasks[t]))
  }

  // ------------------------------------------------------------- a task's turn

  /** A request gives up: it releases its stream, if it holds one. */
  function GiveUp(c: Conn, task: Task): (Conn, Task) {
    (if task.Holds() then Release(c, task.phase.id) else c, task.(phase := Over, suspended := false))
  }

  function ReserveTurn(c: Conn, t: TaskId, task: Task): (Conn, Task) {
    if c.failed then (c.(changed := false), task.(phase := Over))
    else if CanAdmit(c) then (Admit(c, t), task.(phase := Uploading(c.nextId, [], 0, task.body)))
    else (c.(changed := false), task.(suspended := true))
  }

  function UploadTurn(c: Conn, task: Task): (Conn, Task)
    requires task.phase.Uploading? && task.phase.id in c.streams && task.phase.offset <= |task.phase.data|
  {
    var Uploading(id, data, offset, rest) := task.phase;
    var s := c.streams[id];
    if offset < |data| then
      if c.failed || s.error then GiveUp(c.(changed := false), task)
      else
        var count := SendCount(c, s, |data| - offset);
        if count <= 0 then (c.(changed := false), task.(suspended := true))
        else (SendData(c, id, data[offset..offset + count]),
              task.(phase := Uploading(id, data, offset + count, rest)))
    else if rest != [] then (c, task.(phase := Uploading(id, rest[0], 0, rest[1..])))
    else if s.error then GiveUp(c, task)
    else (c.(streams := c.streams[id := s.(finished := true)]), task.(phase := AwaitingHeaders(id)))
  }

  function HeadersTurn(c: Conn, task: Task): (Conn, Task)
    requires task.phase.AwaitingHeaders? && task.phase.id in c.streams
  {
    var id := task.phase.id;
    var s := c.streams[id];
    if s.error then GiveUp(c, task)
    else if s.hasHeaders then (c, task.(phase := Reading(id)))
    else (c.(streams := c.streams[id := s.(changed := false)]), task.(suspended := true))
  }

  function ReadTurn(c: Conn, task: Task): (Conn, Task)
    requires task.phase.Reading? && task.phase.id in c.streams
  {
    var (c1, turn) := Iterate(c, task.phase.id);
    (c1, if turn.Wait? then task.(suspended := true)
         else if turn.Yield? then task
         else task.(phase := Stopped(task.phase.id, turn)))
  }

  /** The scheduler's and the network's choices. */
  datatype Act =
    | Start(t: TaskId, body: seq<Bytes>)
    | Run(t: TaskId)
    | Quit(t: TaskId)
    | Arrive(events: seq<Event>)
    | Break

  ghost predicate Enabled(sys: System, act: Act) {
    match act
    case Start(t, _) => t !in sys.tasks
    case Run(t) => t in sys.tasks && !sys.tasks[t].suspended && !sys.tasks[t].phase.Over? && !sys.tasks[t].phase.Stopped?
                   && (sys.tasks[t].Holds() ==> sys.tasks[t].phase.id in sys.conn.streams)
                   && (sys.tasks[t].phase.Uploading? ==> sys.tasks[t].phase.offset <= |sys.tasks[t].phase.data|)
    case Quit(t) => t in sys.tasks && !sys.tasks[t].phase.Over?
    case Arrive(events) => !sys.conn.failed && Acceptable(sys.conn, events)
    case Break => true
  }

  function RunTurn(c: Conn, t: TaskId, task: Task): (Conn, Task)
    requires task.Holds() ==> task.phase.id in c.streams
    requires task.phase.Uploading? ==> task.phase.offset <= |task.phase.data|
  {
    match task.phase
    case Reserving => ReserveTurn(c, t, task)
    case Uploading(_, _, _, _) => UploadTurn(c, task)
    case AwaitingHeaders(_) => HeadersTurn(c, task)
    case Reading(_) => ReadTurn(c, task)
    case _ => (c, task)
  }

  /** One step: an await-free piece of code, and the wakeups it causes. */
  function Step(sys: System, act: Act): System
    requires Enabled(sys, act)
  {
    match act
    case Start(t, body) => sys.(tasks := sys.tasks[t := Task(body, Reserving, false)])
    case Run(t) =>
      var (c, task) := RunTurn(sys.conn, t, sys.tasks[t]);
      Settle(System(c, sys.tasks[t := task]))
    case Quit(t) =>
      var (c, task) := GiveUp(sys.conn, sys.tasks[t]);
      Settle(System(c, sys.tasks[t := task]))
    case Arrive(events) => Settle(sys.(conn := Receive(sys.conn, events)))
    case Break => Settle(sys.(conn := Fail(sys.conn)))
  }

  function Start0(maxStreams: nat, outWindow: nat, initialWindow: nat): System {
    System(Conn(maxStreams, false, 0, 16384, initialWindow, outWindow, CONNECTION_RECEIVE_WINDOW, outWindow, 0,
                false, false, 1, map[]), map[])
  }

  ghost predicate IsRun(states: seq<System>, acts: seq<Act>) {
    && |states| == |acts| + 1
    && (exists m: nat, w: nat, i: nat :: states[0] == Start0(m, w, i))
    && forall k :: 0 <= k < |acts| ==> Enabled(states[k], acts[k]) && states[k + 1] == Step(states[k], acts[k])
  }

  // ---------------------------------------------------------------- invariant

  /** While a stream is open, its window, the buffered credit and the credit in hand are the initial window. */
  predicate Conserved(s: Stream, due: int) {
    s.inWindow + due + Credit(s.chunks) + s.inHand == STREAM_RECEIVE_WINDOW
  }

  /** The window is what the peer grants less what was sent, and no more was sent than it has granted. */
  predicate WithinCredit(s: Stream) {
    s.outWindow == s.granted - |s.uploaded| && |s.uploaded| <= s.peak && s.granted <= s.peak
  }

  predicate StreamOk(failed: bool, s: Stream) {
    && WithinCredit(s)
    && (!failed && !s.error && !s.ended ==> Conserved(s, 0) && s.inWindow >= 0)
    && s.received == s.yielded + Contents(s.chunks)
    && (failed ==> s.error || s.ended)
  }

  predicate UploadOk(s: Stream, phase: Phase, body: seq<Bytes>) {
    match phase
    case Uploading(_, data, offset, rest) =>
      offset <= |data| && !s.finished && s.uploaded + data[offset..] + Concat(rest) == Concat(body)
    case _ => s.finished && s.uploaded == Concat(body)
  }

  /** A suspended task has nothing to do now. */
  predicate Asleep(c: Conn, s: Stream, phase: Phase) {
    match phase
    case Uploading(_, data, offset, _) =>
      offset < |data| && !c.failed && !s.error && SendCount(c, s, |data| - offset) <= 0
    case AwaitingHeaders(_) => !s.hasHeaders && !s.error && !s.changed
    case Reading(_) => s.chunks == [] && !s.ended && !s.error && !s.changed && s.inHand == 0
    case _ => false
  }

  predicate TaskOk(c: Conn, t: TaskId, task: Task) {
    && (task.suspended && task.phase.Reserving? ==> !CanAdmit(c) && !c.failed)
    && (task.OnConnection() ==> !c.changed)
    && (task.suspended ==> task.phase.Reserving? || task.Holds())
    && (task.Holds() ==>
          && task.phase.id in c.streams
          && var s := c.streams[task.phase.id];
             && s.owner == t
             && UploadOk(s, task.phase, task.body)
             && (task.suspended ==> Asleep(c, s, task.phase)))
  }

  ghost predicate Windows(c: Conn) {
    && (!c.failed ==> c.inWindow == CONNECTION_RECEIVE_WINDOW)
    && c.outWindow >= 0 && c.granted == c.outWindow + c.sent
    && |c.streams| <= c.maxStreams
    && c.nextId % 2 == 1 && forall id :: id in c.streams ==> id < c.nextId && id % 2 == 1
  }

  ghost predicate StreamsOk(c: Conn) { forall id :: id in c.streams ==> StreamOk(c.failed, c.streams[id]) }

  ghost predicate TasksOk(sys: System) { forall t :: t in sys.tasks ==> TaskOk(sys.conn, t, sys.tasks[t]) }

  ghost predicate Owned(sys: System) {
    forall id :: id in sys.conn.streams ==>
      var t := sys.conn.streams[id].owner;
      t in sys.tasks && sys.tasks[t].Holds() && sys.tasks[t].phase.id == id
  }

  ghost predicate Inv(sys: System) { Windows(sys.conn) && StreamsOk(sys.conn) && TasksOk(sys) && Owned(sys) }

  // ------------------------------------------------------ a turn and the others

  /** What a turn of task `t` may do to the connection as the others see it. */
  ghost predicate Calm(c: Conn, c': Conn, t: TaskId) {
    && c'.failed == c.failed
    && (forall id :: id in c.streams && c.streams[id].owner != t ==> id in c'.streams && c'.streams[id] == c.streams[id])
    && (!c'.changed ==> c'.outWindow <= c.outWindow && c'.maxFrame == c.maxFrame && (CanAdmit(c') ==> CanAdmit(c)))
  }

  lemma OtherTaskKeeps(c: Conn, c': Conn, t: TaskId, u: TaskId, task: Task)
    requires u != t && Calm(c, c', t) && TaskOk(c, u, task)
    ensures TaskOk(c', u, Woken(c', task))
  {
    hide UploadOk, CanAdmit;
  }

  lemma WokenKeeps(c: Conn, t: TaskId, task: Task)
    requires TaskOk(c, t, task)
    ensures TaskOk(c, t, Woken(c, task))
  {
    hide CanAdmit;
  }

  /** The streams of task `t` are the one it holds. */
  ghost predicate Mine(c: Conn, t: TaskId, task: Task) {
    forall id :: id in c.streams && c.streams[id].owner == t ==> task.Holds() && task.phase.id == id
  }

  /** A turn leaves its task, the table and the windows as they must be, and the other tasks alone. */
  ghost predicate TurnOk(c: Conn, c': Conn, t: TaskId, task': Task) {
    && Windows(c') && StreamsOk(c') && TaskOk(c', t, task') && Calm(c, c', t) && Mine(c', t, task')
    && forall id :: id in c'.streams && c'.streams[id].owner != t ==> id in c.streams && c.streams[id] == c'.streams[id]
  }

  lemma GiveUpOk(c: Conn, t: TaskId, task: Task)
    requires Windows(c) && StreamsOk(c) && Mine(c, t, task)
    requires task.Holds() ==> task.phase.id in c.streams && c.streams[task.phase.id].owner == t
    ensures var (c', task') := GiveUp(c, task); TurnOk(c, c', t, task')
  {
    hide StreamOk, UploadOk, Asleep;
    if task.Holds() {
      assert (c.streams - {task.phase.id}).Keys == c.streams.Keys - {task.phase.id};
    }
  }

  lemma ReserveTurnOk(c: Conn, t: TaskId, task: Task)
    requires Windows(c) && StreamsOk(c) && Mine(c, t, task) && task.phase.Reserving? && !task.suspended
    ensures var (c', task') := ReserveTurn(c, t, task); TurnOk(c, c', t, task')
  {
    hide StreamOk, UploadOk, Admit, TurnOk;
    if c.failed || !CanAdmit(c) {
      assert TurnOk(c, c.(changed := false), t, ReserveTurn(c, t, task).1) by { NothingChanged(c, t, task); }
    } else {
      AdmitOk(c, t, task);
    }
  }

  lemma NothingChanged(c: Conn, t: TaskId, task: Task)
    requires Windows(c) && StreamsOk(c) && Mine(c, t, task) && task.phase.Reserving?
    ensures c.failed ==> TurnOk(c, c.(changed := false), t, task.(phase := Over, suspended := false))
    ensures !c.failed && !CanAdmit(c) ==> TurnOk(c, c.(changed := false), t, task.(suspended := true))
  {
    hide StreamOk, UploadOk;
  }

  /** A stream is admitted under a new number, with room for it under both limits. */
  lemma AdmitOk(c: Conn, t: TaskId, task: Task)
    requires Windows(c) && StreamsOk(c) && Mine(c, t, task) && task.phase.Reserving? && !task.suspended
    requires !c.failed && CanAdmit(c)
    ensures TurnOk(c, Admit(c, t), t, task.(phase := Uploading(c.nextId, [], 0, task.body)))
  {
    hide StreamOk, UploadOk, NewStream, Windows, Calm;
    NewStreamOk(c, t, task.body);
    AdmitKeepsTable(c, t);
  }

  lemma AdmitKeepsTable(c: Conn, t: TaskId)
    requires Windows(c) && CanAdmit(c)
    ensures Windows(Admit(c, t)) && Calm(c, Admit(c, t), t)
  {
    hide NewStream;
    var c' := Admit(c, t);
    assert c'.streams.Keys == c.streams.Keys + {c.nextId};
    assert |c'.streams| == |c'.streams.Keys| == |c.streams.Keys| + 1;
  }

  lemma NewStreamOk(c: Conn, t: TaskId, body: seq<Bytes>)
    ensures StreamOk(false, NewStream(c, t)) && NewStream(c, t).owner == t
    ensures UploadOk(NewStream(c, t), Uploading(c.nextId, [], 0, body), body)
  {
    var none: Bytes := [];
    assert none + none[0..] + Concat(body) == Concat(body);
  }

  /** Changing only the entry of the task's own stream. */
  lemma OneStreamChanged(c: Conn, c': Conn, t: TaskId, id: StreamId, task': Task)
    requires Windows(c) && StreamsOk(c) && id in c.streams && c.streams[id].owner == t
    requires forall j :: j in c.streams && c.streams[j].owner == t ==> j == id
    requires c'.streams.Keys == c.streams.Keys && (forall j :: j in c.streams && j != id ==> c'.streams[j] == c.streams[j])
    requires c'.streams[id].owner == t && StreamOk(c.failed, c'.streams[id])
    requires c'.failed == c.failed && c'.inWindow == c.inWindow && 0 <= c'.outWindow <= c.outWindow
    requires c'.granted == c'.outWindow + c'.sent && c'.maxFrame == c.maxFrame && c'.nextId == c.nextId
    requires c'.maxStreams == c.maxStreams && c'.settingsReceived == c.settingsReceived && c'.limit == c.limit
    requires task'.Holds() && task'.phase.id == id && TaskOk(c', t, task')
    ensures TurnOk(c, c', t, task')
  {
    hide StreamOk, TaskOk;
    assert |c'.streams| == |c'.streams.Keys| == |c.streams|;
  }

  lemma UploadTurnOk(c: Conn, t: TaskId, task: Task)
    requires Windows(c) && StreamsOk(c) && Mine(c, t, task) && TaskOk(c, t, task)
    requires task.phase.Uploading? && !task.suspended
    ensures var (c', task') := UploadTurn(c, task); TurnOk(c, c', t, task')
  {
    hide StreamOk, UploadOk, TurnOk, StreamsOk, SendCount, GiveUp;
    assert task.phase.offset <= |task.phase.data| by { WellPlaced(c.streams[task.phase.id], task); }
    var Uploading(id, data, offset, rest) := task.phase;
    var s := c.streams[id];
    var (c', task') := UploadTurn(c, task);
    assert StreamOk(c.failed, s) by { OneOfStreams(c, id); }
    if offset < |data| {
      if c.failed || s.error {
        GivingUpWakes(c, task);
        GiveUpOk(c, t, task);
      } else if SendCount(c, s, |data| - offset) <= 0 {
        CountIsOfTheWindows(c, c', s, |data| - offset);
        OneStreamChanged(c, c', t, id, task');
      } else {
        SendTurnOk(c, t, task);
      }
    } else if rest != [] {
      NextChunkOk(s, task);
      OneStreamChanged(c, c', t, id, task');
    } else if s.error {
      GiveUpOk(c, t, task);
    } else {
      LastChunkOk(c.failed, s, task);
      OneStreamChanged(c, c', t, id, task');
    }
  }

  lemma GivingUpWakes(c: Conn, task: Task)
    requires task.Holds()
    ensures GiveUp(c.(changed := false), task) == GiveUp(c, task)
  {
  }

  lemma CountIsOfTheWindows(c: Conn, c': Conn, s: Stream, left: nat)
    requires c'.maxFrame == c.maxFrame && c'.outWindow == c.outWindow
    ensures SendCount(c', s, left) == SendCount(c, s, left)
  {
  }

  lemma SendTurnOk(c: Conn, t: TaskId, task: Task)
    requires Windows(c) && StreamsOk(c) && Mine(c, t, task) && TaskOk(c, t, task)
    requires task.phase.Uploading? && !task.suspended && task.phase.offset < |task.phase.data|
    requires !c.failed && !c.streams[task.phase.id].error
    requires SendCount(c, c.streams[task.phase.id], |task.phase.data| - task.phase.offset) > 0
    ensures var (c', task') := UploadTurn(c, task); TurnOk(c, c', t, task')
  {
    hide StreamOk, UploadOk, TurnOk, StreamsOk, SendCount, GiveUp;
    var (c', task') := UploadTurn(c, task);
    OneOfStreams(c, task.phase.id);
    SendOk(c, task);
    OneStreamChanged(c, c', t, task.phase.id, task');
  }

  lemma WellPlaced(s: Stream, task: Task)
    requires task.phase.Uploading? && UploadOk(s, task.phase, task.body)
    ensures task.phase.offset <= |task.phase.data|
  {
  }

  lemma OneOfStreams(c: Conn, id: StreamId)
    requires StreamsOk(c) && id in c.streams
    ensures StreamOk(c.failed, c.streams[id])
  {
  }

  /** Sending a piece moves it from what is to be uploaded to what has been, within both windows. */
  lemma SendOk(c: Conn, task: Task)
    requires task.phase.Uploading? && task.phase.id in c.streams
    requires UploadOk(c.streams[task.phase.id], task.phase, task.body) && StreamOk(c.failed, c.streams[task.phase.id])
    requires SendCount(c, c.streams[task.phase.id], |task.phase.data| - task.phase.offset) > 0
    ensures var Uploading(id, data, offset, rest) := task.phase;
            var count := SendCount(c, c.streams[id], |data| - offset);
            && 0 < count <= |data| - offset
            && var c' := SendData(c, id, data[offset..offset + count]);
               && UploadOk(c'.streams[id], Uploading(id, data, offset + count, rest), task.body)
               && StreamOk(c.failed, c'.streams[id])
               && c'.outWindow >= 0 && c'.streams[id].outWindow >= 0
  {
    var Uploading(id, data, offset, rest) := task.phase;
    var s := c.streams[id];
    var count := SendCount(c, s, |data| - offset);
    assert data[offset..] == data[offset..offset + count] + data[offset + count..];
    assert s.uploaded + data[offset..] == s.uploaded + data[offset..offset + count] + data[offset + count..];
  }

  lemma NextChunkOk(s: Stream, task: Task)
    requires task.phase.Uploading? && UploadOk(s, task.phase, task.body)
    requires task.phase.offset == |task.phase.data| && task.phase.rest != []
    ensures UploadOk(s, Uploading(task.phase.id, task.phase.rest[0], 0, task.phase.rest[1..]), task.body)
  {
    var Uploading(id, data, offset, rest) := task.phase;
    assert rest[0][0..] == rest[0] && data[offset..] == [];
    assert s.uploaded + data[offset..] + Concat(rest) == s.uploaded + rest[0][0..] + Concat(rest[1..]);
  }

  lemma LastChunkOk(failed: bool, s: Stream, task: Task)
    requires task.phase.Uploading? && UploadOk(s, task.phase, task.body) && StreamOk(failed, s)
    requires task.phase.offset == |task.phase.data| && task.phase.rest == []
    ensures UploadOk(s.(finished := true), AwaitingHeaders(task.phase.id), task.body)
    ensures StreamOk(failed, s.(finished := true))
  {
    var Uploading(id, data, offset, rest) := task.phase;
    assert s.uploaded + data[offset..] + Concat(rest) == s.uploaded;
  }

  lemma UploadIsOver(s: Stream, s': Stream, phase: Phase, phase': Phase, body: seq<Bytes>)
    requires !phase.Uploading? && !phase'.Uploading? && UploadOk(s, phase, body)
    requires s'.uploaded == s.uploaded && s'.finished == s.finished
    ensures UploadOk(s', phase', body)
  {
  }

  lemma HeadersTurnOk(c: Conn, t: TaskId, task: Task)
    requires Windows(c) && StreamsOk(c) && Mine(c, t, task) && TaskOk(c, t, task)
    requires task.phase.AwaitingHeaders? && !task.suspended
    ensures var (c', task') := HeadersTurn(c, task); TurnOk(c, c', t, task')
  {
    hide TurnOk, StreamsOk, GiveUp, UploadOk;
    var id := task.phase.id;
    OneOfStreams(c, id);
    if c.streams[id].error {
      GiveUpOk(c, t, task);
    } else {
      var (c', task') := HeadersTurn(c, task);
      UploadIsOver(c.streams[id], c'.streams[id], task.phase, task'.phase, task.body);
      OneStreamChanged(c, c', t, id, task');
    }
  }

  lemma ReadTurnOk(c: Conn, t: TaskId, task: Task)
    requires Windows(c) && StreamsOk(c) && Mine(c, t, task) && TaskOk(c, t, task)
    requires task.phase.Reading? && !task.suspended
    ensures var (c', task') := ReadTurn(c, task); TurnOk(c, c', t, task')
  {
    hide TurnOk, StreamsOk;
    var id := task.phase.id;
    OneOfStreams(c, id);
    IterateOk(c, id);
    var (c', task') := ReadTurn(c, task);
    assert TaskOk(c', t, task') by { hide Iterate, StreamOk; }
    OneStreamChanged(c, c', t, id, task') by { hide Iterate, StreamOk, TaskOk; }
  }

  lemma GiveBackOk(c: Conn, id: StreamId)
    requires id in c.streams && StreamOk(c.failed, c.streams[id])
    ensures var c', s := GiveBack(c, id), c.streams[id];
            && (exists w: int :: c' == c.(streams := c.streams[id := s.(inHand := 0, inWindow := w)]))
            && StreamOk(c.failed, c'.streams[id])
  {
    var s := GiveBack(c, id).streams[id];
    assert GiveBack(c, id) == c.(streams := c.streams[id := c.streams[id].(inHand := 0, inWindow := s.inWindow)]);
  }

  /** A turn of the iteration keeps the accounts of its stream, and waits only with nothing to give. */
  lemma IterateOk(c: Conn, id: StreamId)
    requires id in c.streams && StreamOk(c.failed, c.streams[id])
    ensures var (c', turn) := Iterate(c, id);
            && c'.streams.Keys == c.streams.Keys && c' == c.(streams := c'.streams)
            && (forall j :: j in c.streams && j != id ==> c'.streams[j] == c.streams[j])
            && var s, s' := c.streams[id], c'.streams[id];
               && s'.owner == s.owner && s'.finished == s.finished && s'.uploaded == s.uploaded
               && StreamOk(c.failed, s')
               && (turn.Wait? ==> s'.chunks == [] && !s'.ended && !s'.error && !s'.changed && s'.inHand == 0)
               && (turn.Finish? ==> s'.yielded == s'.received && s'.ended && !s'.error)
               && (turn.Yield? ==> s'.yielded == s.yielded + turn.data && s'.yielded <= s'.received)
               && (!turn.Yield? ==> s'.yielded == s.yielded)
  {
    hide GiveBack, StreamOk;
    GiveBackOk(c, id);
    TakeOk(GiveBack(c, id), id);
  }

  /** The same for what follows after the credit in hand is back. */
  lemma TakeOk(c: Conn, id: StreamId)
    requires id in c.streams && StreamOk(c.failed, c.streams[id]) && c.streams[id].inHand == 0
    ensures var s := c.streams[id].(changed := false);
            && StreamOk(c.failed, s) && s.yielded <= s.received
            && (s.chunks == [] ==> s.yielded == s.received)
            && (s.chunks != [] ==>
                  var taken := s.(chunks := s.chunks[1..], inHand := s.chunks[0].credit, yielded := s.yielded + s.chunks[0].data);
                  StreamOk(c.failed, taken) && taken.yielded <= taken.received)
  {
    var s := c.streams[id];
    if s.chunks != [] {
      assert s.yielded + (s.chunks[0].data + Contents(s.chunks[1..])) == s.yielded + s.chunks[0].data + Contents(s.chunks[1..]);
    }
  }

  lemma SettledKeeps(sys: System, c': Conn, t: TaskId, task': Task)
    requires Inv(sys) && TurnOk(sys.conn, c', t, task')
    ensures Inv(Settle(System(c', sys.tasks[t := task'])))
  {
    hide Windows, StreamsOk, TaskOk, Calm, Woken;
    var after := System(c', sys.tasks[t := task']);
    forall u | u in after.tasks ensures TaskOk(c', u, Woken(c', after.tasks[u])) {
      if u == t {
        WokenKeeps(c', t, task');
      } else {
        OtherTaskKeeps(sys.conn, c', t, u, sys.tasks[u]);
      }
    }
    forall id | id in c'.streams
      ensures var u := c'.streams[id].owner;
              u in after.tasks && Woken(c', after.tasks[u]).Holds() && Woken(c', after.tasks[u]).phase.id == id
    {
      var u := c'.streams[id].owner;
      WokenSame(c', after.tasks[u]);
      assert u != t ==> sys.conn.streams[id].owner == u;
    }
  }

  lemma WokenSame(c: Conn, task: Task)
    ensures Woken(c, task).phase == task.phase && Woken(c, task).body == task.body
  {
  }

  // -------------------------------------------------------- a batch of events

  /** What handling events may do to one stream, as its tasks see it. */
  predicate SameTransfer(s: Stream, s': Stream) {
    && s'.owner == s.owner && s'.uploaded == s.uploaded && s'.finished == s.finished
    && s'.inHand == s.inHand && s'.yielded == s.yielded
    && (!s'.changed ==> !s.changed && s'.chunks == s.chunks && s'.hasHeaders == s.hasHeaders
                        && s'.ended == s.ended && s'.error == s.error)
  }

  /** Without a wakeup, nothing has changed that a task on the connection waits for. */
  ghost predicate Quiet(c: Conn, c': Conn) {
    && c'.streams.Keys == c.streams.Keys && c'.maxStreams == c.maxStreams && c'.nextId == c.nextId
    && (forall id :: id in c.streams ==> SameTransfer(c.streams[id], c'.streams[id]))
    && (!c'.changed ==>
          && !c.changed && c'.failed == c.failed && c'.outWindow == c.outWindow && c'.maxFrame == c.maxFrame
          && c'.settingsReceived == c.settingsReceived && c'.limit == c.limit
          && forall id :: id in c.streams ==>
               c'.streams[id].error == c.streams[id].error && c'.streams[id].outWindow == c.streams[id].outWindow)
  }

  lemma QuietTwice(a: Conn, b: Conn, c: Conn)
    requires Quiet(a, b) && Quiet(b, c)
    ensures Quiet(a, c)
  {
  }

  lemma TaskKeeps(c: Conn, c': Conn, t: TaskId, task: Task)
    requires Quiet(c, c') && TaskOk(c, t, task)
    ensures TaskOk(c', t, Woken(c', task))
  {
    assert |c'.streams| == |c'.streams.Keys| == |c.streams|;
    if task.Holds() {
      var s, s' := c.streams[task.phase.id], c'.streams[task.phase.id];
      assert SameTransfer(s, s');
      SameUpload(s, s', task);
    }
    hide UploadOk;
  }

  lemma SameUpload(s: Stream, s': Stream, task: Task)
    requires s'.uploaded == s.uploaded && s'.finished == s.finished && UploadOk(s, task.phase, task.body)
    ensures UploadOk(s', task.phase, task.body)
  {
  }

  lemma FailIsQuiet(c: Conn)
    ensures Quiet(c, Fail(c))
  {
  }

  lemma HandleIsQuiet(c: Conn, e: Event, terminated: bool)
    ensures Quiet(c, Handle(c, e, terminated))
  {
    hide SameTransfer, OnStream;
    forall id | id in c.streams ensures SameTransfer(c.streams[id], c.streams[id]) { SameHere(c.streams[id]); }
    if Addressed(e) && e.id in c.streams {
      OnStreamTransfers(c, c.streams[e.id], e, terminated);
      assert c.streams.Keys + {e.id} == c.streams.Keys;
    }
  }

  lemma SameHere(s: Stream)
    ensures SameTransfer(s, s)
  {
  }

  lemma OnStreamTransfers(c: Conn, s: Stream, e: Event, terminated: bool)
    requires Addressed(e)
    ensures var s' := OnStream(c, s, e, terminated);
            SameTransfer(s, s') && (!e.StreamReset? ==> s'.error == s.error) && s'.outWindow == s.outWindow
  {
  }

  lemma {:induction false} HandleAllIsQuiet(c: Conn, events: seq<Event>, terminated: bool)
    ensures Quiet(c, HandleAll(c, events, terminated))
    decreases |events|
  {
    hide Quiet, Handle, Fail;
    if events == [] {
      QuietHere(c);
    } else if events[0].ConnectionTerminated? {
      FailIsQuiet(c);
    } else {
      HandleIsQuiet(c, events[0], terminated);
      HandleAllIsQuiet(Handle(c, events[0], terminated), events[1..], terminated);
      QuietTwice(c, Handle(c, events[0], terminated), HandleAll(c, events, terminated));
    }
  }

  lemma QuietHere(c: Conn)
    ensures Quiet(c, c)
  {
  }

  /** Events that widen a window or change a limit. */
  predicate Widens(e: Event) { e.SettingsChanged? || e.StreamWindowUpdated? || e.ConnectionWindowUpdated? }

  /** If the loop ends without a wakeup, h2 widened nothing. */
  lemma {:induction false} WideningWakes(c: Conn, events: seq<Event>, terminated: bool)
    ensures !HandleAll(c, events, terminated).changed && !c.failed ==> forall e :: e in events ==> !Widens(e)
    decreases |events|
  {
    if events != [] && !events[0].ConnectionTerminated? {
      var c1 := Handle(c, events[0], terminated);
      WideningWakes(c1, events[1..], terminated);
      HandleAllIsQuiet(c1, events[1..], terminated);
    }
  }

  lemma {:induction false} NothingWidened(events: seq<Event>)
    requires forall e :: e in events ==> !Widens(e)
    ensures Granted(events) == 0 && LastSettings(events) == None
    ensures forall id: StreamId, window: int, initial: nat :: WindowAfter(events, id, window, initial) == window
  {
    if events != [] {
      assert events[0] in events && !Widens(events[0]);
      NothingWidened(events[1..]);
    }
  }

  lemma SettingsAreSettings(events: seq<Event>)
    ensures LastSettings(events).Some? ==> LastSettings(events).value.SettingsChanged?
  {
  }

  /** Taking in the frames moves windows only. */
  lemma AbsorbMovesWindows(c: Conn, events: seq<Event>)
    ensures var c1 := Absorb(c, events);
            && c1.streams.Keys == c.streams.Keys && c1.maxStreams == c.maxStreams && c1.nextId == c.nextId
            && c1.failed == c.failed && c1.changed == c.changed && c1.settingsReceived == c.settingsReceived
            && (forall id :: id in c.streams ==>
                 SameTransfer(c.streams[id], c1.streams[id]) && c1.streams[id].error == c.streams[id].error)
            && ((forall e :: e in events ==> !Widens(e)) ==>
                 && c1.outWindow == c.outWindow && c1.maxFrame == c.maxFrame && c1.limit == c.limit
                 && forall id :: id in c.streams ==> c1.streams[id].outWindow == c.streams[id].outWindow)
  {
    hide WindowAfter, LastSettings, Granted, Used, UsedInAll;
    SettingsAreSettings(events);
    if forall e :: e in events ==> !Widens(e) {
      NothingWidened(events);
    }
  }

  lemma ReceiveIsQuiet(c: Conn, events: seq<Event>)
    requires !c.failed
    ensures Quiet(c, Receive(c, events))
  {
    hide HandleAll, Absorb;
    AbsorbMovesWindows(c, events);
    HandleAllIsQuiet(Absorb(c, events), events, ConnectionTerminated in events);
    WideningWakes(Absorb(c, events), events, ConnectionTerminated in events);
  }

  // ------------------------------------------------------------------- credit

  /** In the middle of a batch: the credit of the events still to be handled is out of the windows already. */
  ghost predicate Midway(c: Conn, events: seq<Event>, terminated: bool) {
    && !c.failed
    && (!terminated ==> c.inWindow + UsedInAll(events) == CONNECTION_RECEIVE_WINDOW)
    && forall id :: id in c.streams ==>
         var s := c.streams[id];
         && WithinCredit(s) && s.received == s.yielded + Contents(s.chunks)
         && (!terminated && !s.error && !s.ended ==> Conserved(s, Used(events, id)) && s.inWindow >= 0)
  }

  lemma {:induction false} ContentsAppend(chunks: seq<Chunk>, more: Chunk)
    ensures Contents(chunks + [more]) == Contents(chunks) + more.data
    ensures Credit(chunks + [more]) == Credit(chunks) + more.credit
  {
    if chunks == [] {
      assert more.data + Contents([]) == more.data;
    } else {
      assert (chunks + [more])[1..] == chunks[1..] + [more];
      ContentsAppend(chunks[1..], more);
      assert chunks[0].data + (Contents(chunks[1..]) + more.data) == (chunks[0].data + Contents(chunks[1..])) + more.data;
    }
  }

  lemma OnStreamCredit(c: Conn, s: Stream, e: Event, terminated: bool, due: nat)
    requires Addressed(e) && !c.failed && WithinCredit(s) && s.received == s.yielded + Contents(s.chunks)
    requires !terminated && !s.error && !s.ended ==>
               Conserved(s, due + if e.DataReceived? then e.credit else 0) && s.inWindow >= 0
    ensures var s' := OnStream(c, s, e, terminated);
            && WithinCredit(s') && s'.received == s'.yielded + Contents(s'.chunks)
            && (!terminated && !s'.error && !s'.ended ==> Conserved(s', due) && s'.inWindow >= 0)
  {
    if e.DataReceived? && e.data != [] {
      ContentsAppend(s.chunks, Chunk(e.data, e.credit));
      assert s.yielded + (Contents(s.chunks) + e.data) == s.yielded + Contents(s.chunks) + e.data;
    }
  }

  lemma HandleKeepsMidway(c: Conn, e: Event, rest: seq<Event>, terminated: bool)
    requires Midway(c, [e] + rest, terminated) && !e.ConnectionTerminated?
    requires e.DataReceived? ==> |e.data| <= e.credit
    ensures Midway(Handle(c, e, terminated), rest, terminated)
  {
    hide Conserved, OnStream;
    assert ([e] + rest)[1..] == rest;
    var c' := Handle(c, e, terminated);
    forall id | id in c'.streams
      ensures var s := c'.streams[id];
              && WithinCredit(s) && s.received == s.yielded + Contents(s.chunks)
              && (!terminated && !s.error && !s.ended ==> Conserved(s, Used(rest, id)) && s.inWindow >= 0)
    {
      assert id in c.streams;
      if Addressed(e) && e.id == id {
        OnStreamCredit(c, c.streams[id], e, terminated, Used(rest, id));
      }
    }
  }

  lemma {:induction false} HandleAllKeepsCredit(c: Conn, events: seq<Event>, terminated: bool)
    requires Midway(c, events, terminated) && (ConnectionTerminated in events <==> terminated)
    requires forall e :: e in events && e.DataReceived? ==> |e.data| <= e.credit
    ensures var c' := HandleAll(c, events, terminated);
            StreamsOk(c') && (c'.failed <==> terminated) && (!c'.failed ==> c'.inWindow == CONNECTION_RECEIVE_WINDOW)
    decreases |events|
  {
    hide Handle, Conserved;
    if events == [] {
      NothingDue(c);
    } else if !events[0].ConnectionTerminated? {
      assert events == [events[0]] + events[1..];
      HandleKeepsMidway(c, events[0], events[1..], terminated);
      HandleAllKeepsCredit(Handle(c, events[0], terminated), events[1..], terminated);
    }
  }

  lemma NothingDue(c: Conn)
    requires Midway(c, [], false)
    ensures StreamsOk(c) && c.inWindow == CONNECTION_RECEIVE_WINDOW
  {
  }

  /** The same events move the window and the credit granted by the same amount. */
  lemma {:induction false} WindowAfterShifts(events: seq<Event>, id: StreamId, window: int, more: int, initial: nat)
    ensures WindowAfter(events, id, window + more, initial) == WindowAfter(events, id, window, initial) + more
  {
    if events != [] {
      match events[0]
      case SettingsChanged(_, _, w) => WindowAfterShifts(events[1..], id, window + w - initial, more, w);
      case StreamWindowUpdated(i, amount) =>
        WindowAfterShifts(events[1..], id, if i == id then window + amount else window, more, initial);
      case _ => WindowAfterShifts(events[1..], id, window, more, initial);
    }
  }

  lemma AbsorbedCredit(c: Conn, events: seq<Event>, id: StreamId)
    requires id in c.streams && WithinCredit(c.streams[id])
    ensures WithinCredit(Absorb(c, events).streams[id])
  {
    hide LastSettings, Granted, Used, UsedInAll, WindowAfter;
    SettingsAreSettings(events);
    WindowAfterShifts(events, id, c.streams[id].outWindow, |c.streams[id].uploaded|, c.initialWindow);
  }

  lemma AbsorbIsMidway(c: Conn, events: seq<Event>)
    requires !c.failed && Windows(c) && StreamsOk(c) && Acceptable(c, events)
    ensures Midway(Absorb(c, events), events, ConnectionTerminated in events)
  {
    hide WindowAfter, LastSettings, Granted, Used, UsedInAll, WithinCredit;
    SettingsAreSettings(events);
    forall id | id in c.streams ensures WithinCredit(Absorb(c, events).streams[id]) {
      AbsorbedCredit(c, events, id);
    }
  }

  lemma {:induction false} HandleAllKeepsTable(c: Conn, events: seq<Event>, terminated: bool)
    ensures var c' := HandleAll(c, events, terminated);
            && c'.outWindow == c.outWindow && c'.granted == c.granted && c'.sent == c.sent
    decreases |events|
  {
    if events != [] && !events[0].ConnectionTerminated? {
      HandleAllKeepsTable(Handle(c, events[0], terminated), events[1..], terminated);
    }
  }

  lemma ReceiveKeeps(c: Conn, events: seq<Event>)
    requires !c.failed && Windows(c) && StreamsOk(c) && Acceptable(c, events)
    ensures Windows(Receive(c, events)) && StreamsOk(Receive(c, events))
  {
    hide HandleAll, WindowAfter, LastSettings, Used, UsedInAll, StreamsOk, Midway, Quiet;
    var terminated := ConnectionTerminated in events;
    SettingsAreSettings(events);
    AbsorbIsMidway(c, events);
    HandleAllKeepsCredit(Absorb(c, events), events, terminated);
    HandleAllKeepsTable(Absorb(c, events), events, terminated);
    SameTable(c, events);
  }

  lemma SameTable(c: Conn, events: seq<Event>)
    requires !c.failed
    ensures var c' := Receive(c, events);
            && c'.streams.Keys == c.streams.Keys && |c'.streams| == |c.streams|
            && c'.maxStreams == c.maxStreams && c'.nextId == c.nextId
  {
    hide Receive;
    ReceiveIsQuiet(c, events);
    assert |Receive(c, events).streams| == |Receive(c, events).streams.Keys|;
  }

  lemma FailKeeps(c: Conn)
    requires Windows(c) && StreamsOk(c)
    ensures Windows(Fail(c)) && StreamsOk(Fail(c))
  {
    assert Fail(c).streams.Keys == c.streams.Keys;
    assert |Fail(c).streams| == |Fail(c).streams.Keys|;
  }

  /** When the connection changes on its own. */
  lemma QuietKeeps(sys: System, c': Conn)
    requires Inv(sys) && Quiet(sys.conn, c') && Windows(c') && StreamsOk(c')
    ensures Inv(Settle(sys.(conn := c')))
  {
    hide Windows, StreamsOk, TaskOk, Woken;
    forall u | u in sys.tasks ensures TaskOk(c', u, Woken(c', sys.tasks[u])) {
      hide Quiet;
      TaskKeeps(sys.conn, c', u, sys.tasks[u]);
    }
    forall id | id in c'.streams
      ensures var u := c'.streams[id].owner;
              u in sys.tasks && Woken(c', sys.tasks[u]).Holds() && Woken(c', sys.tasks[u]).phase.id == id
    {
      assert SameTransfer(sys.conn.streams[id], c'.streams[id]);
      WokenSame(c', sys.tasks[c'.streams[id].owner]);
    }
  }
}
