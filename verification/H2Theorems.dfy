/**
  What holds in every state of every run of the HTTP/2 connection.
  */
module H2Theorems {
  import opened Common
  import opened H2Streams
  import opened H2Safety

  lemma TaskIsMine(sys: System, t: TaskId)
    requires Inv(sys) && t in sys.tasks
    ensures Mine(sys.conn, t, sys.tasks[t]) && TaskOk(sys.conn, t, sys.tasks[t])
  {
    hide Windows, StreamsOk, TaskOk;
  }

  /** The guards that make a turn well defined exclude no runnable task. */
  lemma RunnableTasksCanRun(sys: System, t: TaskId)
    requires Inv(sys) && t in sys.tasks
    requires !sys.tasks[t].suspended && !sys.tasks[t].phase.Over? && !sys.tasks[t].phase.Stopped?
    ensures Enabled(sys, Run(t))
  {
    hide Windows, StreamsOk;
    TaskIsMine(sys, t);
  }

  lemma RunKeeps(sys: System, t: TaskId)
    requires Inv(sys) && Enabled(sys, Run(t))
    ensures Inv(Step(sys, Run(t)))
  {
    hide Windows, StreamsOk, TasksOk, Owned, TurnOk, Mine, TaskOk, Settle;
    TaskIsMine(sys, t);
    var c, task := sys.conn, sys.tasks[t];
    var (c', task') := RunTurn(c, t, task);
    assert TurnOk(c, c', t, task') by {
      hide Inv, Step;
      if task.phase.Reserving? {
        ReserveTurnOk(c, t, task);
      } else if task.phase.Uploading? {
        UploadTurnOk(c, t, task);
      } else if task.phase.AwaitingHeaders? {
        HeadersTurnOk(c, t, task);
      } else {
        ReadTurnOk(c, t, task);
      }
    }
    SettledKeeps(sys, c', t, task');
  }

  lemma StartKeeps(sys: System, t: TaskId, body: seq<Bytes>)
    requires Inv(sys) && Enabled(sys, Start(t, body))
    ensures Inv(Step(sys, Start(t, body)))
  {
    hide Windows, StreamsOk, CanAdmit;
  }

  lemma QuitKeeps(sys: System, t: TaskId)
    requires Inv(sys) && Enabled(sys, Quit(t))
    ensures Inv(Step(sys, Quit(t)))
  {
    hide Windows, StreamsOk, TasksOk, Owned, TurnOk, Mine, Settle;
    var task := sys.tasks[t];
    TaskIsMine(sys, t);
    GiveUpOk(sys.conn, t, task);
    var (c', task') := GiveUp(sys.conn, task);
    SettledKeeps(sys, c', t, task');
  }

  lemma StepKeeps(sys: System, act: Act)
    requires Inv(sys) && Enabled(sys, act)
    ensures Inv(Step(sys, act))
  {
    hide Windows, StreamsOk, TasksOk, Owned, Settle, Receive, Fail, RunTurn, GiveUp;
    match act
    case Start(t, body) => StartKeeps(sys, t, body);
    case Run(t) => RunKeeps(sys, t);
    case Quit(t) => QuitKeeps(sys, t);
    case Arrive(events) =>
      ReceiveIsQuiet(sys.conn, events);
      ReceiveKeeps(sys.conn, events);
      QuietKeeps(sys, Receive(sys.conn, events));
    case Break =>
      FailIsQuiet(sys.conn);
      FailKeeps(sys.conn);
      QuietKeeps(sys, Fail(sys.conn));
  }

  lemma {:induction false} RunsKeep(states: seq<System>, acts: seq<Act>, k: nat)
    requires IsRun(states, acts) && k < |states|
    ensures Inv(states[k])
  {
    hide Step, Enabled;
    if k == 0 {
      Begins(states[0]);
    } else {
      RunsKeep(states, acts, k - 1);
      StepKeeps(states[k - 1], acts[k - 1]);
      assert states[k - 1 + 1] == Step(states[k - 1], acts[k - 1]);
    }
  }

  lemma Begins(sys: System)
    requires exists m: nat, w: nat, i: nat :: sys == Start0(m, w, i)
    ensures Inv(sys)
  {
  }

  // ----------------------------------------------------------------- theorems

  /**
    No wakeup is lost: in every state of every run, whoever sleeps has nothing
    to do. A request waiting for a stream could not get one, an upload waiting
    for credit has none, a reader waiting for data has none to take; and none
    of them sleeps over an error.
    */
  lemma NoLostWakeup(states: seq<System>, acts: seq<Act>, k: nat, t: TaskId)
    requires IsRun(states, acts) && k < |states| && t in states[k].tasks && states[k].tasks[t].suspended
    ensures var c, task := states[k].conn, states[k].tasks[t];
            match task.phase {
              case Reserving => !c.failed && !(c.settingsReceived && |c.streams| < c.maxStreams && |c.streams| < c.limit)
              case Uploading(id, data, offset, _) =>
                && !c.failed && id in c.streams && !c.streams[id].error && offset < |data|
                && (c.outWindow <= 0 || c.streams[id].outWindow <= 0 || c.maxFrame == 0)
              case AwaitingHeaders(id) => id in c.streams && !c.streams[id].hasHeaders && !c.streams[id].error
              case Reading(id) =>
                id in c.streams && c.streams[id].chunks == [] && !c.streams[id].ended && !c.streams[id].error
              case _ => false
            }
  {
    hide Windows, StreamsOk, Owned, IsRun;
    RunsKeep(states, acts, k);
    TaskIsMine(states[k], t);
  }

  /** Step `act` gives a request its stream: its turn comes while there is room. */
  ghost predicate Admits(sys: System, act: Act) {
    && act.Run? && Enabled(sys, act) && sys.tasks[act.t].phase.Reserving?
    && !sys.conn.failed && sys.conn.settingsReceived
    && |sys.conn.streams| < sys.conn.maxStreams && |sys.conn.streams| < sys.conn.limit
  }

  /**
    Safe admission: never more streams than the limit, each with its own
    number; a new one only while there is room under the peer's limit as well,
    under a number above all numbers in the table.
    */
  lemma AdmissionIsSafe(states: seq<System>, acts: seq<Act>, k: nat)
    requires IsRun(states, acts) && k < |acts|
    ensures var c, c' := states[k].conn, states[k + 1].conn;
            && |c.streams| <= c.maxStreams
            && (forall id :: id in c'.streams && id !in c.streams ==> Admits(states[k], acts[k]) && id == c.nextId)
            && (Admits(states[k], acts[k]) ==>
                  && |c'.streams| <= c.limit && |c'.streams| <= c.maxStreams
                  && c.nextId in c'.streams && c'.streams[c.nextId].owner == acts[k].t
                  && c.nextId % 2 == 1 && forall id :: id in c.streams ==> id < c.nextId)
  {
    hide StreamsOk, TasksOk, Owned, IsRun, Iterate, SendData, Receive;
    AStep(states, acts, k);
    RunsKeep(states, acts, k);
    var sys := states[k];
    match acts[k]
    case Start(_, _) =>
    case Quit(_) =>
    case Break =>
    case Arrive(events) => SameTable(sys.conn, events);
    case Run(t) => RunAdmits(sys, t);
  }

  lemma RunLength(states: seq<System>, acts: seq<Act>)
    requires IsRun(states, acts)
    ensures |states| == |acts| + 1
  {
  }

  lemma AStep(states: seq<System>, acts: seq<Act>, k: nat)
    requires IsRun(states, acts) && k < |acts|
    ensures |states| == |acts| + 1 && Enabled(states[k], acts[k]) && states[k + 1] == Step(states[k], acts[k])
  {
  }

  lemma RunAdmits(sys: System, t: TaskId)
    requires Inv(sys) && Enabled(sys, Run(t))
    ensures var c, c' := sys.conn, Step(sys, Run(t)).conn;
            if Admits(sys, Run(t)) then c' == Admit(c, t) && |c'.streams| == |c.streams| + 1
            else c'.streams.Keys <= c.streams.Keys
  {
    hide StreamsOk, TasksOk, Owned, StreamOk, GiveBack;
    var c, task := sys.conn, sys.tasks[t];
    if task.phase.Reserving? {
      assert Admit(c, t).streams.Keys == c.streams.Keys + {c.nextId};
    } else if task.phase.Reading? {
      GiveBackTable(c, task.phase.id);
    }
  }

  lemma GiveBackTable(c: Conn, id: StreamId)
    requires id in c.streams
    ensures GiveBack(c, id).streams.Keys == c.streams.Keys
  {
  }

  /** Numbers only grow: a later request never gets an earlier number. */
  lemma {:induction false} NumbersOnlyGrow(states: seq<System>, acts: seq<Act>, j: nat, k: nat)
    requires IsRun(states, acts) && j <= k < |states|
    ensures states[j].conn.nextId <= states[k].conn.nextId
    ensures j < k && Admits(states[j], acts[j]) ==> states[j].conn.nextId < states[k].conn.nextId
  {
    hide Step, Enabled, IsRun, Inv;
    if j < k {
      RunLength(states, acts);
      NumbersOnlyGrow(states, acts, j, k - 1);
      RunsKeep(states, acts, k - 1);
      AStep(states, acts, k - 1);
      OneStepGrows(states[k - 1], acts[k - 1]);
    }
  }

  lemma OneStepGrows(sys: System, act: Act)
    requires Inv(sys) && Enabled(sys, act)
    ensures Step(sys, act).conn.nextId == sys.conn.nextId + if Admits(sys, act) then 2 else 0
  {
    hide Windows, StreamsOk, TasksOk, Owned, Receive;
    match act
    case Arrive(events) => SameTable(sys.conn, events);
    case _ =>
  }

  /**
    Every upload sends its own body, in order: at any time what has been sent
    on a stream is a beginning of the body, and once the request waits for its
    answer it is the whole body and the stream is finished. In all, no more
    DATA has been sent than the peer has granted.
    */
  lemma UploadsAreFaithful(states: seq<System>, acts: seq<Act>, k: nat, t: TaskId)
    requires IsRun(states, acts) && k < |states| && t in states[k].tasks && states[k].tasks[t].Holds()
    ensures var c, task := states[k].conn, states[k].tasks[t];
            && task.phase.id in c.streams
            && var s := c.streams[task.phase.id];
               && s.owner == t
               && s.uploaded <= Concat(task.body)
               && s.finished == !task.phase.Uploading?
               && (s.finished ==> s.uploaded == Concat(task.body))
    ensures states[k].conn.sent <= states[k].conn.granted
  {
    hide StreamsOk, Owned, CanAdmit, IsRun, Asleep;
    RunsKeep(states, acts, k);
    TaskIsMine(states[k], t);
    var task := states[k].tasks[t];
    if task.phase.Uploading? {
      var s := states[k].conn.streams[task.phase.id];
      assert s.uploaded + task.phase.data[task.phase.offset..] + Concat(task.phase.rest)
          == s.uploaded + (task.phase.data[task.phase.offset..] + Concat(task.phase.rest));
    }
  }

  /**
    No stream sends beyond its own credit either: its window is what the peer
    grants less what was sent, and no more was sent than was granted at some
    time. The peer may take credit back by its settings after it was used; a
    step that sends on a stream always ends within what is granted then.
    */
  lemma StreamsStayWithinCredit(states: seq<System>, acts: seq<Act>, k: nat, id: StreamId)
    requires IsRun(states, acts) && k < |states| && id in states[k].conn.streams
    ensures var s := states[k].conn.streams[id];
            s.outWindow == s.granted - |s.uploaded| && |s.uploaded| <= s.peak
    ensures k < |acts| && id in states[k + 1].conn.streams ==>
              var s, s' := states[k].conn.streams[id], states[k + 1].conn.streams[id];
              && s.uploaded <= s'.uploaded
              && (s'.uploaded != s.uploaded ==> |s'.uploaded| <= s'.granted == s.granted)
  {
    hide Windows, TasksOk, Owned, IsRun, Enabled, Step;
    RunsKeep(states, acts, k);
    OneOfStreams(states[k].conn, id);
    if k < |acts| {
      AStep(states, acts, k);
      if id in states[k + 1].conn.streams {
        OneStepSends(states[k], acts[k], id);
      }
    }
  }

  lemma OneStepSends(sys: System, act: Act, id: StreamId)
    requires Inv(sys) && Enabled(sys, act) && id in sys.conn.streams && id in Step(sys, act).conn.streams
    ensures var s, s' := sys.conn.streams[id], Step(sys, act).conn.streams[id];
            && s.uploaded <= s'.uploaded
            && (s'.uploaded != s.uploaded ==> |s'.uploaded| <= s'.granted == s.granted)
  {
    hide Windows, StreamsOk, Owned, RunTurn, Receive;
    match act
    case Arrive(events) =>
      ReceiveIsQuiet(sys.conn, events);
      assert SameTransfer(sys.conn.streams[id], Receive(sys.conn, events).streams[id]);
    case Run(t) => OneTurnSends(sys, t, id);
    case _ =>
  }

  lemma OneTurnSends(sys: System, t: TaskId, id: StreamId)
    requires Inv(sys) && Enabled(sys, Run(t))
    requires id in sys.conn.streams && id in RunTurn(sys.conn, t, sys.tasks[t]).0.streams
    ensures var s, s' := sys.conn.streams[id], RunTurn(sys.conn, t, sys.tasks[t]).0.streams[id];
            && s.uploaded <= s'.uploaded
            && (s'.uploaded != s.uploaded ==> |s'.uploaded| <= s'.granted == s.granted)
  {
    hide StreamsOk, TasksOk, Owned, Iterate, SendData, StreamOk, UploadOk, Asleep;
    var c, task := sys.conn, sys.tasks[t];
    TaskIsMine(sys, t);
    if task.phase.Uploading? {
      OneUploadSends(c, t, task, id);
    } else if task.phase.Reading? {
      OneOfStreams(c, task.phase.id);
      IterateOk(c, task.phase.id);
    }
  }

  lemma OneUploadSends(c: Conn, t: TaskId, task: Task, id: StreamId)
    requires StreamsOk(c) && TaskOk(c, t, task) && task.phase.Uploading?
    requires task.phase.offset <= |task.phase.data|
    requires id in c.streams && id in UploadTurn(c, task).0.streams
    ensures var s, s' := c.streams[id], UploadTurn(c, task).0.streams[id];
            && s.uploaded <= s'.uploaded
            && (s'.uploaded != s.uploaded ==> |s'.uploaded| <= s'.granted == s.granted)
  {
    hide UploadOk, Asleep;
    OneOfStreams(c, id);
  }

  /**
    Receive credit is conserved: while a stream is open its window, what is
    buffered and what the reader holds make up the initial window, so no more
    than that is ever buffered; and the connection's window is whole again
    after every batch, however slow the readers are.
    */
  lemma ReceiveCreditIsConserved(states: seq<System>, acts: seq<Act>, k: nat)
    requires IsRun(states, acts) && k < |states| && !states[k].conn.failed
    ensures states[k].conn.inWindow == CONNECTION_RECEIVE_WINDOW
    ensures forall id :: id in states[k].conn.streams ==>
              var s := states[k].conn.streams[id];
              !s.error && !s.ended ==>
                && s.inWindow + Credit(s.chunks) + s.inHand == STREAM_RECEIVE_WINDOW
                && s.inWindow >= 0 && Credit(s.chunks) + s.inHand <= STREAM_RECEIVE_WINDOW
  {
    hide TasksOk, Owned, IsRun;
    RunsKeep(states, acts, k);
  }

  lemma GiveBackReceived(c: Conn, id: StreamId)
    requires id in c.streams && StreamOk(c.failed, c.streams[id])
    ensures var s, s' := c.streams[id], GiveBack(c, id).streams[id];
            s'.received == s.received && s'.yielded == s.yielded && s'.chunks == s.chunks && s.yielded <= s.received
  {
  }

  /** A response that had ended before the connection failed can still be read to its end. */
  lemma EndedResponsesSurviveFailure(c: Conn, id: StreamId)
    requires id in c.streams && c.streams[id].ended && !c.streams[id].error
    ensures var c' := Fail(c);
            && id in c'.streams && !c'.streams[id].error
            && c'.streams[id].chunks == c.streams[id].chunks
            && (Iterate(c', id).1 == Finish <==> c.streams[id].chunks == [])
            && !Iterate(c', id).1.Raise? && !Iterate(c', id).1.Wait?
  {
  }
}
