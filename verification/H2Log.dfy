/**
  A run of the HTTP/2 connection as the network saw it: the frames that arrived
  and the moment the connection broke. What the connection holds of its streams
  is shown to be exactly what this log says.
  */
module H2Log {
  import opened Common
  import opened H2Streams
  import opened H2Safety
  import opened H2Theorems

  // ------------------------------------------------------------- one batch

  /** The DATA for a stream in a batch, up to a GOAWAY. */
  function Payload(events: seq<Event>, id: StreamId): Bytes {
    if events == [] || events[0].ConnectionTerminated? then []
    else (if events[0].DataReceived? && events[0].id == id then events[0].data else []) + Payload(events[1..], id)
  }

  /** The batch has the event before any GOAWAY. */
  predicate Told(events: seq<Event>, e: Event) {
    events != [] && !events[0].ConnectionTerminated? && (events[0] == e || Told(events[1..], e))
  }

  /** The batch has settings before any GOAWAY. */
  predicate ToldSettings(events: seq<Event>) {
    events != [] && !events[0].ConnectionTerminated? && (events[0].SettingsChanged? || ToldSettings(events[1..]))
  }

  /** What the batch adds to the credit of one stream, and of the connection. */
  function Updates(events: seq<Event>, id: StreamId): nat {
    if events == [] then 0
    else (if events[0].StreamWindowUpdated? && events[0].id == id then events[0].amount else 0) + Updates(events[1..], id)
  }

  function ConnectionUpdates(events: seq<Event>): nat {
    if events == [] then 0
    else (if events[0].ConnectionWindowUpdated? then events[0].amount else 0) + ConnectionUpdates(events[1..])
  }

  datatype Limits = Limits(streams: nat, frame: nat, window: nat)

  /** The peer's limits after the batch. */
  function LimitsAfter(events: seq<Event>, before: Limits): Limits {
    if events == [] then before
    else LimitsAfter(events[1..], match events[0]
                                  case SettingsChanged(limit, frame, window) => Limits(limit, frame, window)
                                  case _ => before)
  }

  // ------------------------------------------------------------ the whole log

  /** What arrived on a stream. */
  function DataOf(acts: seq<Act>, id: StreamId): Bytes {
    if acts == [] then []
    else
      var last := |acts| - 1;
      DataOf(acts[..last], id) + if acts[last].Arrive? then Payload(acts[last].events, id) else []
  }

  predicate Heard(acts: seq<Act>, e: Event) {
    acts != [] &&
    var last := |acts| - 1;
    Heard(acts[..last], e) || (acts[last].Arrive? && Told(acts[last].events, e))
  }

  predicate HeardSettings(acts: seq<Act>) {
    acts != [] &&
    var last := |acts| - 1;
    HeardSettings(acts[..last]) || (acts[last].Arrive? && ToldSettings(acts[last].events))
  }

  predicate Broken(acts: seq<Act>) {
    acts != [] &&
    var last := |acts| - 1;
    Broken(acts[..last]) || acts[last].Break? || (acts[last].Arrive? && ConnectionTerminated in acts[last].events)
  }

  /** The credit that arrived for a stream, beyond the initial window, and for the connection. */
  function CreditOf(acts: seq<Act>, id: StreamId): nat {
    if acts == [] then 0
    else
      var last := |acts| - 1;
      CreditOf(acts[..last], id) + if acts[last].Arrive? then Updates(acts[last].events, id) else 0
  }

  function ConnectionCredit(acts: seq<Act>): nat {
    if acts == [] then 0
    else
      var last := |acts| - 1;
      ConnectionCredit(acts[..last]) + if acts[last].Arrive? then ConnectionUpdates(acts[last].events) else 0
  }

  /** The limits in force, `first` before any settings. */
  function LimitsOf(acts: seq<Act>, first: Limits): Limits {
    if acts == [] then first
    else
      var last := |acts| - 1;
      if acts[last].Arrive? then LimitsAfter(acts[last].events, LimitsOf(acts[..last], first)) else LimitsOf(acts[..last], first)
  }

  // ---------------------------------------------- what the connection knows of it

  predicate StreamKnows(c: Conn, id: StreamId, s: Stream, acts: seq<Act>) {
    && s.received == DataOf(acts, id)
    && (s.hasHeaders <==> Heard(acts, ResponseReceived(id)))
    && (s.ended <==> Heard(acts, StreamEnded(id)))
    && (s.error <==> Heard(acts, StreamReset(id)) || (c.failed && !s.ended))
    && s.granted == c.initialWindow + CreditOf(acts, id)
  }

  /** Nothing was heard of a stream. */
  predicate Unopened(id: StreamId, acts: seq<Act>) {
    && DataOf(acts, id) == [] && CreditOf(acts, id) == 0
    && !Heard(acts, ResponseReceived(id)) && !Heard(acts, StreamEnded(id)) && !Heard(acts, StreamReset(id))
  }

  ghost predicate Knows(c: Conn, acts: seq<Act>, first: Conn) {
    && (c.failed <==> Broken(acts))
    && (c.settingsReceived <==> HeardSettings(acts))
    && Limits(c.limit, c.maxFrame, c.initialWindow) ==
       LimitsOf(acts, Limits(first.limit, first.maxFrame, first.initialWindow))
    && c.granted == first.granted + ConnectionCredit(acts)
    && (forall id :: id in c.streams ==> StreamKnows(c, id, c.streams[id], acts))
    && (forall id :: id >= c.nextId ==> Unopened(id, acts))
  }

  // -------------------------------------------------------- handling one batch

  /** What handling a batch does to a stream. */
  lemma {:induction false} HandledOnStream(c: Conn, events: seq<Event>, terminated: bool, id: StreamId)
    requires id in c.streams && !c.failed
    ensures var c' := HandleAll(c, events, terminated);
            && id in c'.streams
            && var s, s' := c.streams[id], c'.streams[id];
               && s'.received == s.received + Payload(events, id)
               && (s'.hasHeaders <==> s.hasHeaders || Told(events, ResponseReceived(id)))
               && (s'.ended <==> s.ended || Told(events, StreamEnded(id)))
               && (s'.error <==> s.error || Told(events, StreamReset(id)) || (c'.failed && !s'.ended))
               && s'.granted == s.granted
    decreases |events|
  {
    if events == [] || events[0].ConnectionTerminated? {
      assert c.streams[id].received + [] == c.streams[id].received;
    } else {
      var c1 := Handle(c, events[0], terminated);
      HandledOne(c, events[0], terminated, id);
      HandledOnStream(c1, events[1..], terminated, id);
      var data := if events[0].DataReceived? && events[0].id == id then events[0].data else [];
      assert c.streams[id].received + data + Payload(events[1..], id) == c.streams[id].received + (data + Payload(events[1..], id));
    }
  }

  lemma HandledOne(c: Conn, e: Event, terminated: bool, id: StreamId)
    requires id in c.streams && !c.failed && !e.ConnectionTerminated?
    ensures var c' := Handle(c, e, terminated);
            && id in c'.streams && !c'.failed
            && var s, s' := c.streams[id], c'.streams[id];
               && s'.received == s.received + (if e.DataReceived? && e.id == id then e.data else [])
               && (s'.hasHeaders <==> s.hasHeaders || e == ResponseReceived(id))
               && (s'.ended <==> s.ended || e == StreamEnded(id))
               && (s'.error <==> s.error || e == StreamReset(id))
               && s'.granted == s.granted
  {
    hide OnStream;
    assert c.streams[id].received + [] == c.streams[id].received;
    if Addressed(e) {
      OnStreamKnows(c, c.streams[id], e, terminated);
    }
  }

  lemma OnStreamKnows(c: Conn, s: Stream, e: Event, terminated: bool)
    requires Addressed(e)
    ensures var s' := OnStream(c, s, e, terminated);
            && s'.received == s.received + (if e.DataReceived? then e.data else [])
            && (s'.hasHeaders <==> s.hasHeaders || e.ResponseReceived?)
            && (s'.ended <==> s.ended || e.StreamEnded?)
            && (s'.error <==> s.error || e.StreamReset?)
            && s'.granted == s.granted
  {
    assert s.received + [] == s.received;
  }

  lemma {:induction false} HandledOnConnection(c: Conn, events: seq<Event>, terminated: bool)
    requires !c.failed
    ensures var c' := HandleAll(c, events, terminated);
            && (c'.failed <==> ConnectionTerminated in events)
            && (c'.settingsReceived <==> c.settingsReceived || ToldSettings(events))
            && c'.limit == c.limit && c'.maxFrame == c.maxFrame && c'.initialWindow == c.initialWindow
            && c'.granted == c.granted && c'.nextId == c.nextId && c'.streams.Keys == c.streams.Keys
    decreases |events|
  {
    if events != [] && !events[0].ConnectionTerminated? {
      HandledOneOnConnection(c, events[0], terminated);
      HandledOnConnection(Handle(c, events[0], terminated), events[1..], terminated);
      assert events == [events[0]] + events[1..];
    }
  }

  lemma HandledOneOnConnection(c: Conn, e: Event, terminated: bool)
    requires !e.ConnectionTerminated?
    ensures var c' := Handle(c, e, terminated);
            && c'.failed == c.failed && (c'.settingsReceived <==> c.settingsReceived || e.SettingsChanged?)
            && c'.limit == c.limit && c'.maxFrame == c.maxFrame && c'.initialWindow == c.initialWindow
            && c'.granted == c.granted && c'.nextId == c.nextId && c'.streams.Keys == c.streams.Keys
  {
    if Addressed(e) && e.id in c.streams {
      assert c.streams.Keys + {e.id} == c.streams.Keys;
    }
  }

  /** Settings move every window by the change of the initial one, so the sum telescopes. */
  lemma {:induction false} WindowIsCredit(events: seq<Event>, id: StreamId, window: int, limits: Limits)
    ensures WindowAfter(events, id, window, limits.window) ==
            window - limits.window + LimitsAfter(events, limits).window + Updates(events, id)
  {
    if events != [] {
      match events[0]
      case SettingsChanged(limit, frame, w) => WindowIsCredit(events[1..], id, window + w - limits.window, Limits(limit, frame, w));
      case StreamWindowUpdated(i, amount) =>
        WindowIsCredit(events[1..], id, if i == id then window + amount else window, limits);
      case _ => WindowIsCredit(events[1..], id, window, limits);
    }
  }

  lemma {:induction false} LastSettingsCount(events: seq<Event>, before: Limits)
    ensures LimitsAfter(events, before) == match LastSettings(events)
                                           case Some(SettingsChanged(limit, frame, window)) => Limits(limit, frame, window)
                                           case _ => before
  {
    if events != [] {
      LastSettingsCount(events[1..], match events[0]
                                     case SettingsChanged(limit, frame, window) => Limits(limit, frame, window)
                                     case _ => before);
      SettingsAreSettings(events[1..]);
    }
  }

  lemma {:induction false} GrantedIsUpdates(events: seq<Event>)
    ensures Granted(events) == ConnectionUpdates(events)
  {
    if events != [] {
      GrantedIsUpdates(events[1..]);
    }
  }

  lemma AbsorbedFields(c: Conn, events: seq<Event>)
    ensures var c1 := Absorb(c, events);
            && c1.failed == c.failed && c1.settingsReceived == c.settingsReceived && c1.nextId == c.nextId
            && c1.granted == c.granted + ConnectionUpdates(events)
            && Limits(c1.limit, c1.maxFrame, c1.initialWindow) == LimitsAfter(events, Limits(c.limit, c.maxFrame, c.initialWindow))
            && c1.streams.Keys == c.streams.Keys
            && forall id :: id in c.streams ==>
                 var s, s1 := c.streams[id], c1.streams[id];
                 && s1.received == s.received && s1.hasHeaders == s.hasHeaders && s1.ended == s.ended && s1.error == s.error
                 && s1.granted - c1.initialWindow == s.granted - c.initialWindow + Updates(events, id)
  {
    hide WindowAfter, LastSettings, Granted, Used, UsedInAll, LimitsAfter, Updates, ConnectionUpdates;
    GrantedIsUpdates(events);
    SettingsAreSettings(events);
    LastSettingsCount(events, Limits(c.limit, c.maxFrame, c.initialWindow));
    forall id | id in c.streams {
      WindowIsCredit(events, id, c.streams[id].granted, Limits(c.limit, c.maxFrame, c.initialWindow));
    }
  }

  // -------------------------------------------------------------- the log grows

  lemma LogGrows(acts: seq<Act>, a: Act)
    ensures (acts + [a])[..|acts|] == acts
  {
  }

  lemma ArrivalKnown(c: Conn, events: seq<Event>, acts: seq<Act>, first: Conn)
    requires Knows(c, acts, first) && !c.failed && Acceptable(c, events)
    ensures Knows(Receive(c, events), acts + [Arrive(events)], first)
  {
    hide Absorb, HandleAll, DataOf, Heard, HeardSettings, Broken, CreditOf, ConnectionCredit, LimitsOf, LimitsAfter, Payload, Told,
      ToldSettings, Updates, ConnectionUpdates, StreamKnows, Unopened;
    var c1, more, terminated := Absorb(c, events), acts + [Arrive(events)], ConnectionTerminated in events;
    AbsorbedFields(c, events);
    HandledOnConnection(c1, events, terminated);
    ArrivalHeard(acts, events, Limits(first.limit, first.maxFrame, first.initialWindow));
    forall id | id in c.streams ensures StreamKnows(Receive(c, events), id, Receive(c, events).streams[id], more) {
      HandledOnStream(c1, events, terminated, id);
      StreamArrivalKnown(c, c1, Receive(c, events), id, events, acts);
    }
    forall id | id >= c.nextId ensures Unopened(id, more) {
      IdleStreamsAreSilent(events, id);
      StreamArrivalHeard(acts, events, id);
      UnopenedStays(acts, events, id);
    }
  }

  lemma ArrivalHeard(acts: seq<Act>, events: seq<Event>, first: Limits)
    ensures var more := acts + [Arrive(events)];
            && (Broken(more) <==> Broken(acts) || ConnectionTerminated in events)
            && (HeardSettings(more) <==> HeardSettings(acts) || ToldSettings(events))
            && LimitsOf(more, first) == LimitsAfter(events, LimitsOf(acts, first))
            && ConnectionCredit(more) == ConnectionCredit(acts) + ConnectionUpdates(events)
  {
    LogGrows(acts, Arrive(events));
  }

  lemma StreamArrivalHeard(acts: seq<Act>, events: seq<Event>, id: StreamId)
    ensures var more := acts + [Arrive(events)];
            && DataOf(more, id) == DataOf(acts, id) + Payload(events, id)
            && CreditOf(more, id) == CreditOf(acts, id) + Updates(events, id)
            && (forall e :: Heard(more, e) <==> Heard(acts, e) || Told(events, e))
  {
    LogGrows(acts, Arrive(events));
  }

  lemma UnopenedStays(acts: seq<Act>, events: seq<Event>, id: StreamId)
    requires Unopened(id, acts)
    requires Payload(events, id) == [] && Updates(events, id) == 0
    requires !Told(events, ResponseReceived(id)) && !Told(events, StreamEnded(id)) && !Told(events, StreamReset(id))
    ensures Unopened(id, acts + [Arrive(events)])
  {
    hide DataOf, CreditOf, Heard, Payload, Updates, Told;
    StreamArrivalHeard(acts, events, id);
  }

  lemma StreamArrivalKnown(c: Conn, c1: Conn, c': Conn, id: StreamId, events: seq<Event>, acts: seq<Act>)
    requires id in c.streams && id in c1.streams && id in c'.streams && !c.failed && c1.initialWindow == c'.initialWindow
    requires StreamKnows(c, id, c.streams[id], acts)
    requires var s, s1 := c.streams[id], c1.streams[id];
             && s1.received == s.received && s1.hasHeaders == s.hasHeaders && s1.ended == s.ended && s1.error == s.error
             && s1.granted - c1.initialWindow == s.granted - c.initialWindow + Updates(events, id)
    requires var s1, s' := c1.streams[id], c'.streams[id];
             && s'.received == s1.received + Payload(events, id)
             && (s'.hasHeaders <==> s1.hasHeaders || Told(events, ResponseReceived(id)))
             && (s'.ended <==> s1.ended || Told(events, StreamEnded(id)))
             && (s'.error <==> s1.error || Told(events, StreamReset(id)) || (c'.failed && !s'.ended))
             && s'.granted == s1.granted
    ensures StreamKnows(c', id, c'.streams[id], acts + [Arrive(events)])
  {
    hide DataOf, CreditOf, Heard, Payload, Updates, Told;
    StreamArrivalHeard(acts, events, id);
  }

  lemma {:induction false} IdleStreamsAreSilent(events: seq<Event>, id: StreamId)
    requires forall e :: e in events && (Addressed(e) || e.StreamWindowUpdated?) ==> e.id != id
    ensures Payload(events, id) == [] && Updates(events, id) == 0
    ensures !Told(events, ResponseReceived(id)) && !Told(events, StreamEnded(id)) && !Told(events, StreamReset(id))
  {
    if events != [] {
      assert events[0] in events;
      IdleStreamsAreSilent(events[1..], id);
    }
  }

  /** A step of a task, or of nobody on the network's side. */
  lemma TurnHeard(acts: seq<Act>, a: Act, id: StreamId, first: Limits)
    requires !a.Arrive?
    ensures var more := acts + [a];
            && DataOf(more, id) == DataOf(acts, id) && CreditOf(more, id) == CreditOf(acts, id)
            && (forall e :: Heard(more, e) <==> Heard(acts, e))
            && (Broken(more) <==> Broken(acts) || a.Break?)
            && (HeardSettings(more) <==> HeardSettings(acts))
            && LimitsOf(more, first) == LimitsOf(acts, first)
            && ConnectionCredit(more) == ConnectionCredit(acts)
  {
    LogGrows(acts, a);
    assert DataOf(acts, id) + [] == DataOf(acts, id);
  }

  /** Of a stream the same is known. */
  predicate SameKnowledge(s: Stream, s': Stream) {
    && s'.received == s.received && s'.hasHeaders == s.hasHeaders && s'.ended == s.ended && s'.error == s.error
    && s'.granted == s.granted
  }

  /** What tasks do to the connection: open one stream, close some, and change nothing that is known of the others. */
  ghost predicate Learns(c: Conn, c': Conn) {
    && c'.failed == c.failed && c'.settingsReceived == c.settingsReceived && c'.granted == c.granted
    && c'.limit == c.limit && c'.maxFrame == c.maxFrame && c'.initialWindow == c.initialWindow
    && c'.nextId >= c.nextId
    && forall id :: id in c'.streams ==>
         if id in c.streams then SameKnowledge(c.streams[id], c'.streams[id])
         else id == c.nextId < c'.nextId && !c.failed && c'.streams[id] == NewStream(c, c'.streams[id].owner)
  }

  lemma OthersKnown(acts: seq<Act>, a: Act, id: StreamId, c: Conn, s: Stream, c': Conn, s': Stream)
    requires !a.Arrive? && StreamKnows(c, id, s, acts) && SameKnowledge(s, s')
    requires c'.failed == c.failed && c'.initialWindow == c.initialWindow
    ensures StreamKnows(c', id, s', acts + [a])
  {
    hide DataOf, Heard, CreditOf;
    TurnHeard(acts, a, id, Limits(0, 0, 0));
  }

  lemma OpenedKnown(acts: seq<Act>, a: Act, c: Conn, owner: nat, c': Conn)
    requires !a.Arrive? && Unopened(c.nextId, acts) && !c'.failed && c'.initialWindow == c.initialWindow
    ensures StreamKnows(c', c.nextId, NewStream(c, owner), acts + [a])
  {
    hide DataOf, Heard, CreditOf;
    TurnHeard(acts, a, c.nextId, Limits(0, 0, 0));
  }

  lemma UnopenedKnown(acts: seq<Act>, a: Act, id: StreamId)
    requires !a.Arrive? && Unopened(id, acts)
    ensures Unopened(id, acts + [a])
  {
    hide DataOf, Heard, CreditOf;
    TurnHeard(acts, a, id, Limits(0, 0, 0));
  }

  lemma TurnKnown(c: Conn, c': Conn, acts: seq<Act>, a: Act, first: Conn)
    requires Knows(c, acts, first) && Learns(c, c') && !a.Arrive? && !a.Break?
    ensures Knows(c', acts + [a], first)
  {
    hide DataOf, Heard, HeardSettings, Broken, CreditOf, ConnectionCredit, LimitsOf, StreamKnows, Unopened, SameKnowledge, NewStream;
    TurnHeard(acts, a, 0, Limits(first.limit, first.maxFrame, first.initialWindow));
    forall id | id in c'.streams ensures StreamKnows(c', id, c'.streams[id], acts + [a]) {
      if id in c.streams {
        OthersKnown(acts, a, id, c, c.streams[id], c', c'.streams[id]);
      } else {
        OpenedKnown(acts, a, c, c'.streams[id].owner, c');
      }
    }
    forall id | id >= c'.nextId ensures Unopened(id, acts + [a]) {
      UnopenedKnown(acts, a, id);
    }
  }

  lemma FailingKnown(acts: seq<Act>, id: StreamId, c: Conn, s: Stream, c': Conn)
    requires !c.failed && StreamKnows(c, id, s, acts) && c'.failed && c'.initialWindow == c.initialWindow
    ensures StreamKnows(c', id, Failing(s), acts + [Break])
  {
    hide DataOf, Heard, CreditOf;
    TurnHeard(acts, Break, id, Limits(0, 0, 0));
  }

  lemma SameAsItself(s: Stream)
    ensures SameKnowledge(s, s)
  {
  }

  lemma BreakKnown(c: Conn, acts: seq<Act>, first: Conn)
    requires Knows(c, acts, first)
    ensures Knows(Fail(c), acts + [Break], first)
  {
    hide DataOf, Heard, HeardSettings, Broken, CreditOf, ConnectionCredit, LimitsOf, StreamKnows, Unopened, SameKnowledge, Failing;
    TurnHeard(acts, Break, 0, Limits(first.limit, first.maxFrame, first.initialWindow));
    forall id | id in c.streams ensures StreamKnows(Fail(c), id, Fail(c).streams[id], acts + [Break]) {
      if c.failed {
        SameAsItself(c.streams[id]);
        OthersKnown(acts, Break, id, c, c.streams[id], c, c.streams[id]);
      } else {
        FailingKnown(acts, id, c, c.streams[id], Fail(c));
      }
    }
    forall id | id >= c.nextId ensures Unopened(id, acts + [Break]) {
      UnopenedKnown(acts, Break, id);
    }
  }

  lemma RunLearns(sys: System, t: TaskId)
    requires Enabled(sys, Run(t)) && sys.conn.nextId !in sys.conn.streams
    ensures Learns(sys.conn, RunTurn(sys.conn, t, sys.tasks[t]).0)
  {
    hide Learns, Iterate, UploadTurn, ReserveTurn, HeadersTurn;
    var c, task := sys.conn, sys.tasks[t];
    match task.phase
    case Reserving => ReserveLearns(c, t, task);
    case Uploading(_, _, _, _) => UploadLearns(c, task);
    case AwaitingHeaders(_) => HeadersLearns(c, task);
    case Reading(_) => ReadLearns(c, task.phase.id);
  }

  lemma ReserveLearns(c: Conn, t: TaskId, task: Task)
    requires c.nextId !in c.streams
    ensures Learns(c, ReserveTurn(c, t, task).0)
  {
  }

  lemma UploadLearns(c: Conn, task: Task)
    requires task.phase.Uploading? && task.phase.id in c.streams && task.phase.offset <= |task.phase.data|
    ensures Learns(c, UploadTurn(c, task).0)
  {
    hide SendCount;
  }

  lemma HeadersLearns(c: Conn, task: Task)
    requires task.phase.AwaitingHeaders? && task.phase.id in c.streams
    ensures Learns(c, HeadersTurn(c, task).0)
  {
  }

  /** Only stream `id` changes, and nothing that is known of it. */
  ghost predicate OnlyBookkeeping(c: Conn, c': Conn, id: StreamId) {
    && id in c.streams && id in c'.streams && SameKnowledge(c.streams[id], c'.streams[id])
    && c' == c.(streams := c.streams[id := c'.streams[id]])
  }

  lemma BookkeepingLearns(c: Conn, c': Conn, id: StreamId)
    requires OnlyBookkeeping(c, c', id)
    ensures Learns(c, c')
  {
  }

  lemma GivingBackIsBookkeeping(c: Conn, id: StreamId)
    requires id in c.streams
    ensures OnlyBookkeeping(c, GiveBack(c, id), id)
  {
    var s := c.streams[id];
    var c1 := c.(streams := c.streams[id := s.(inHand := 0)]);
    assert GiveBack(c, id).streams == c.streams[id := GiveBack(c, id).streams[id]];
  }

  lemma ReadLearns(c: Conn, id: StreamId)
    requires id in c.streams
    ensures Learns(c, Iterate(c, id).0)
  {
    hide GiveBack, Learns;
    GivingBackIsBookkeeping(c, id);
    var c1, c' := GiveBack(c, id), Iterate(c, id).0;
    assert c'.streams == c.streams[id := c'.streams[id]];
    BookkeepingLearns(c, c', id);
  }

  lemma NextIsNew(sys: System)
    requires Inv(sys)
    ensures sys.conn.nextId !in sys.conn.streams
  {
    hide StreamsOk, TasksOk, Owned;
  }

  lemma StepKnown(sys: System, act: Act, acts: seq<Act>, first: Conn)
    requires Inv(sys) && Enabled(sys, act) && Knows(sys.conn, acts, first)
    ensures Knows(Step(sys, act).conn, acts + [act], first)
  {
    hide Inv, Knows, Learns, Receive, Fail, RunTurn, Acceptable;
    match act
    case Start(_, _) => NothingLearnt(sys.conn); TurnKnown(sys.conn, sys.conn, acts, act, first);
    case Run(t) => NextIsNew(sys); RunLearns(sys, t); TurnKnown(sys.conn, RunTurn(sys.conn, t, sys.tasks[t]).0, acts, act, first);
    case Quit(t) =>
      QuitLearns(sys.conn, sys.tasks[t]);
      TurnKnown(sys.conn, GiveUp(sys.conn, sys.tasks[t]).0, acts, act, first);
    case Arrive(events) => ArrivalKnown(sys.conn, events, acts, first);
    case Break => BreakKnown(sys.conn, acts, first);
  }

  lemma NothingLearnt(c: Conn)
    ensures Learns(c, c)
  {
  }

  lemma QuitLearns(c: Conn, task: Task)
    ensures Learns(c, GiveUp(c, task).0)
  {
  }

  /**
    In every run, what the connection holds is what the network said. The data
    received for a stream are the DATA frames that arrived for it, none dropped
    and none twice; it has headers, has ended or was reset exactly when a frame
    said so; a failure, by GOAWAY or otherwise, is an error exactly for the streams
    that had not ended. A stream's credit is the initial window in force and the
    updates it got; the limits are those of the last settings.
    */
  lemma {:induction false} ConnectionKnowsTheLog(states: seq<System>, acts: seq<Act>, k: nat)
    requires IsRun(states, acts) && k < |states|
    ensures Knows(states[k].conn, acts[..k], states[0].conn)
  {
    hide IsRun, Inv, Enabled, Step, Knows;
    RunLength(states, acts);
    if k == 0 {
      NothingKnown(states, acts);
    } else {
      ConnectionKnowsTheLog(states, acts, k - 1);
      RunsKeep(states, acts, k - 1);
      AStep(states, acts, k - 1);
      StepKnown(states[k - 1], acts[k - 1], acts[..k - 1], states[0].conn);
      assert acts[..k] == acts[..k - 1] + [acts[k - 1]];
    }
  }

  lemma NothingKnown(states: seq<System>, acts: seq<Act>)
    requires IsRun(states, acts)
    ensures Knows(states[0].conn, acts[..0], states[0].conn)
  {
  }

  // ------------------------------------------------------------ what tasks do

  /**
    In every run, a reader gets the DATA that arrived on its stream, in order: the
    next piece if one waits; else, when the stream has ended, the end, and then it
    has had all of it; an error comes before either, and nothing is lost waiting.
    */
  lemma ReadersGetEverything(states: seq<System>, acts: seq<Act>, k: nat, t: TaskId)
    requires IsRun(states, acts) && k < |acts| && acts[k] == Run(t) && states[k].tasks[t].phase.Reading?
    ensures var id := states[k].tasks[t].phase.id;
            && id in states[k].conn.streams && id in states[k + 1].conn.streams && t in states[k + 1].tasks
            && var s, s', task' := states[k].conn.streams[id], states[k + 1].conn.streams[id], states[k + 1].tasks[t];
               var arrived := DataOf(acts[..k], id);
               && s.yielded + Contents(s.chunks) == arrived == s'.yielded + Contents(s'.chunks)
               && if s.error then task'.phase == Stopped(id, Raise) && s'.yielded == s.yielded
                  else if s.chunks != [] then task'.phase == Reading(id) && s'.yielded == s.yielded + s.chunks[0].data
                  else if Heard(acts[..k], StreamEnded(id)) then task'.phase == Stopped(id, Finish) && s'.yielded == arrived
                  else task'.phase == Reading(id) && s'.yielded == arrived && task'.suspended
  {
    hide IsRun, Inv, Enabled, Step, Knows;
    RunLength(states, acts);
    AStep(states, acts, k);
    RunsKeep(states, acts, k);
    ConnectionKnowsTheLog(states, acts, k);
    ReaderTurn(states[k], t, acts[..k], states[0].conn);
  }

  lemma ReaderTurn(sys: System, t: TaskId, acts: seq<Act>, first: Conn)
    requires Inv(sys) && Enabled(sys, Run(t)) && sys.tasks[t].phase.Reading? && Knows(sys.conn, acts, first)
    ensures var id, sys' := sys.tasks[t].phase.id, Step(sys, Run(t));
            && id in sys.conn.streams && id in sys'.conn.streams && t in sys'.tasks
            && var s, s', task' := sys.conn.streams[id], sys'.conn.streams[id], sys'.tasks[t];
               var arrived := DataOf(acts, id);
               && s.yielded + Contents(s.chunks) == arrived == s'.yielded + Contents(s'.chunks)
               && if s.error then task'.phase == Stopped(id, Raise) && s'.yielded == s.yielded
                  else if s.chunks != [] then task'.phase == Reading(id) && s'.yielded == s.yielded + s.chunks[0].data
                  else if Heard(acts, StreamEnded(id)) then task'.phase == Stopped(id, Finish) && s'.yielded == arrived
                  else task'.phase == Reading(id) && s'.yielded == arrived && task'.suspended
  {
    hide Windows, StreamsOk, TasksOk, Owned, DataOf, Heard, CreditOf, Iterate, Unopened, LimitsOf, Broken, HeardSettings, Contents;
    var c, id := sys.conn, sys.tasks[t].phase.id;
    OneOfStreams(c, id);
    assert StreamKnows(c, id, c.streams[id], acts);
    IterateShape(c, id);
  }

  lemma IterateShape(c: Conn, id: StreamId)
    requires id in c.streams
    ensures var s, (c', turn) := c.streams[id], Iterate(c, id);
            && id in c'.streams
            && var s' := c'.streams[id];
               && s'.yielded + Contents(s'.chunks) == s.yielded + Contents(s.chunks)
               && s'.yielded == s.yielded + (if turn.Yield? then s.chunks[0].data else [])
               && (turn.Yield? ==> s.chunks != [])
               && (if s.error then turn.Raise? && !s'.changed else if s.chunks != [] then turn.Yield?
                   else if s.ended then turn.Finish? else turn.Wait? && !s'.changed)
               && c'.streams == c.streams[id := s']
    ensures c.streams[id].chunks == [] ==> Contents(c.streams[id].chunks) == []
  {
    hide GiveBack;
    GivingBackKeepsChunks(c, id);
    var s := c.streams[id];
    assert s.yielded + [] == s.yielded;
    if s.chunks != [] {
      assert s.yielded + (s.chunks[0].data + Contents(s.chunks[1..])) == s.yielded + s.chunks[0].data + Contents(s.chunks[1..]);
    }
  }

  lemma GivingBackKeepsChunks(c: Conn, id: StreamId)
    requires id in c.streams
    ensures id in GiveBack(c, id).streams
    ensures var s, s' := c.streams[id], GiveBack(c, id).streams[id];
            s'.chunks == s.chunks && s'.yielded == s.yielded && s'.error == s.error && s'.ended == s.ended
            && GiveBack(c, id).streams == c.streams[id := s']
  {
    assert GiveBack(c, id).streams == c.streams[id := GiveBack(c, id).streams[id]];
  }

  /** The most that may go out in one piece: what is left of the chunk, one frame, and both windows. */
  predicate IsLargestPiece(n: nat, left: nat, c: Conn, s: Stream) {
    && 0 < n <= left && n <= c.maxFrame && n <= c.outWindow && n <= s.outWindow
    && (n == left || n == c.maxFrame || n == c.outWindow || n == s.outWindow)
  }

  /** The turn of an upload sends that piece. */
  predicate SendsPiece(n: nat, c: Conn, task: Task, c': Conn, task': Task) {
    && task.phase.Uploading? && task.phase.id in c.streams && task.phase.id in c'.streams
    && var (id, data, offset) := (task.phase.id, task.phase.data, task.phase.offset);
       var s, s' := c.streams[id], c'.streams[id];
       && offset <= |data| && IsLargestPiece(n, |data| - offset, c, s)
       && task'.phase == task.phase.(offset := offset + n)
       && c'.sent == c.sent + n && c'.outWindow == c.outWindow - n
       && s'.uploaded == s.uploaded + data[offset..offset + n] && s'.outWindow == s.outWindow - n
  }

  /** The request gave its stream back and is over. */
  predicate GaveUp(c': Conn, id: StreamId, task': Task) { task'.phase == Over && id !in c'.streams }

  /** What the turn of a request that is not reading yet must come to. */
  ghost predicate DoesItsPart(c: Conn, t: TaskId, task: Task, c': Conn, task': Task) {
    match task.phase
    case Reserving =>
      if c.failed then task'.phase == Over && c'.streams == c.streams
      else if c.settingsReceived && |c.streams| < c.maxStreams && |c.streams| < c.limit then
        && task'.phase == Uploading(c.nextId, [], 0, task.body)
        && c'.streams == c.streams[c.nextId := NewStream(c, t)]
      else task'.suspended && c'.streams == c.streams
    case Uploading(id, data, offset, rest) =>
      id in c.streams && offset <= |data| &&
      if offset < |data| then
        if c.failed || c.streams[id].error then GaveUp(c', id, task')
        else if c.outWindow <= 0 || c.streams[id].outWindow <= 0 || c.maxFrame == 0 then
          task'.suspended && task'.phase == task.phase && c'.streams == c.streams && c'.sent == c.sent
        else exists n: nat :: SendsPiece(n, c, task, c', task')
      else if rest != [] then task'.phase == Uploading(id, rest[0], 0, rest[1..]) && c' == c
      else if c.streams[id].error then GaveUp(c', id, task')
      else task'.phase == AwaitingHeaders(id) && id in c'.streams && c'.streams[id].finished
    case AwaitingHeaders(id) =>
      id in c.streams &&
      if c.streams[id].error then GaveUp(c', id, task')
      else if c.streams[id].hasHeaders then task'.phase == Reading(id) && c'.streams == c.streams
      else task'.suspended && task'.phase == task.phase
    case _ => true
  }

  /**
    In every run, a request takes its stream as soon as there is room, sends the
    most that both windows and a frame allow, finishes its stream after the last
    chunk, reads once there are headers, sleeps exactly when it can do none of it,
    and gives its stream back on an error.
    */
  lemma RequestsDoTheirPart(states: seq<System>, acts: seq<Act>, k: nat, t: TaskId)
    requires IsRun(states, acts) && k < |acts| && acts[k] == Run(t)
    ensures t in states[k].tasks && t in states[k + 1].tasks
    ensures DoesItsPart(states[k].conn, t, states[k].tasks[t], states[k + 1].conn, states[k + 1].tasks[t])
  {
    hide IsRun, Inv, DoesItsPart, RunTurn, Woken;
    AStep(states, acts, k);
    var sys := states[k];
    var (c', task') := RunTurn(sys.conn, t, sys.tasks[t]);
    TurnDoesItsPart(sys.conn, t, sys.tasks[t]);
    assert states[k + 1].conn == c' && states[k + 1].tasks[t] == Woken(c', task');
  }

  lemma TurnDoesItsPart(c: Conn, t: TaskId, task: Task)
    requires task.Holds() ==> task.phase.id in c.streams
    requires task.phase.Uploading? ==> task.phase.offset <= |task.phase.data|
    requires !task.suspended
    ensures var (c', task') := RunTurn(c, t, task); DoesItsPart(c, t, task, c', Woken(c', task'))
  {
    hide NewStream, Iterate;
    if task.phase.Uploading? && task.phase.offset < |task.phase.data| {
      var n := SendCount(c, c.streams[task.phase.id], |task.phase.data| - task.phase.offset);
      if n > 0 && !c.failed && !c.streams[task.phase.id].error {
        var (c', task') := RunTurn(c, t, task);
        assert SendsPiece(n, c, task, c', Woken(c', task'));
      }
    }
  }
}
