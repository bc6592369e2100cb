/**
  The connection object (tgproxy/h2_transport.py): its methods, in place, do
  what the await-free pieces of H2Streams say.
  */
module H2Connection {
  import opened Common
  import opened H2Streams

  class Connection {
    const maxStreams: nat
    var settingsReceived: bool
    var failed: bool
    var changed: bool
    var streams: map<StreamId, Stream>
    // what h2 keeps
    var limit: nat
    var maxFrame: nat
    var initialWindow: nat
    var outWindow: int
    var inWindow: int
    var nextId: StreamId
    ghost var granted: int
    ghost var sent: nat

    ghost function View(): Conn
      reads this
    {
      Conn(maxStreams, settingsReceived, limit, maxFrame, initialWindow, outWindow, inWindow, granted, sent,
           failed, changed, nextId, streams)
    }

    /** `fail`: the first error marks every unfinished stream and wakes everybody. */
    method Fail()
      modifies `failed, `changed, `streams
      ensures View() == H2Streams.Fail(old(View()))
    {
      hide Failing;
      if failed {
        return;
      }
      failed := true;
      ghost var before := streams;
      var todo := streams.Keys;
      while todo != {}
        modifies `streams
        invariant todo <= before.Keys == streams.Keys
        invariant forall id :: id in todo ==> streams[id] == before[id]
        invariant forall id :: id in before && id !in todo ==> streams[id] == Failing(before[id])
        decreases |todo|
      {
        var id :| id in todo;
        var s := streams[id];
        MarkedIsFailing(s);
        if !s.ended {
          s := s.(error := true);
        }
        streams := streams[id := s.(changed := true)];
        assert streams.Keys == before.Keys;
        todo := todo - {id};
      }
      changed := true;
      AllFailing(old(View()), streams);
    }

    /** The part of `reserve` between two waits: a stream, or an error, or nothing yet. */
    method TryReserve(owner: nat) returns (r: Result<Option<StreamId>, ()>)
      modifies `changed, `streams, `nextId
      ensures if old(failed) then r == Err(()) && View() == old(View()).(changed := false)
              else if CanAdmit(old(View())) then r == Ok(Some(old(nextId))) && View() == Admit(old(View()), owner)
              else r == Ok(None) && View() == old(View()).(changed := false)
    {
      changed := false;
      if failed {
        return Err(());
      }
      if settingsReceived && |streams| < Min(maxStreams, limit) {
        var id := nextId;
        nextId := nextId + 2;
        streams := streams[id := Stream(owner, initialWindow, STREAM_RECEIVE_WINDOW, [], 0, false, false, false, false,
                                        [], false, [], [], initialWindow, initialWindow)];
        return Ok(Some(id));
      }
      return Ok(None);
    }

    /** `consumed`. */
    method Consumed(id: StreamId, credit: nat)
      requires id in streams
      modifies `streams
      ensures View() == H2Streams.Consumed(old(View()), id, credit)
    {
      if credit > 0 && !streams[id].ended && !failed {
        streams := streams[id := streams[id].(inWindow := streams[id].inWindow + credit)];
      }
    }

    /** `release`. */
    method Release(id: StreamId)
      modifies `streams, `changed
      ensures View() == H2Streams.Release(old(View()), id)
    {
      streams := streams - {id};
      changed := true;
    }

    /** A turn of `__aiter__`, from one `yield` or wait to the next. */
    method Next(id: StreamId) returns (turn: Turn)
      requires id in streams
      modifies `streams
      ensures (View(), turn) == Iterate(old(View()), id)
    {
      var credit := streams[id].inHand;
      streams := streams[id := streams[id].(inHand := 0)];
      Consumed(id, credit);
      assert View() == GiveBack(old(View()), id);
      hide GiveBack;
      var s := streams[id].(changed := false);
      streams := streams[id := s];
      if s.error {
        return Raise;
      }
      if s.chunks != [] {
        var Chunk(data, held) := s.chunks[0];
        s := s.(chunks := s.chunks[1..], inHand := held, yielded := s.yielded + data);
        streams := streams[id := s];
        assert streams == GiveBack(old(View()), id).streams[id := s];
        return Yield(data);
      }
      return if s.ended then Finish else Wait;
    }

    // --------------------------------------------------------------- read_loop

    /** `h2.receive_data`. */
    method ReceiveData(events: seq<Event>)
      modifies this
      ensures View() == Absorb(old(View()), events)
    {
      hide Used, UsedInAll, WindowAfter, LastSettings, Granted;
      ghost var before := View();
      streams := map id | id in streams :: streams[id].(
        inWindow := streams[id].inWindow - Used(events, id),
        outWindow := WindowAfter(events, id, streams[id].outWindow, initialWindow),
        granted := WindowAfter(events, id, streams[id].granted, initialWindow),
        peak := Max(streams[id].peak, WindowAfter(events, id, streams[id].granted, initialWindow)));
      inWindow := inWindow - UsedInAll(events);
      outWindow := outWindow + Granted(events);
      granted := granted + Granted(events);
      match LastSettings(events) {
        case Some(SettingsChanged(newLimit, frame, window)) =>
          limit, maxFrame, initialWindow := newLimit, frame, window;
        case _ =>
      }
    }

    /** A DATA event: its credit goes back to the connection, its data to the stream. */
    method HandleData(id: StreamId, data: Bytes, credit: nat, terminated: bool)
      modifies `inWindow, `streams
      ensures View() == Handle(old(View()), DataReceived(id, data, credit), terminated)
    {
      if credit > 0 && !terminated {
        inWindow := inWindow + credit;
      }
      if id in streams {
        var s := streams[id];
        if data != [] {
          s := s.(chunks := s.chunks + [Chunk(data, credit)], received := s.received + data);
        } else if !terminated {
          Consumed(id, credit);
          s := streams[id];
        }
        streams := streams[id := s.(changed := true)];
        assert streams == old(streams)[id := s.(changed := true)];
      }
    }

    /** An event that concerns one stream, if it is still in the table. */
    method HandleStreamEvent(e: Event)
      requires e.ResponseReceived? || e.StreamEnded? || e.StreamReset?
      modifies `changed, `streams
      ensures View() == Handle(old(View()), e, false) == Handle(old(View()), e, true)
    {
      if e.id in streams {
        var s := streams[e.id];
        if e.ResponseReceived? {
          s := s.(hasHeaders := true);
        } else if e.StreamEnded? {
          s := s.(ended := true);
        } else {
          s := s.(error := true);
          changed := true;
        }
        streams := streams[e.id := s.(changed := true)];
      }
    }

    /** One event that is not a GOAWAY. */
    method HandleEvent(e: Event, terminated: bool)
      requires !e.ConnectionTerminated?
      modifies `settingsReceived, `changed, `inWindow, `streams
      ensures View() == Handle(old(View()), e, terminated)
    {
      hide OnStream;
      if e.SettingsChanged? {
        settingsReceived, changed := true, true;
      } else if e.StreamWindowUpdated? || e.ConnectionWindowUpdated? {
        changed := true;
      } else if e.DataReceived? {
        HandleData(e.id, e.data, e.credit, terminated);
      } else {
        HandleStreamEvent(e);
      }
    }

    /** One turn of `read_loop` for the bytes of some events. */
    method ReadTurn(events: seq<Event>)
      modifies this
      ensures View() == Receive(old(View()), events)
    {
      hide Absorb, Handle;
      ReceiveData(events);
      var terminated := ConnectionTerminated in events;
      var i := 0;
      assert events[0..] == events;
      while i < |events|
        invariant i <= |events|
        invariant HandleAll(View(), events[i..], terminated) == Receive(old(View()), events)
      {
        if events[i].ConnectionTerminated? {
          Fail();
          return;
        }
        assert events[i..][1..] == events[i + 1..];
        HandleEvent(events[i], terminated);
        i := i + 1;
      }
    }

    // --------------------------------------------------------------- send_body

    /** What the others may do while a sender waits: anything but write on its stream or take it away. */
    twostate predicate Undisturbed(id: StreamId)
      reads this
    {
      && id in old(streams) && id in streams
      && streams[id].uploaded == old(streams[id].uploaded) && streams[id].finished == old(streams[id].finished)
    }

    /** An await: other tasks and the network move. */
    method Await(id: StreamId)
      requires id in streams
      modifies this
      ensures Undisturbed(id)
    {
    }

    /**
      `send_body`, woken in time at most `wakeups` times: whatever happens at
      its awaits, a normal end has sent the whole body in order and finished
      the stream; every other end has sent a beginning of it, and comes with an
      error or for want of credit.
      */
    method SendBody(body: seq<Bytes>, id: StreamId, wakeups: nat) returns (ok: bool)
      requires id in streams
      modifies this
      ensures id in streams
      ensures ok ==> streams[id].uploaded == old(streams[id].uploaded) + Concat(body) && streams[id].finished
      ensures !ok ==> exists n :: 0 <= n <= |Concat(body)| &&
                        streams[id].uploaded == old(streams[id].uploaded) + Concat(body)[..n]
      ensures !ok ==> failed || streams[id].error || outWindow <= 0 || streams[id].outWindow <= 0 || maxFrame == 0
    {
      hide Concat;
      var left, k := wakeups, 0;
      ghost var start, all, n := streams[id].uploaded, Concat(body), 0;
      Ends(body);
      while k < |body|
        invariant k <= |body| && id in streams && n == |Concat(body[..k])| <= |all|
        invariant streams[id].uploaded == start + all[..n]
      {
        var data, offset := body[k], 0;
        while offset < |data|
          invariant offset <= |data| && id in streams && n == |Concat(body[..k])| + offset <= |all|
          invariant streams[id].uploaded == start + all[..n]
          decreases left, |data| - offset
        {
          changed := false;
          if failed || streams[id].error {
            return false;
          }
          var count := Min(|data| - offset, Min(maxFrame, Min(outWindow, streams[id].outWindow)));
          if count <= 0 {
            if left == 0 {
              return false;
            }
            left := left - 1;
            Await(id);
            continue;
          }
          PieceOfBody(body, k, offset, count);
          assert start + all[..n + count] == start + all[..n] + all[n..n + count];
          streams := streams[id := streams[id].(outWindow := streams[id].outWindow - count,
                                                uploaded := streams[id].uploaded + data[offset..offset + count])];
          outWindow, sent := outWindow - count, sent + count;
          offset, n := offset + count, n + count;
          Await(id);
        }
        PieceOfBody(body, k, |data|, 0);
        k := k + 1;
      }
      assert body[..k] == body;
      streams := streams[id := streams[id].(finished := true)];
      ok := true;
    }
  }

  lemma Ends(body: seq<Bytes>)
    ensures |Concat(body[..0])| == 0
  {
  }

  /** A piece of chunk `k` is a piece of the body. */
  lemma PieceOfBody(body: seq<Bytes>, k: nat, offset: nat, count: nat)
    requires k < |body| && offset + count <= |body[k]|
    ensures var n := |Concat(body[..k])| + offset;
            n + count <= |Concat(body)| && Concat(body)[n..n + count] == body[k][offset..offset + count]
    ensures |Concat(body[..k + 1])| == |Concat(body[..k])| + |body[k]|
  {
    assert body == body[..k] + [body[k]] + body[k + 1..];
    ConcatAppend(body[..k] + [body[k]], body[k + 1..]);
    ConcatAppend(body[..k], [body[k]]);
    ConcatOne(body[k]);
    assert body[..k + 1] == body[..k] + [body[k]];
  }

  lemma MarkedIsFailing(s: Stream)
    ensures Failing(s) == (if s.ended then s else s.(error := true)).(changed := true)
  {
  }

  lemma AllFailing(c: Conn, streams: map<StreamId, Stream>)
    requires !c.failed && streams.Keys == c.streams.Keys
    requires forall id :: id in c.streams ==> streams[id] == Failing(c.streams[id])
    ensures Fail(c) == c.(failed := true, changed := true, streams := streams)
  {
    hide Failing;
    assert Fail(c).streams == streams;
  }
}
