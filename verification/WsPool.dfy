/**
  The pool object (tgproxy/pool.py:19-172, 211-227): its methods change it in
  place as SocketPool's steps say.
  */
module WsPool {
  import opened Common
  import opened SocketPool

  class WsPool {
    const size: nat
    var idle: map<Key, Bucket>
    var refilling: map<Key, TaskId>
    var refills: map<TaskId, Refill>
    var nextBucket: BucketId
    var nextTask: TaskId
    ghost var nextWs: Ws
    ghost var place: map<Ws, Place>

    ghost function View(): Pool
      reads this
    {
      Pool(size, idle, refilling, refills, nextBucket, nextTask, nextWs, place)
    }

    method SetDefault(key: Key)
      modifies `idle, `nextBucket
      ensures View() == WithBucket(old(View()), key)
    {
      if key !in idle {
        idle := idle[key := Bucket(nextBucket, [])];
        nextBucket := nextBucket + 1;
      }
    }

    /** `_schedule_refill`. */
    method Schedule(key: Key, due: bool)
      modifies `refilling, `refills, `nextTask
      ensures View() == ScheduleRefill(old(View()), key, due)
    {
      if size == 0 || key in refilling || !due {
        return;
      }
      refills := refills[nextTask := Refill(key, 0, [], Created, false)];
      refilling := refilling[key := nextTask];
      nextTask := nextTask + 1;
    }

    /** `get`: sockets are popped from the front until one is not stale. */
    method Get(key: Key, stale: set<Ws>, due: bool) returns (ws: Option<Ws>)
      modifies this
      ensures (View(), ws) == SocketPool.Get(old(View()), key, stale, due)
    {
      hide ScheduleRefill, StaleFront, Moved;
      if size == 0 {
        return None;
      }
      SetDefault(key);
      ghost var p1 := View();
      ghost var bucket, n := idle[key].sockets, 0;
      assert bucket[..0] == [];
      NothingMoved(place);
      while idle[key].sockets != []
        invariant View() == p1.(idle := idle, place := place)
        invariant n <= |bucket| && (forall i :: 0 <= i < n ==> bucket[i] in stale)
        invariant key in idle && idle == p1.idle[key := p1.idle[key].(sockets := bucket[n..])]
        invariant place == Moved(p1.place, bucket[..n], Closing)
        decreases |bucket| - n
      {
        var ws1 := idle[key].sockets[0];
        idle := idle[key := idle[key].(sockets := idle[key].sockets[1..])];
        assert bucket[n..][1..] == bucket[n + 1..];
        if ws1 in stale {
          OneMoved(place, p1.place, bucket[..n], ws1);
          place := Moved(place, [ws1], Closing);
          assert bucket[..n + 1] == bucket[..n] + [bucket[n]];
          n := n + 1;
          continue;
        }
        StopsHere(bucket, stale, n);
        place := place[ws1 := HandedOut];
        assert View() == SetSockets(p1, key, bucket[n + 1..], Moved(p1.place, bucket[..n], Closing)[bucket[n] := HandedOut]);
        Schedule(key, due);
        return Some(ws1);
      }
      StopsHere(bucket, stale, n);
      assert bucket[..n] == bucket && bucket[n..] == [];
      Schedule(key, due);
      return None;
    }

    /** One turn of `_rotate`: the bucket is emptied and refilled with what is still good. */
    method Rotate(key: Key, stale: set<Ws>, due: bool)
      modifies this
      ensures View() == SocketPool.Rotate(old(View()), key, stale, due)
    {
      hide ScheduleRefill;
      SetDefault(key);
      ghost var p1 := View();
      ghost var all := idle[key].sockets;
      var bucket, expired, ready := idle[key].sockets, [], [];
      while bucket != []
        invariant ready + Fresh(bucket, stale) == Fresh(all, stale)
        invariant expired + Expired(bucket, stale) == Expired(all, stale)
        decreases |bucket|
      {
        var ws := bucket[0];
        if ws in stale {
          assert (expired + [ws]) + Expired(bucket[1..], stale) == expired + ([ws] + Expired(bucket[1..], stale));
          assert [] + Fresh(bucket[1..], stale) == Fresh(bucket[1..], stale);
          expired := expired + [ws];
        } else {
          assert (ready + [ws]) + Fresh(bucket[1..], stale) == ready + ([ws] + Fresh(bucket[1..], stale));
          assert [] + Expired(bucket[1..], stale) == Expired(bucket[1..], stale);
          ready := ready + [ws];
        }
        bucket := bucket[1..];
      }
      assert ready + [] == ready && expired + [] == expired;
      idle := idle[key := idle[key].(sockets := ready)];
      place := Moved(place, expired, Closing);
      assert View() == SetSockets(p1, key, Fresh(all, stale), Moved(p1.place, Expired(all, stale), Closing));
      if |ready| < size {
        Schedule(key, due);
      }
    }

    /** `reset`: the registered refills are cancelled one by one. */
    method Reset()
      modifies this
      ensures View() == SocketPool.Reset(old(View()))
    {
      hide Moved, Cancel;
      ghost var before := View();
      var todo := refilling.Keys;
      NobodyCancelled(before);
      while todo != {}
        modifies `refills
        invariant todo <= refilling.Keys && refills.Keys == before.refills.Keys
        invariant CancelledBut(before, todo, refills)
        decreases |todo|
      {
        var key :| key in todo;
        var t := refilling[key];
        ghost var earlier := refills;
        if t in refills && refills[t].key == key && !refills[t].phase.Done? {
          refills := refills[t := refills[t].(cancelled := true)];
        }
        OneCancelled(before, todo, key, earlier, refills);
        todo := todo - {key};
      }
      AllCancelled(before, refills);
      ghost var places := SocketPool.Reset(before).place;
      idle, refilling, place := map[], map[], places;
    }
  }

  /** The registered refills of all keys but `todo` are cancelled. */
  ghost predicate CancelledBut(p: Pool, todo: set<Key>, refills: map<TaskId, Refill>) {
    && refills.Keys == p.refills.Keys
    && forall t :: t in p.refills ==>
         refills[t] == if p.refills[t].key in todo then p.refills[t] else Cancel(p, t, p.refills[t])
  }

  lemma NobodyCancelled(p: Pool)
    ensures CancelledBut(p, p.refilling.Keys, p.refills)
  {
  }

  lemma OneCancelled(p: Pool, todo: set<Key>, key: Key, refills: map<TaskId, Refill>, refills': map<TaskId, Refill>)
    requires CancelledBut(p, todo, refills) && key in todo && key in p.refilling
    requires var t := p.refilling[key];
             refills' == if t in refills && refills[t].key == key && !refills[t].phase.Done?
                         then refills[t := refills[t].(cancelled := true)] else refills
    ensures CancelledBut(p, todo - {key}, refills')
  {
    forall t | t in p.refills
      ensures refills'[t] == if p.refills[t].key in todo - {key} then p.refills[t] else Cancel(p, t, p.refills[t])
    {
      assert refills[t] == if p.refills[t].key in todo then p.refills[t] else Cancel(p, t, p.refills[t]);
    }
  }

  lemma AllCancelled(p: Pool, refills: map<TaskId, Refill>)
    requires CancelledBut(p, {}, refills)
    ensures refills == Reset(p).refills
  {
    hide Cancel;
  }

  lemma NothingMoved(place: map<Ws, Place>)
    ensures Moved(place, [], Closing) == place
  {
  }

  lemma OneMoved(now: map<Ws, Place>, place: map<Ws, Place>, sockets: seq<Ws>, w: Ws)
    requires now == Moved(place, sockets, Closing)
    ensures Moved(now, [w], Closing) == Moved(place, sockets + [w], Closing)
  {
  }

  lemma StopsHere(bucket: seq<Ws>, stale: set<Ws>, n: nat)
    requires n <= |bucket| && (forall i :: 0 <= i < n ==> bucket[i] in stale) && (n < |bucket| ==> bucket[n] !in stale)
    ensures StaleFront(bucket, stale) == n
  {
    hide StaleFront;
    var m := StaleFront(bucket, stale);
  }
}
