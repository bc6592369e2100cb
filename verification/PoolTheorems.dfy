/**
  What each event does to the pool of idle sockets: who gets which socket, what
  is closed, how many connections a refill opens and what becomes of them.
  */
module PoolTheorems {
  import opened Common
  import opened SocketPool

  /** The idle sockets of a key, oldest first. */
  function SocketsOf(p: Pool, key: Key): seq<Ws> { if key in p.idle then p.idle[key].sockets else [] }

  /** No other key's sockets change, and no socket's place but those named. */
  ghost predicate OnlyAt(p: Pool, p': Pool, key: Key, moved: set<Ws>) {
    && (forall k :: k != key ==> SocketsOf(p', k) == SocketsOf(p, k))
    && p'.place.Keys == p.place.Keys
    && forall w :: w in p.place && w !in moved ==> p'.place[w] == p.place[w]
  }

  ghost predicate SamePlaces(p: Pool, p': Pool) {
    p'.place == p.place && forall k :: SocketsOf(p', k) == SocketsOf(p, k)
  }

  ghost predicate SameRefills(p: Pool, p': Pool) { p'.refilling == p.refilling && p'.refills == p.refills }

  /** A refill for the key is started, unless there is one or it is too early; nothing else happens to refills. */
  ghost predicate AsksForRefill(p: Pool, p': Pool, key: Key, due: bool) {
    if p.size > 0 && key !in p.refilling && due then
      && p'.refilling == p.refilling[key := p.nextTask]
      && p'.refills.Keys == p.refills.Keys + {p.nextTask}
      && (forall t :: t in p.refills && t != p.nextTask ==> p'.refills[t] == p.refills[t])
      && var r := p'.refills[p.nextTask]; r.key == key && r.phase.Created? && !r.cancelled && r.subs == []
    else SameRefills(p, p')
  }

  predicate IsClosed(p: Pool, w: Ws) { w in p.place && p.place[w] == Closing }

  /** The front of the key's bucket is stale, up to a good socket, which is handed out, or to the end. */
  ghost predicate Serves(p: Pool, p': Pool, key: Key, stale: set<Ws>, served: Option<Ws>) {
    var bucket := SocketsOf(p, key);
    if forall w :: w in bucket ==> w in stale then
      && served == None && SocketsOf(p', key) == []
      && (forall w :: w in bucket ==> IsClosed(p', w))
    else
      exists n :: ServesAt(p, p', key, stale, served, n)
  }

  ghost predicate ServesAt(p: Pool, p': Pool, key: Key, stale: set<Ws>, served: Option<Ws>, n: nat) {
    var bucket := SocketsOf(p, key);
    && n < |bucket| && bucket[n] !in stale && (forall i :: 0 <= i < n ==> bucket[i] in stale)
    && served == Some(bucket[n]) && SocketsOf(p', key) == bucket[n + 1..]
    && bucket[n] in p'.place && p'.place[bucket[n]] == HandedOut
    && forall w :: w in bucket[..n] ==> IsClosed(p', w)
  }

  /** `kept` is what is good of the bucket, in its order. */
  ghost predicate KeepsGood(bucket: seq<Ws>, stale: set<Ws>, kept: seq<Ws>) {
    (forall w :: w in kept <==> w in bucket && w !in stale) && InOrder(kept, bucket)
  }

  /** The sockets of `kept` occur in `bucket` in this order. */
  predicate InOrder(kept: seq<Ws>, bucket: seq<Ws>) {
    kept == [] ||
    (bucket != [] && ((kept[0] == bucket[0] && InOrder(kept[1..], bucket[1..])) || InOrder(kept, bucket[1..])))
  }

  /** One connection attempt of one refill comes to this; the refill itself is as before. */
  ghost predicate OneSub(p: Pool, p': Pool, t: TaskId, i: nat, sub: Sub) {
    && p'.refilling == p.refilling && t in p.refills && i < |p.refills[t].subs|
    && p'.refills == p.refills[t := p.refills[t].(subs := p.refills[t].subs[i := sub])]
  }

  ghost predicate OnePhase(p: Pool, p': Pool, t: TaskId, phase: Phase) {
    t in p.refills && p'.refills == p.refills[t := p.refills[t].(phase := phase, cancelled := false)]
  }

  /** What an event must come to. */
  ghost predicate Does(p: Pool, act: Act, p': Pool)
    requires Enabled(p, act)
  {
    match act
    case GetOne(key, stale, due) =>
      if p.size == 0 then p' == p
      else
        var bucket := SocketsOf(p, key);
        && OnlyAt(p, p', key, set w | w in bucket) && AsksForRefill(p, p', key, due)
        && Serves(p, p', key, stale, Get(p, key, stale, due).1)
    case Warm(key, due) => SamePlaces(p, p') && AsksForRefill(p, p', key, due)
    case RotateOne(key, stale, due) =>
      var bucket, kept := SocketsOf(p, key), SocketsOf(p', key);
      && OnlyAt(p, p', key, set w | w in bucket && w in stale)
      && KeepsGood(bucket, stale, kept)
      && (forall w :: w in bucket && w in stale ==> IsClosed(p', w))
      && if |kept| < p.size then AsksForRefill(p, p', key, due) else SameRefills(p, p')
    case ResetAll =>
      && p'.idle == map[] && p'.refilling == map[]
      && p'.place.Keys == p.place.Keys
      && (forall w :: w in p.place ==> p'.place[w] == if p.place[w].Idle? then Closing else p.place[w])
      && p'.refills.Keys == p.refills.Keys
      && forall t :: t in p.refills ==>
           p'.refills[t] == if Registered(p, t) && !p.refills[t].phase.Done? then p.refills[t].(cancelled := true) else p.refills[t]
    case BeginRefill(t) =>
      var missing := p.size - |SocketsOf(p, p.refills[t].key)|;
      && SamePlaces(p, p') && p'.refilling == p.refilling && p'.refills.Keys == p.refills.Keys
      && (forall u :: u in p.refills && u != t ==> p'.refills[u] == p.refills[u])
      && p'.refills[t].key == p.refills[t].key && !p'.refills[t].cancelled
      && |p'.refills[t].subs| == (if missing > 0 then missing else 0)
      && (forall i :: 0 <= i < |p'.refills[t].subs| ==> p'.refills[t].subs[i] == Connecting)
      && p'.refills[t].phase == if missing > 0 then Adopting else Cleaning
    case ConnectSub(t, i) =>
      && OneSub(p, p', t, i, Got(p.nextWs)) && p'.place == p.place[p.nextWs := Pending(t, i)]
      && forall k :: SocketsOf(p', k) == SocketsOf(p, k)
    case FailSub(t, i) => OneSub(p, p', t, i, Settled) && SamePlaces(p, p')
    case TakeSub(t, i) =>
      var w, key := p.refills[t].subs[i].ws, p.refills[t].key;
      if Registered(p, t) then
        && OneSub(p, p', t, i, Settled) && SocketsOf(p', key) == SocketsOf(p, key) + [w]
        && OnlyAt(p, p', key, {w}) && w in p'.place && p'.place[w] == Idle(key)
      else OnePhase(p, p', t, Cleaning) && p'.refilling == p.refilling && SamePlaces(p, p')
    case Conclude(t) => OnePhase(p, p', t, Cleaning) && p'.refilling == p.refilling && SamePlaces(p, p')
    case CleanSub(t, i) =>
      && OneSub(p, p', t, i, Settled) && p'.place == p.place[p.refills[t].subs[i].ws := Closing]
      && forall k :: SocketsOf(p', k) == SocketsOf(p, k)
    case FinishRefill(t) =>
      && OnePhase(p, p', t, Done) && SamePlaces(p, p')
      && p'.refilling == if Registered(p, t) then p.refilling - {p.refills[t].key} else p.refilling
    case DeliverCancel(t) =>
      && OnePhase(p, p', t, if p.refills[t].phase.Adopting? then Cleaning else Done)
      && p'.refilling == p.refilling && SamePlaces(p, p')
  }

  /**
    In every run: a get closes the stale sockets at the front and hands out the
    first good one; a rotation keeps the good ones in order and closes the others;
    each asks for a refill when there is room and none is under way. A refill opens
    as many connections as its bucket lacks, puts every socket it gets at the end
    of the bucket while it is the registered one, and closes the rest. A reset
    closes all that is idle and cancels every refill under way.
    */
  lemma EventsDoTheirPart(states: seq<Pool>, acts: seq<Act>, k: nat)
    requires IsRun(states, acts) && k < |acts|
    ensures Does(states[k], acts[k], states[k + 1])
  {
    hide Inv, Does, Enabled, Step;
    RunsKeep(states, acts, k);
    StepDoes(states[k], acts[k]);
  }

  lemma StepDoes(p: Pool, act: Act)
    requires Inv(p) && Enabled(p, act)
    ensures Does(p, act, Step(p, act))
  {
    hide Inv, Get, Rotate, Cancel;
    match act {
      case GetOne(key, stale, due) => GetDoes(p, key, stale, due);
      case RotateOne(key, stale, due) => RotationDoes(p, key, stale, due);
      case BeginRefill(t) => BeginDoes(p, t);
      case TakeSub(t, i) => TakeDoes(p, t, i);
      case ResetAll => ResetDoes(p);
      case Warm(key, due) =>
      case ConnectSub(t, i) =>
      case FailSub(t, i) =>
      case Conclude(t) =>
      case CleanSub(t, i) => CleanDoes(p, t, i);
      case FinishRefill(t) => NotCancelled(p, t);
      case DeliverCancel(t) =>
    }
  }

  lemma NotCancelled(p: Pool, t: TaskId)
    requires Enabled(p, FinishRefill(t))
    ensures !p.refills[t].cancelled
  {
  }

  lemma MovedTo(place: map<Ws, Place>, sockets: seq<Ws>, to: Place)
    ensures Moved(place, sockets, to).Keys == place.Keys
    ensures forall w :: w in place && w in sockets ==> Moved(place, sockets, to)[w] == to
    ensures forall w :: w in place && w !in sockets ==> Moved(place, sockets, to)[w] == place[w]
  {
  }

  lemma IdleAreKnown(p: Pool, key: Key)
    requires Inv(p)
    ensures Distinct(SocketsOf(p, key)) && forall w :: w in SocketsOf(p, key) ==> w in p.place
  {
    hide PendingOk, RefillsOk, SizesOk;
  }

  lemma NewBucketIsEmpty(p: Pool, key: Key)
    ensures var p1 := WithBucket(p, key);
            && p1.place == p.place && SameRefills(p, p1) && p1.size == p.size && p1.nextTask == p.nextTask
            && forall k :: SocketsOf(p1, k) == SocketsOf(p, k)
  {
  }

  lemma AskingOnlyAsks(p: Pool, key: Key, due: bool)
    ensures AsksForRefill(p, ScheduleRefill(p, key, due), key, due)
    ensures ScheduleRefill(p, key, due).idle == p.idle && ScheduleRefill(p, key, due).place == p.place
  {
  }

  /** A bucket and places change, then a refill is asked for. */
  lemma ThenAsks(p: Pool, p2: Pool, key: Key, due: bool)
    requires SameRefills(p, p2) && p2.size == p.size && p2.nextTask == p.nextTask
    ensures AsksForRefill(p, ScheduleRefill(p2, key, due), key, due)
  {
  }

  /** The pool after a get that found a good socket behind `n` stale ones, before it asks for a refill. */
  lemma HandingOut(p: Pool, p2: Pool, key: Key, stale: set<Ws>, n: nat)
    requires Inv(p) && n < |SocketsOf(p, key)|
    requires SocketsOf(p, key)[n] !in stale && forall i :: 0 <= i < n ==> SocketsOf(p, key)[i] in stale
    requires SocketsOf(p2, key) == SocketsOf(p, key)[n + 1..]
    requires forall k :: k != key ==> SocketsOf(p2, k) == SocketsOf(p, k)
    requires p2.place == Moved(p.place, SocketsOf(p, key)[..n], Closing)[SocketsOf(p, key)[n] := HandedOut]
    ensures OnlyAt(p, p2, key, set w | w in SocketsOf(p, key))
    ensures ServesAt(p, p2, key, stale, Some(SocketsOf(p, key)[n]), n)
  {
    hide Inv, Moved, Distinct, SocketsOf;
    var bucket := SocketsOf(p, key);
    IdleAreKnown(p, key);
    StillDistinct(bucket, n);
    MovedTo(p.place, bucket[..n], Closing);
    assert bucket[n] in bucket;
    assert p2.place.Keys == p.place.Keys + {bucket[n]} == p.place.Keys;
  }

  lemma Missing(p: Pool, p2: Pool, key: Key)
    requires Inv(p) && SocketsOf(p2, key) == []
    requires forall k :: k != key ==> SocketsOf(p2, k) == SocketsOf(p, k)
    requires p2.place == Moved(p.place, SocketsOf(p, key), Closing)
    ensures OnlyAt(p, p2, key, set w | w in SocketsOf(p, key))
    ensures forall w :: w in SocketsOf(p, key) ==> IsClosed(p2, w)
  {
    hide Inv, Moved, Distinct, SocketsOf;
    IdleAreKnown(p, key);
    MovedTo(p.place, SocketsOf(p, key), Closing);
  }

  lemma SameSockets(p: Pool, p2: Pool, p': Pool, key: Key, stale: set<Ws>, moved: set<Ws>, served: Option<Ws>, n: nat)
    requires p'.idle == p2.idle && p'.place == p2.place
    ensures OnlyAt(p, p2, key, moved) ==> OnlyAt(p, p', key, moved)
    ensures ServesAt(p, p2, key, stale, served, n) ==> ServesAt(p, p', key, stale, served, n)
    ensures forall k :: SocketsOf(p', k) == SocketsOf(p2, k)
  {
  }

  lemma GetDoes(p: Pool, key: Key, stale: set<Ws>, due: bool)
    requires Inv(p)
    ensures Does(p, GetOne(key, stale, due), Get(p, key, stale, due).0)
  {
    hide Inv, Moved, WithBucket, AsksForRefill, ScheduleRefill, SameRefills, OnlyAt, ServesAt;
    if p.size > 0 {
      var bucket, p1 := SocketsOf(p, key), WithBucket(p, key);
      var n := StaleFront(bucket, stale);
      NewBucketIsEmpty(p, key);
      var closed := Moved(p.place, bucket[..n], Closing);
      var p2 := if n < |bucket| then SetSockets(p1, key, bucket[n + 1..], closed[bucket[n] := HandedOut])
                else SetSockets(p1, key, [], closed);
      SameRefillsThrough(p, p1, p2);
      ThenAsks(p, p2, key, due);
      AskingOnlyAsks(p2, key, due);
      SameSockets(p, p2, ScheduleRefill(p2, key, due), key, stale, set w | w in bucket,
                  if n < |bucket| then Some(bucket[n]) else None, n);
      if n < |bucket| {
        HandingOut(p, p2, key, stale, n);
        assert bucket[n] in bucket;
      } else {
        assert bucket[..n] == bucket;
        Missing(p, p2, key);
      }
    }
  }

  lemma SameRefillsThrough(p: Pool, p1: Pool, p2: Pool)
    requires SameRefills(p, p1) && p2.refilling == p1.refilling && p2.refills == p1.refills
    ensures SameRefills(p, p2)
  {
  }

  lemma StillDistinct(bucket: seq<Ws>, n: nat)
    requires Distinct(bucket) && n < |bucket|
    ensures bucket[n] !in bucket[..n]
  {
  }

  lemma {:induction false} FreshKeepsOrder(bucket: seq<Ws>, stale: set<Ws>)
    ensures KeepsGood(bucket, stale, Fresh(bucket, stale))
    ensures forall w :: w in Expired(bucket, stale) <==> w in bucket && w in stale
  {
    if bucket != [] {
      FreshKeepsOrder(bucket[1..], stale);
      assert bucket == [bucket[0]] + bucket[1..];
      var more := Fresh(bucket[1..], stale);
      assert Fresh(bucket, stale) == if bucket[0] in stale then more else [bucket[0]] + more;
      assert ([bucket[0]] + more)[1..] == more;
    }
  }

  lemma RotationDoes(p: Pool, key: Key, stale: set<Ws>, due: bool)
    requires Inv(p) && p.size > 0
    ensures Does(p, RotateOne(key, stale, due), Rotate(p, key, stale, due))
  {
    hide Inv, KeepsGood, Fresh, Expired, Moved, WithBucket, AsksForRefill, ScheduleRefill, SameRefills, Distinct;
    var bucket, p1 := SocketsOf(p, key), WithBucket(p, key);
    FreshKeepsOrder(bucket, stale);
    NewBucketIsEmpty(p, key);
    IdleAreKnown(p, key);
    MovedTo(p.place, Expired(bucket, stale), Closing);
    var p2 := SetSockets(p1, key, Fresh(bucket, stale), Moved(p.place, Expired(bucket, stale), Closing));
    SameRefillsThrough(p, p1, p2);
    ThenAsks(p, p2, key, due);
    AskingOnlyAsks(p2, key, due);
  }

  lemma BeginDoes(p: Pool, t: TaskId)
    requires Inv(p) && Enabled(p, BeginRefill(t))
    ensures Does(p, BeginRefill(t), Begin(p, t))
  {
    hide BucketsOk, PendingOk, SizesOk, Open;
  }

  lemma TakeDoes(p: Pool, t: TaskId, i: nat)
    requires Inv(p) && Enabled(p, TakeSub(t, i))
    ensures Does(p, TakeSub(t, i), Take(p, t, i))
  {
    hide BucketsOk, SizesOk, Open;
    assert RefillOk(p, t);
    assert p.refills[t].subs[i].ws in p.place;
  }

  lemma CleanDoes(p: Pool, t: TaskId, i: nat)
    requires Inv(p) && Enabled(p, CleanSub(t, i))
    ensures Does(p, CleanSub(t, i), Clean(p, t, i))
  {
    hide Inv;
  }

  lemma ResetDoes(p: Pool)
    requires Inv(p)
    ensures Does(p, ResetAll, Reset(p))
  {
    hide BucketsOk, PendingOk, SizesOk, Open;
  }
}
