/**
  The pool of idle WebSockets (tgproxy/pool.py) as a step system: gets,
  rotations and resets between the turns of refill tasks, whose connections
  complete in any order.
  */
module SocketPool {
  import opened Common

  datatype Key = Key(dc: nat, media: bool, test: bool)

  type Ws = nat
  type BucketId = nat
  type TaskId = nat

  /** A connection attempt of a refill: running, finished with a socket nobody has taken, or dealt with. */
  datatype Sub = Connecting | Got(ws: Ws) | Settled

  datatype Phase = Created | Adopting | Cleaning | Done

  /** A `_refill` task; `cancelled` while a cancellation waits to be delivered. */
  datatype Refill = Refill(key: Key, bucket: BucketId, subs: seq<Sub>, phase: Phase, cancelled: bool)

  /** A deque of idle sockets, with the identity by which a refill holds on to it. */
  datatype Bucket = Bucket(id: BucketId, sockets: seq<Ws>)

  /** Where a socket is; `Lost` in a deque that no key leads to any more. */
  datatype Place = Idle(key: Key) | Pending(task: TaskId, sub: nat) | HandedOut | Closing | Lost

  /** The pool; `place` records every socket ever connected. */
  datatype Pool = Pool(
    size: nat, idle: map<Key, Bucket>, refilling: map<Key, TaskId>, refills: map<TaskId, Refill>,
    nextBucket: BucketId, nextTask: TaskId, nextWs: Ws, place: map<Ws, Place>)

  function Moved(place: map<Ws, Place>, sockets: seq<Ws>, to: Place): map<Ws, Place> {
    map w | w in place :: if w in sockets then to else place[w]
  }

  /** `_idle.setdefault(key, deque())`. */
  function WithBucket(p: Pool, key: Key): (r: Pool)
    ensures key in r.idle
  {
    if key in p.idle then p
    else p.(idle := p.idle[key := Bucket(p.nextBucket, [])], nextBucket := p.nextBucket + 1)
  }

  function SetSockets(p: Pool, key: Key, sockets: seq<Ws>, place: map<Ws, Place>): Pool
    requires key in p.idle
  {
    p.(idle := p.idle[key := p.idle[key].(sockets := sockets)], place := place)
  }

  /** `_schedule_refill`; `due` if the backoff after failures is over. */
  function ScheduleRefill(p: Pool, key: Key, due: bool): Pool {
    if p.size == 0 || key in p.refilling || !due then p
    else p.(refilling := p.refilling[key := p.nextTask],
            refills := p.refills[p.nextTask := Refill(key, 0, [], Created, false)], nextTask := p.nextTask + 1)
  }

  /** How many sockets at the front `get` throws away. */
  function StaleFront(bucket: seq<Ws>, stale: set<Ws>): (n: nat)
    ensures n <= |bucket| && (forall i :: 0 <= i < n ==> bucket[i] in stale) && (n < |bucket| ==> bucket[n] !in stale)
  {
    if bucket == [] || bucket[0] !in stale then 0
    else
      var n := 1 + StaleFront(bucket[1..], stale);
      assert forall i :: 0 < i < n ==> bucket[i] == bucket[1..][i - 1];
      n
  }

  /** `get`: the first socket that is not stale, if there is one. */
  function Get(p: Pool, key: Key, stale: set<Ws>, due: bool): (Pool, Option<Ws>) {
    if p.size == 0 then (p, None)
    else
      var p1 := WithBucket(p, key);
      var bucket := p1.idle[key].sockets;
      var n := StaleFront(bucket, stale);
      var closed := Moved(p1.place, bucket[..n], Closing);
      if n == |bucket| then (ScheduleRefill(SetSockets(p1, key, [], closed), key, due), None)
      else
        (ScheduleRefill(SetSockets(p1, key, bucket[n + 1..], closed[bucket[n] := HandedOut]), key, due), Some(bucket[n]))
  }

  function Fresh(bucket: seq<Ws>, stale: set<Ws>): (r: seq<Ws>)
    ensures |r| <= |bucket|
  {
    if bucket == [] then [] else (if bucket[0] in stale then [] else [bucket[0]]) + Fresh(bucket[1..], stale)
  }

  function Expired(bucket: seq<Ws>, stale: set<Ws>): seq<Ws> {
    if bucket == [] then [] else (if bucket[0] in stale then [bucket[0]] else []) + Expired(bucket[1..], stale)
  }

  /** One turn of `_rotate`. */
  function Rotate(p: Pool, key: Key, stale: set<Ws>, due: bool): Pool {
    var p1 := WithBucket(p, key);
    var bucket := p1.idle[key].sockets;
    var p2 := SetSockets(p1, key, Fresh(bucket, stale), Moved(p1.place, Expired(bucket, stale), Closing));
    if |Fresh(bucket, stale)| < p.size then ScheduleRefill(p2, key, due) else p2
  }

  /** `reset`: registered refills are cancelled, idle sockets closed, everything forgotten. */
  function Reset(p: Pool): Pool {
    p.(idle := map[], refilling := map[],
       refills := map t | t in p.refills :: Cancel(p, t, p.refills[t]),
       place := map w | w in p.place :: if p.place[w].Idle? then Closing else p.place[w])
  }

  function Cancel(p: Pool, t: TaskId, r: Refill): Refill {
    if r.key in p.refilling && p.refilling[r.key] == t && !r.phase.Done? then r.(cancelled := true) else r
  }

  // -------------------------------------------------------- a refill's turns

  function Connects(n: nat): (subs: seq<Sub>)
    ensures |subs| == n
  {
    seq(n, _ => Connecting)
  }

  predicate Registered(p: Pool, t: TaskId) {
    t in p.refills && p.refills[t].key in p.refilling && p.refilling[p.refills[t].key] == t
  }

  /** `_refill` up to its first await. */
  function Begin(p: Pool, t: TaskId): Pool
    requires t in p.refills
  {
    var r := p.refills[t];
    var p1 := WithBucket(p, r.key);
    var needed := p.size - |p1.idle[r.key].sockets|;
    p1.(refills := p1.refills[t := r.(bucket := p1.idle[r.key].id, phase := if needed <= 0 then Cleaning else Adopting,
                                      subs := Connects(if needed <= 0 then 0 else needed))])
  }

  /** A connection has been made; it may be noticed much later. */
  function Connect(p: Pool, t: TaskId, i: nat): Pool
    requires t in p.refills && i < |p.refills[t].subs|
  {
    var r := p.refills[t];
    p.(refills := p.refills[t := r.(subs := r.subs[i := Got(p.nextWs)])], nextWs := p.nextWs + 1,
       place := p.place[p.nextWs := Pending(t, i)])
  }

  function Settle(p: Pool, t: TaskId, i: nat): Pool
    requires t in p.refills && i < |p.refills[t].subs|
  {
    var r := p.refills[t];
    p.(refills := p.refills[t := r.(subs := r.subs[i := Settled])])
  }

  /** The turn in which a refill learns of a socket: adopts it, or gives up if it has been replaced. */
  function Take(p: Pool, t: TaskId, i: nat): Pool
    requires t in p.refills && i < |p.refills[t].subs| && p.refills[t].subs[i].Got?
  {
    var r := p.refills[t];
    var w := r.subs[i].ws;
    if !Registered(p, t) then p.(refills := p.refills[t := r.(phase := Cleaning)])
    else if r.key in p.idle && p.idle[r.key].id == r.bucket then
      Settle(SetSockets(p, r.key, p.idle[r.key].sockets + [w], p.place[w := Idle(r.key)]), t, i)
    else Settle(p.(place := p.place[w := Lost]), t, i)
  }

  /** The `finally` block closes a socket that was not adopted. */
  function Clean(p: Pool, t: TaskId, i: nat): Pool
    requires t in p.refills && i < |p.refills[t].subs| && p.refills[t].subs[i].Got?
  {
    Settle(p.(place := p.place[p.refills[t].subs[i].ws := Closing]), t, i)
  }

  /** The end of the `finally` block. */
  function Finish(p: Pool, t: TaskId): Pool
    requires t in p.refills
  {
    var r := p.refills[t];
    p.(refills := p.refills[t := r.(phase := Done)],
       refilling := if Registered(p, t) then p.refilling - {r.key} else p.refilling)
  }

  /**
    A cancellation arrives at the await where the task stands: before its first
    step it never runs, in its loop it goes on to the `finally` block, and in
    the `finally` block it leaves at once, cleaned up or not.
    */
  function Deliver(p: Pool, t: TaskId): Pool
    requires t in p.refills
  {
    var r := p.refills[t];
    p.(refills := p.refills[t := r.(cancelled := false, phase := if r.phase.Adopting? then Cleaning else Done)])
  }

  datatype Act =
    | GetOne(key: Key, stale: set<Ws>, due: bool)
    | Warm(key: Key, due: bool)
    | RotateOne(key: Key, stale: set<Ws>, due: bool)
    | ResetAll
    | BeginRefill(t: TaskId)
    | ConnectSub(t: TaskId, i: nat)
    | FailSub(t: TaskId, i: nat)
    | TakeSub(t: TaskId, i: nat)
    | Conclude(t: TaskId)
    | CleanSub(t: TaskId, i: nat)
    | FinishRefill(t: TaskId)
    | DeliverCancel(t: TaskId)

  /** What can happen next; a task with a cancellation under way does nothing else first. */
  predicate Enabled(p: Pool, act: Act) {
    match act
    case GetOne(_, _, _) => true
    case Warm(_, _) => true
    case RotateOne(_, _, _) => p.size > 0
    case ResetAll => true
    case BeginRefill(t) => t in p.refills && p.refills[t].phase.Created? && !p.refills[t].cancelled
    case ConnectSub(t, i) => t in p.refills && i < |p.refills[t].subs| && p.refills[t].subs[i].Connecting?
                             && !p.refills[t].phase.Done?
    case FailSub(t, i) => t in p.refills && i < |p.refills[t].subs| && p.refills[t].subs[i].Connecting?
    case TakeSub(t, i) => t in p.refills && p.refills[t].phase.Adopting? && !p.refills[t].cancelled
                          && i < |p.refills[t].subs| && p.refills[t].subs[i].Got?
    case Conclude(t) => t in p.refills && p.refills[t].phase.Adopting? && !p.refills[t].cancelled
                        && forall i :: 0 <= i < |p.refills[t].subs| ==> p.refills[t].subs[i].Settled?
    case CleanSub(t, i) => t in p.refills && p.refills[t].phase.Cleaning? && !p.refills[t].cancelled
                           && i < |p.refills[t].subs| && p.refills[t].subs[i].Got?
    case FinishRefill(t) => t in p.refills && p.refills[t].phase.Cleaning? && !p.refills[t].cancelled
                            && forall i :: 0 <= i < |p.refills[t].subs| ==> p.refills[t].subs[i].Settled?
    case DeliverCancel(t) => t in p.refills && p.refills[t].cancelled
  }

  function Step(p: Pool, act: Act): Pool
    requires Enabled(p, act)
  {
    match act
    case GetOne(key, stale, due) => Get(p, key, stale, due).0
    case Warm(key, due) => ScheduleRefill(p, key, due)
    case RotateOne(key, stale, due) => Rotate(p, key, stale, due)
    case ResetAll => Reset(p)
    case BeginRefill(t) => Begin(p, t)
    case ConnectSub(t, i) => Connect(p, t, i)
    case FailSub(t, i) => Settle(p, t, i)
    case TakeSub(t, i) => Take(p, t, i)
    case Conclude(t) => p.(refills := p.refills[t := p.refills[t].(phase := Cleaning)])
    case CleanSub(t, i) => Clean(p, t, i)
    case FinishRefill(t) => Finish(p, t)
    case DeliverCancel(t) => Deliver(p, t)
  }

  function Empty(size: nat): Pool { Pool(size, map[], map[], map[], 0, 0, 0, map[]) }

  ghost predicate IsRun(states: seq<Pool>, acts: seq<Act>) {
    && |states| == |acts| + 1
    && (exists size: nat :: states[0] == Empty(size))
    && forall k :: 0 <= k < |acts| ==> Enabled(states[k], acts[k]) && states[k + 1] == Step(states[k], acts[k])
  }

  // ---------------------------------------------------------------- invariant

  function Open(subs: seq<Sub>): nat {
    if subs == [] then 0 else (if subs[0].Settled? then 0 else 1) + Open(subs[1..])
  }

  ghost predicate Distinct(bucket: seq<Ws>) { forall i, j :: 0 <= i < j < |bucket| ==> bucket[i] != bucket[j] }

  /** The bucket of a key holds exactly the sockets whose place it is, once each. */
  ghost predicate BucketsOk(idle: map<Key, Bucket>, place: map<Ws, Place>) {
    && (forall k :: k in idle ==> Distinct(idle[k].sockets))
    && (forall k, w :: k in idle && w in idle[k].sockets ==> w in place && place[w] == Idle(k))
    && (forall w :: w in place && place[w].Idle? ==> place[w].key in idle && w in idle[place[w].key].sockets)
    && (forall w :: w in place ==> !place[w].Lost?)
  }

  /** Every socket is known, and one is pending exactly where a refill has it. */
  ghost predicate PendingOk(refills: map<TaskId, Refill>, place: map<Ws, Place>, nextWs: Ws) {
    && (forall w: Ws :: w in place <==> w < nextWs)
    && (forall t, i :: t in refills && 0 <= i < |refills[t].subs| && refills[t].subs[i].Got? ==>
          refills[t].subs[i].ws in place && place[refills[t].subs[i].ws] == Pending(t, i))
    && (forall w :: w in place && place[w].Pending? ==>
          place[w].task in refills && place[w].sub < |refills[place[w].task].subs|
          && refills[place[w].task].subs[place[w].sub] == Got(w))
  }

  /** One refill's life: registered until it ends or is cancelled, and nothing left in hand at the end. */
  predicate RefillOk(p: Pool, t: TaskId) {
    t in p.refills &&
    var r := p.refills[t];
    && (r.cancelled ==> !Registered(p, t))
    && (r.phase.Created? ==> r.subs == [] && (Registered(p, t) || r.cancelled))
    && (r.phase.Adopting? ==> Registered(p, t) || r.cancelled)
    && (r.phase.Done? ==> Open(r.subs) == 0 && !Registered(p, t) && !r.cancelled)
    && (r.phase.Cleaning? && (Registered(p, t) || r.cancelled) ==> Open(r.subs) == 0)
    && (r.phase.Adopting? && Registered(p, t) ==> r.key in p.idle && p.idle[r.key].id == r.bucket)
  }

  ghost predicate RefillsOk(p: Pool) {
    && (forall t :: t in p.refills ==> t < p.nextTask && RefillOk(p, t))
    && (forall k :: k in p.refilling ==> p.refilling[k] in p.refills && p.refills[p.refilling[k]].key == k)
  }

  /** The sockets a key's refill may still add. */
  function Coming(p: Pool, key: Key): nat {
    if key in p.refilling && p.refilling[key] in p.refills && p.refills[p.refilling[key]].phase.Adopting?
    then Open(p.refills[p.refilling[key]].subs) else 0
  }

  ghost predicate SizesOk(p: Pool) {
    forall k :: k in p.idle ==> |p.idle[k].sockets| + Coming(p, k) <= p.size
  }

  ghost predicate Inv(p: Pool) {
    BucketsOk(p.idle, p.place) && PendingOk(p.refills, p.place, p.nextWs) && RefillsOk(p) && SizesOk(p)
  }

  // ------------------------------------------------------------- preservation

  /** When only sockets and places change, refills and what they may add stay as they are. */
  lemma RefillsKeep(p: Pool, p': Pool)
    requires RefillsOk(p) && p'.refills == p.refills && p'.refilling == p.refilling && p'.nextTask == p.nextTask
    requires forall k :: k in p.idle ==> k in p'.idle && p'.idle[k].id == p.idle[k].id
    ensures RefillsOk(p')
    ensures forall k :: Coming(p', k) == Coming(p, k)
  {
    hide Open;
    forall t | t in p'.refills ensures RefillOk(p', t) {
      assert RefillOk(p, t);
    }
  }

  /** A key without a bucket has no refill that is connecting. */
  lemma NothingComing(p: Pool, key: Key)
    requires RefillsOk(p) && key !in p.idle
    ensures Coming(p, key) == 0
  {
    if key in p.refilling {
      assert RefillOk(p, p.refilling[key]);
    }
  }

  lemma WithBucketKeeps(p: Pool, key: Key)
    requires Inv(p)
    ensures Inv(WithBucket(p, key)) && WithBucket(p, key).place == p.place
  {
    hide PendingOk, RefillsOk, Coming;
    if key !in p.idle {
      NothingComing(p, key);
      RefillsKeep(p, WithBucket(p, key));
    }
  }

  /** The same sockets in hand. */
  ghost predicate SameGot(subs: seq<Sub>, subs': seq<Sub>) {
    && (forall i :: 0 <= i < |subs| && subs[i].Got? ==> i < |subs'| && subs'[i] == subs[i])
    && (forall i :: 0 <= i < |subs'| && subs'[i].Got? ==> i < |subs| && subs'[i] == subs[i])
  }

  lemma PendingStays(refills: map<TaskId, Refill>, refills': map<TaskId, Refill>, place: map<Ws, Place>, nextWs: Ws)
    requires PendingOk(refills, place, nextWs)
    requires forall t :: t in refills ==> t in refills' && SameGot(refills[t].subs, refills'[t].subs)
    requires forall t :: t in refills' && t !in refills ==> refills'[t].subs == []
    ensures PendingOk(refills', place, nextWs)
  {
    forall w | w in place && place[w].Pending?
      ensures place[w].task in refills' && place[w].sub < |refills'[place[w].task].subs|
              && refills'[place[w].task].subs[place[w].sub] == Got(w)
    {
      assert SameGot(refills[place[w].task].subs, refills'[place[w].task].subs);
    }
    forall t, i | t in refills' && 0 <= i < |refills'[t].subs| && refills'[t].subs[i].Got?
      ensures refills'[t].subs[i].ws in place && place[refills'[t].subs[i].ws] == Pending(t, i)
    {
      assert t in refills && SameGot(refills[t].subs, refills'[t].subs);
    }
  }

  lemma ScheduleKeeps(p: Pool, key: Key, due: bool)
    requires Inv(p)
    ensures Inv(ScheduleRefill(p, key, due))
  {
    hide BucketsOk, SizesOk, PendingOk, RefillsOk;
    if ScheduleRefill(p, key, due) != p {
      ScheduleRefills(p, key);
      SchedulePending(p, key);
      ScheduleSizes(p, key);
    }
  }

  lemma ScheduleRefills(p: Pool, key: Key)
    requires RefillsOk(p) && key !in p.refilling && p.size > 0
    ensures RefillsOk(ScheduleRefill(p, key, true))
  {
    var p' := ScheduleRefill(p, key, true);
    forall t | t in p'.refills ensures RefillOk(p', t) {
      if t != p.nextTask {
        assert RefillOk(p, t);
      }
    }
    forall k | k in p'.refilling ensures p'.refilling[k] in p'.refills && p'.refills[p'.refilling[k]].key == k {
      if k != key {
        assert RefillOk(p, p.refilling[k]);
      }
    }
  }

  lemma SchedulePending(p: Pool, key: Key)
    requires RefillsOk(p) && PendingOk(p.refills, p.place, p.nextWs)
    ensures PendingOk(ScheduleRefill(p, key, true).refills, p.place, p.nextWs)
  {
    hide PendingOk;
    hide RefillOk;
    PendingStays(p.refills, ScheduleRefill(p, key, true).refills, p.place, p.nextWs);
  }

  lemma ScheduleSizes(p: Pool, key: Key)
    requires RefillsOk(p) && SizesOk(p)
    ensures SizesOk(ScheduleRefill(p, key, true))
  {
    hide Open;
    var p' := ScheduleRefill(p, key, true);
    forall k | k in p.idle ensures Coming(p', k) <= Coming(p, k) {
      if k in p.refilling {
        assert RefillOk(p, p.refilling[k]);
      }
    }
  }

  /** Sockets leave a bucket; what remains is part of what was there. */
  ghost predicate Leaves(p: Pool, key: Key, sockets: seq<Ws>, place: map<Ws, Place>)
    requires key in p.idle
  {
    && Distinct(sockets) && |sockets| <= |p.idle[key].sockets|
    && place.Keys == p.place.Keys
    && (forall w :: w in sockets ==> w in p.idle[key].sockets)
    && forall w :: w in p.place ==>
         if w in p.idle[key].sockets && w !in sockets then place[w].HandedOut? || place[w].Closing?
         else place[w] == p.place[w]
  }

  lemma LeavingKeeps(p: Pool, key: Key, sockets: seq<Ws>, place: map<Ws, Place>)
    requires Inv(p) && key in p.idle && Leaves(p, key, sockets, place)
    ensures Inv(SetSockets(p, key, sockets, place))
  {
    hide BucketsOk, PendingOk, RefillsOk, Coming, Leaves;
    LeavingBuckets(p, key, sockets, place);
    LeavingPending(p, key, sockets, place);
    RefillsKeep(p, SetSockets(p, key, sockets, place));
    assert |sockets| <= |p.idle[key].sockets| by { NoMore(p, key, sockets, place); }
  }

  lemma NoMore(p: Pool, key: Key, sockets: seq<Ws>, place: map<Ws, Place>)
    requires key in p.idle && Leaves(p, key, sockets, place)
    ensures |sockets| <= |p.idle[key].sockets|
  {
  }

  lemma LeavingBuckets(p: Pool, key: Key, sockets: seq<Ws>, place: map<Ws, Place>)
    requires BucketsOk(p.idle, p.place) && key in p.idle && Leaves(p, key, sockets, place)
    ensures BucketsOk(p.idle[key := p.idle[key].(sockets := sockets)], place)
  {
    hide Distinct;
    var idle := p.idle[key := p.idle[key].(sockets := sockets)];
    forall k, w | k in idle && w in idle[k].sockets ensures w in place && place[w] == Idle(k) {
      assert w in p.idle[k].sockets;
    }
    forall w | w in place ensures place[w].Idle? ==> place[w].key in idle && w in idle[place[w].key].sockets
                          ensures !place[w].Lost?
    {
      assert w in p.place;
    }
  }

  lemma LeavingPending(p: Pool, key: Key, sockets: seq<Ws>, place: map<Ws, Place>)
    requires BucketsOk(p.idle, p.place) && PendingOk(p.refills, p.place, p.nextWs)
    requires key in p.idle && Leaves(p, key, sockets, place)
    ensures PendingOk(p.refills, place, p.nextWs)
  {
    hide Distinct;
    forall w | w in p.place && p.place[w].Pending? ensures place[w] == p.place[w] {
      assert p.place[w] != Idle(key);
      assert w !in p.idle[key].sockets;
    }
    forall w | w in place && place[w].Pending? ensures p.place[w] == place[w] {
      assert w in p.place;
    }
  }

  // -------------------------------------------------------- gets and rotations

  lemma {:induction false} FreshOf(bucket: seq<Ws>, stale: set<Ws>)
    requires Distinct(bucket)
    ensures Distinct(Fresh(bucket, stale))
    ensures forall w :: w in Fresh(bucket, stale) <==> w in bucket && w !in stale
    ensures forall w :: w in Expired(bucket, stale) <==> w in bucket && w in stale
  {
    if bucket != [] {
      DistinctTail(bucket);
      FreshOf(bucket[1..], stale);
      hide Distinct;
      if bucket[0] !in stale {
        DistinctCons(bucket[0], Fresh(bucket[1..], stale));
      } else {
        assert [] + Fresh(bucket[1..], stale) == Fresh(bucket[1..], stale);
      }
      assert bucket == [bucket[0]] + bucket[1..];
    }
  }

  lemma DistinctTail(bucket: seq<Ws>)
    requires bucket != [] && Distinct(bucket)
    ensures Distinct(bucket[1..]) && bucket[0] !in bucket[1..]
  {
  }

  lemma DistinctCons(w: Ws, bucket: seq<Ws>)
    requires Distinct(bucket) && w !in bucket
    ensures Distinct([w] + bucket)
  {
  }

  lemma RotateKeeps(p: Pool, key: Key, stale: set<Ws>, due: bool)
    requires Inv(p)
    ensures Inv(Rotate(p, key, stale, due))
  {
    hide Inv, ScheduleRefill;
    WithBucketKeeps(p, key);
    var p1 := WithBucket(p, key);
    var bucket := p1.idle[key].sockets;
    var sockets, place := Fresh(bucket, stale), Moved(p1.place, Expired(bucket, stale), Closing);
    RotationLeaves(p1, key, stale);
    LeavingKeeps(p1, key, sockets, place);
    ScheduleKeeps(SetSockets(p1, key, sockets, place), key, due);
  }

  lemma RotationLeaves(p: Pool, key: Key, stale: set<Ws>)
    requires Inv(p) && key in p.idle
    ensures var bucket := p.idle[key].sockets;
            Leaves(p, key, Fresh(bucket, stale), Moved(p.place, Expired(bucket, stale), Closing))
  {
    hide PendingOk, RefillsOk, SizesOk;
    FreshOf(p.idle[key].sockets, stale);
  }

  lemma GetKeeps(p: Pool, key: Key, stale: set<Ws>, due: bool)
    requires Inv(p)
    ensures Inv(Get(p, key, stale, due).0)
  {
    hide Inv, ScheduleRefill;
    if p.size > 0 {
      WithBucketKeeps(p, key);
      var p1 := WithBucket(p, key);
      var bucket := p1.idle[key].sockets;
      var n := StaleFront(bucket, stale);
      var closed := Moved(p1.place, bucket[..n], Closing);
      GetLeaves(p1, key, n);
      var sockets := if n == |bucket| then [] else bucket[n + 1..];
      var place := if n == |bucket| then closed else closed[bucket[n] := HandedOut];
      LeavingKeeps(p1, key, sockets, place);
      ScheduleKeeps(SetSockets(p1, key, sockets, place), key, due);
    }
  }

  lemma GetLeaves(p: Pool, key: Key, n: nat)
    requires Inv(p) && key in p.idle && n <= |p.idle[key].sockets|
    ensures var bucket := p.idle[key].sockets;
            var closed := Moved(p.place, bucket[..n], Closing);
            Leaves(p, key, if n == |bucket| then [] else bucket[n + 1..],
                   if n == |bucket| then closed else closed[bucket[n] := HandedOut])
  {
    hide PendingOk, RefillsOk, SizesOk;
    var bucket := p.idle[key].sockets;
    assert Distinct(bucket);
    if n < |bucket| {
      assert bucket[n] in bucket;
      assert bucket == bucket[..n] + [bucket[n]] + bucket[n + 1..];
    } else {
      assert bucket[..n] == bucket;
    }
  }

  // --------------------------------------------------------------- the refills

  lemma ResetKeeps(p: Pool)
    requires Inv(p)
    ensures Inv(Reset(p))
  {
    hide BucketsOk, PendingOk, RefillsOk, Open;
    ResetPlaces(p);
    ResetRefills(p);
  }

  lemma ResetPlaces(p: Pool)
    requires BucketsOk(p.idle, p.place) && PendingOk(p.refills, p.place, p.nextWs)
    ensures BucketsOk(Reset(p).idle, Reset(p).place) && PendingOk(Reset(p).refills, Reset(p).place, p.nextWs)
  {
    hide Distinct, PendingOk, Cancel;
    var p' := Reset(p);
    forall t | t in p.refills ensures SameGot(p.refills[t].subs, p'.refills[t].subs) {
      CancelKeepsSubs(p, t, p.refills[t]);
    }
    PendingStays(p.refills, p'.refills, p.place, p.nextWs);
    PendingAlone(p'.refills, p.place, p'.place, p.nextWs);
  }

  lemma CancelKeepsSubs(p: Pool, t: TaskId, r: Refill)
    ensures SameGot(r.subs, Cancel(p, t, r).subs)
  {
  }

  lemma PendingAlone(refills: map<TaskId, Refill>, place: map<Ws, Place>, place': map<Ws, Place>, nextWs: Ws)
    requires PendingOk(refills, place, nextWs) && place'.Keys == place.Keys
    requires forall w :: w in place ==> if place[w].Pending? then place'[w] == place[w] else !place'[w].Pending?
    ensures PendingOk(refills, place', nextWs)
  {
  }

  lemma ResetRefills(p: Pool)
    requires RefillsOk(p)
    ensures RefillsOk(Reset(p))
  {
    hide Open;
    var p' := Reset(p);
    forall t | t in p'.refills ensures RefillOk(p', t) {
      assert RefillOk(p, t);
    }
  }

  /** A turn of refill `t` that touches only its own record. */
  lemma OwnRecord(p: Pool, p': Pool, t: TaskId)
    requires RefillsOk(p) && t in p.refills && p'.nextTask == p.nextTask
    requires p'.refills.Keys == p.refills.Keys && forall u :: u in p.refills && u != t ==> p'.refills[u] == p.refills[u]
    requires p'.refills[t].key == p.refills[t].key
    requires p'.refilling == p.refilling || (Registered(p, t) && p'.refilling == p.refilling - {p.refills[t].key})
    requires forall k :: k in p.idle ==> k in p'.idle && p'.idle[k].id == p.idle[k].id
    requires RefillOk(p', t)
    ensures RefillsOk(p')
  {
    hide Open;
    forall u | u in p'.refills ensures RefillOk(p', u) {
      if u != t {
        assert RefillOk(p, u);
        if p'.refilling != p.refilling && p.refills[u].key == p.refills[t].key {
          assert !Registered(p, u);
        }
      }
    }
  }

  lemma CountSettled(subs: seq<Sub>, i: nat, sub: Sub)
    requires i < |subs|
    ensures Open(subs[i := sub]) == Open(subs) - (if subs[i].Settled? then 0 else 1) + (if sub.Settled? then 0 else 1)
  {
    if i > 0 {
      CountSettled(subs[1..], i - 1, sub);
      assert subs[i := sub][1..] == subs[1..][i - 1 := sub];
    } else {
      assert subs[i := sub][1..] == subs[1..];
    }
  }

  lemma {:induction false} AllOpen(n: nat)
    ensures Open(Connects(n)) == n
  {
    if n > 0 {
      AllOpen(n - 1);
      assert Connects(n)[1..] == Connects(n - 1);
    }
  }

  lemma {:induction false} AllSettled(subs: seq<Sub>)
    ensures Open(subs) == 0 <==> forall i :: 0 <= i < |subs| ==> subs[i].Settled?
  {
    if subs != [] {
      AllSettled(subs[1..]);
      assert forall i :: 0 < i < |subs| ==> subs[i] == subs[1..][i - 1];
    }
  }

  lemma BeginKeeps(p: Pool, t: TaskId)
    requires Inv(p) && Enabled(p, BeginRefill(t))
    ensures Inv(Begin(p, t))
  {
    hide BucketsOk, PendingOk, SizesOk, RefillsOk, Open;
    var p1, p' := WithBucket(p, p.refills[t].key), Begin(p, t);
    WithBucketKeeps(p, p.refills[t].key);
    assert RefillOk(p1, t) && Registered(p1, t) && p1.refills[t].subs == [] by { Own(p1, t); }
    var needed := p1.size - |p1.idle[p1.refills[t].key].sockets|;
    if needed > 0 {
      AllOpen(needed);
    }
    AllSettled([]);
    OwnRecord(p1, p', t);
    forall u | u in p1.refills ensures SameGot(p1.refills[u].subs, p'.refills[u].subs) {
    }
    PendingStays(p1.refills, p'.refills, p1.place, p1.nextWs);
    BeginSizes(p1, t);
  }

  lemma Own(p: Pool, t: TaskId)
    requires RefillsOk(p) && t in p.refills
    ensures RefillOk(p, t)
  {
  }

  lemma BeginSizes(p: Pool, t: TaskId)
    requires SizesOk(p) && RefillsOk(p) && t in p.refills && Registered(p, t) && p.refills[t].key in p.idle
    requires p.refills[t].phase.Created?
    ensures SizesOk(Begin(p, t))
  {
    hide Open;
    var p', key := Begin(p, t), p.refills[t].key;
    var needed := p.size - |p.idle[key].sockets|;
    if needed > 0 {
      AllOpen(needed);
    }
    forall k | k in p.idle ensures |p'.idle[k].sockets| + Coming(p', k) <= p'.size {
      if k in p.refilling && k != key {
        assert p.refills[p.refilling[k]].key == k;
        assert Coming(p', k) == Coming(p, k);
      }
    }
  }

  /** A step that changes one refill's record: sizes hold if its key's bucket and what it may add shrink together. */
  lemma OwnSizes(p: Pool, p': Pool, t: TaskId)
    requires SizesOk(p) && RefillsOk(p) && t in p.refills && p'.size == p.size
    requires p'.refills.Keys == p.refills.Keys && forall u :: u in p.refills && u != t ==> p'.refills[u] == p.refills[u]
    requires p'.refilling == p.refilling || (Registered(p, t) && p'.refilling == p.refilling - {p.refills[t].key})
    requires p'.idle.Keys == p.idle.Keys
    requires forall k :: k in p.idle && k != p.refills[t].key ==> p'.idle[k] == p.idle[k]
    requires p.refills[t].key in p.idle ==>
               |p'.idle[p.refills[t].key].sockets| + Coming(p', p.refills[t].key)
               <= |p.idle[p.refills[t].key].sockets| + Coming(p, p.refills[t].key)
    ensures SizesOk(p')
  {
    hide Open;
    forall k | k in p'.idle ensures |p'.idle[k].sockets| + Coming(p', k) <= p'.size {
      if k in p.refilling && k != p.refills[t].key {
        assert p.refills[p.refilling[k]].key == k;
        assert Coming(p', k) == Coming(p, k);
      }
    }
  }

  lemma ConnectKeeps(p: Pool, t: TaskId, i: nat)
    requires Inv(p) && Enabled(p, ConnectSub(t, i))
    ensures Inv(Connect(p, t, i))
  {
    hide BucketsOk, PendingOk, SizesOk, RefillsOk, Open;
    var p' := Connect(p, t, i);
    CountSettled(p.refills[t].subs, i, Got(p.nextWs));
    Own(p, t);
    OwnRecord(p, p', t);
    OwnSizes(p, p', t);
    ConnectPlaces(p, t, i);
  }

  lemma ConnectPlaces(p: Pool, t: TaskId, i: nat)
    requires BucketsOk(p.idle, p.place) && PendingOk(p.refills, p.place, p.nextWs)
    requires t in p.refills && i < |p.refills[t].subs| && p.refills[t].subs[i].Connecting?
    ensures var p' := Connect(p, t, i); BucketsOk(p'.idle, p'.place) && PendingOk(p'.refills, p'.place, p'.nextWs)
  {
    hide Distinct;
    var p' := Connect(p, t, i);
    assert p.nextWs !in p.place;
  }

  lemma FailKeeps(p: Pool, t: TaskId, i: nat)
    requires Inv(p) && Enabled(p, FailSub(t, i))
    ensures Inv(Settle(p, t, i))
  {
    hide BucketsOk, PendingOk, SizesOk, RefillsOk, Open;
    var p' := Settle(p, t, i);
    CountSettled(p.refills[t].subs, i, Settled);
    Own(p, t);
    OwnRecord(p, p', t);
    OwnSizes(p, p', t);
    forall u | u in p.refills ensures SameGot(p.refills[u].subs, p'.refills[u].subs) {
    }
    PendingStays(p.refills, p'.refills, p.place, p.nextWs);
  }

  lemma CleanKeeps(p: Pool, t: TaskId, i: nat)
    requires Inv(p) && Enabled(p, CleanSub(t, i))
    ensures Inv(Clean(p, t, i))
  {
    hide BucketsOk, PendingOk, SizesOk, RefillsOk, Open;
    var p' := Clean(p, t, i);
    CountSettled(p.refills[t].subs, i, Settled);
    Own(p, t);
    OwnRecord(p, p', t);
    OwnSizes(p, p', t);
    SettlePlaces(p, t, i, p.idle, Closing);
  }

  /** A socket leaves a refill's hands. */
  lemma SettlePlaces(p: Pool, t: TaskId, i: nat, idle: map<Key, Bucket>, to: Place)
    requires BucketsOk(p.idle, p.place) && PendingOk(p.refills, p.place, p.nextWs)
    requires t in p.refills && i < |p.refills[t].subs| && p.refills[t].subs[i].Got?
    requires match to {
               case Closing => idle == p.idle
               case Idle(k) =>
                 && k in p.idle
                 && idle == p.idle[k := p.idle[k].(sockets := p.idle[k].sockets + [p.refills[t].subs[i].ws])]
               case _ => false
             }
    ensures var r, w := p.refills[t], p.refills[t].subs[i].ws;
            var place := p.place[w := to];
            BucketsOk(idle, place) && PendingOk(p.refills[t := r.(subs := r.subs[i := Settled])], place, p.nextWs)
  {
    var w := p.refills[t].subs[i].ws;
    assert p.place[w] == Pending(t, i);
    forall k | k in p.idle ensures w !in p.idle[k].sockets {
      assert p.place[w] != Idle(k);
    }
    hide Distinct;
    assert to.Idle? ==> Distinct(idle[to.key].sockets) by { OneMore(p.idle, to, w); }
  }

  lemma OneMore(idle: map<Key, Bucket>, to: Place, w: Ws)
    requires to.Idle? ==> to.key in idle && Distinct(idle[to.key].sockets) && w !in idle[to.key].sockets
    ensures to.Idle? ==> Distinct(idle[to.key].sockets + [w])
  {
  }

  lemma TakeKeeps(p: Pool, t: TaskId, i: nat)
    requires Inv(p) && Enabled(p, TakeSub(t, i))
    ensures Inv(Take(p, t, i)) && Registered(p, t)
  {
    hide BucketsOk, PendingOk, SizesOk, RefillsOk, Open;
    var p', key := Take(p, t, i), p.refills[t].key;
    CountSettled(p.refills[t].subs, i, Settled);
    Own(p, t);
    OwnRecord(p, p', t);
    OwnSizes(p, p', t);
    SettlePlaces(p, t, i, p'.idle, Idle(key));
  }

  lemma ConcludeKeeps(p: Pool, t: TaskId)
    requires Inv(p) && Enabled(p, Conclude(t))
    ensures Inv(Step(p, Conclude(t)))
  {
    hide BucketsOk, PendingOk, SizesOk, RefillsOk, Open;
    var p' := Step(p, Conclude(t));
    AllSettled(p.refills[t].subs);
    Own(p, t);
    OwnRecord(p, p', t);
    OwnSizes(p, p', t);
    SameSubs(p, p');
  }

  lemma FinishKeeps(p: Pool, t: TaskId)
    requires Inv(p) && Enabled(p, FinishRefill(t))
    ensures Inv(Finish(p, t))
  {
    hide BucketsOk, PendingOk, SizesOk, RefillsOk, Open;
    var p' := Finish(p, t);
    AllSettled(p.refills[t].subs);
    Own(p, t);
    OwnRecord(p, p', t);
    OwnSizes(p, p', t);
    SameSubs(p, p');
  }

  lemma DeliverKeeps(p: Pool, t: TaskId)
    requires Inv(p) && Enabled(p, DeliverCancel(t))
    ensures Inv(Deliver(p, t))
  {
    hide BucketsOk, PendingOk, SizesOk, RefillsOk, Open;
    var p' := Deliver(p, t);
    AllSettled([]);
    Own(p, t);
    OwnRecord(p, p', t);
    OwnSizes(p, p', t);
    SameSubs(p, p');
  }

  lemma SameSubs(p: Pool, p': Pool)
    requires PendingOk(p.refills, p.place, p.nextWs) && p'.refills.Keys == p.refills.Keys
    requires forall t :: t in p.refills ==> p'.refills[t].subs == p.refills[t].subs
    ensures PendingOk(p'.refills, p.place, p.nextWs)
  {
    hide PendingOk;
    PendingStays(p.refills, p'.refills, p.place, p.nextWs);
  }

  lemma StepKeeps(p: Pool, act: Act)
    requires Inv(p) && Enabled(p, act)
    ensures Inv(Step(p, act))
  {
    hide Inv;
    match act
    case GetOne(key, stale, due) => GetKeeps(p, key, stale, due);
    case Warm(key, due) => ScheduleKeeps(p, key, due);
    case RotateOne(key, stale, due) => RotateKeeps(p, key, stale, due);
    case ResetAll => ResetKeeps(p);
    case BeginRefill(t) => BeginKeeps(p, t);
    case ConnectSub(t, i) => ConnectKeeps(p, t, i);
    case FailSub(t, i) => FailKeeps(p, t, i);
    case TakeSub(t, i) => TakeKeeps(p, t, i);
    case Conclude(t) => ConcludeKeeps(p, t);
    case CleanSub(t, i) => CleanKeeps(p, t, i);
    case FinishRefill(t) => FinishKeeps(p, t);
    case DeliverCancel(t) => DeliverKeeps(p, t);
  }

  lemma {:induction false} RunsKeep(states: seq<Pool>, acts: seq<Act>, k: nat)
    requires IsRun(states, acts) && k < |states|
    ensures Inv(states[k])
  {
    hide Step, Enabled, Inv;
    if k == 0 {
      EmptyIsOk(states[0]);
    } else {
      RunsKeep(states, acts, k - 1);
      StepKeeps(states[k - 1], acts[k - 1]);
      assert states[k - 1 + 1] == Step(states[k - 1], acts[k - 1]);
    }
  }

  lemma EmptyIsOk(p: Pool)
    requires exists size: nat :: p == Empty(size)
    ensures Inv(p)
  {
  }

  // ----------------------------------------------------------------- theorems

  predicate IsIdle(p: Pool, w: Ws) { exists k :: k in p.idle && w in p.idle[k].sockets }

  predicate InHand(p: Pool, w: Ws) {
    exists t, i :: t in p.refills && 0 <= i < |p.refills[t].subs| && p.refills[t].subs[i] == Got(w)
  }

  /**
    Nothing leaks: in every state of every run, resets racing with refills
    included, each socket ever connected is exactly one of idle in one place of
    one bucket, in the hands of one refill that has not ended, handed out, or
    closed; and a refill that has ended holds none.
    */
  lemma EverySocketHasOnePlace(states: seq<Pool>, acts: seq<Act>, k: nat, w: Ws)
    requires IsRun(states, acts) && k < |states| && w < states[k].nextWs
    ensures var p := states[k];
            && w in p.place
            && match p.place[w] {
                 case Idle(key) => key in p.idle && w in p.idle[key].sockets && Distinct(p.idle[key].sockets) && !InHand(p, w)
                 case Pending(t, i) =>
                   && t in p.refills && !p.refills[t].phase.Done? && i < |p.refills[t].subs|
                   && p.refills[t].subs[i] == Got(w) && !IsIdle(p, w)
                 case HandedOut => !IsIdle(p, w) && !InHand(p, w)
                 case Closing => !IsIdle(p, w) && !InHand(p, w)
                 case Lost => false
               }
            && (forall k, l :: k in p.idle && l in p.idle && w in p.idle[k].sockets && w in p.idle[l].sockets ==> k == l)
  {
    hide IsRun, SizesOk;
    RunsKeep(states, acts, k);
    var p := states[k];
    if p.place[w].Pending? {
      var t := p.place[w].task;
      assert RefillOk(p, t);
      AllSettled(p.refills[t].subs);
    }
  }

  /** No bucket ever holds more than the pool size, counting what its refill may still add. */
  lemma BucketsAreBounded(states: seq<Pool>, acts: seq<Act>, k: nat, key: Key)
    requires IsRun(states, acts) && k < |states| && key in states[k].idle
    ensures |states[k].idle[key].sockets| + Coming(states[k], key) <= states[k].size
  {
    hide IsRun, BucketsOk, PendingOk, RefillsOk, Coming;
    RunsKeep(states, acts, k);
  }

  /** At most one refill per key is connecting for the pool; any other is cancelled, cleaning up or over. */
  lemma OneRefillPerKey(states: seq<Pool>, acts: seq<Act>, k: nat, t: TaskId, u: TaskId)
    requires IsRun(states, acts) && k < |states| && t in states[k].refills && u in states[k].refills
    requires states[k].refills[t].key == states[k].refills[u].key && t != u
    ensures !Registered(states[k], t) || !Registered(states[k], u)
    ensures !Registered(states[k], t) ==>
              states[k].refills[t].cancelled || states[k].refills[t].phase.Cleaning? || states[k].refills[t].phase.Done?
  {
    hide IsRun, BucketsOk, PendingOk, SizesOk;
    RunsKeep(states, acts, k);
    assert RefillOk(states[k], t);
  }
}
