/**
  What every step of the multiplexer keeps of the lane and all its channels,
  and what therefore holds in every state of every run.
  */
module MultiplexInvariant {
  import opened Common
  import opened ChannelState
  import opened ReplayHistory
  import opened Multiplex
  import opened EndpointInvariant
  import opened EndpointSteps

  type Endpoints = map<ChannelId, Endpoint>

  predicate Pends(endpoints: Endpoints, k: Claim) {
    k.0 in endpoints && k.1 in endpoints[k.0].ch.pending
  }

  predicate Posts(endpoints: Endpoints, k: Claim) {
    k.0 in endpoints && InPhase(endpoints[k.0], k.1, Posting)
  }

  /** The reservations held are exactly the pending tasks, each for the length it is charged. */
  ghost predicate HeldByPending(held: map<Claim, nat>, endpoints: Endpoints) {
    && (forall k: Claim :: k in held <==> Pends(endpoints, k))
    && (forall k: Claim :: k in held && Pends(endpoints, k) ==> held[k] == endpoints[k.0].ch.pending[k.1])
  }

  /** Every reservation ever made is either held or was released, and happened once. */
  ghost predicate ReservedOnce(ledger: Ledger, endpoints: Endpoints) {
    && ledger.reserved == ledger.released + multiset(ledger.held.Keys)
    && (forall k :: ledger.reserved[k] <= 1)
    && (forall k :: k in ledger.reserved ==> k.0 in endpoints && k.1 < |endpoints[k.0].tasks|)
  }

  /** Response bytes are buffered exactly for the tasks inside `_post`. */
  ghost predicate BufferedByPosting(buffers: map<Claim, nat>, endpoints: Endpoints) {
    && (forall k: Claim :: k in buffers <==> Posts(endpoints, k))
    && (forall k: Claim :: k in buffers && Posts(endpoints, k) ==> buffers[k] == |endpoints[k.0].tasks[k.1].content|)
  }

  ghost predicate AllInv(endpoints: Endpoints) {
    forall c :: c in endpoints ==> Inv(endpoints[c])
  }

  ghost predicate LaneOk(lane: Lane, held: map<Claim, nat>, buffers: map<Claim, nat>) {
    && lane.inflight == |held|
    && lane.queuedBytes == Sum(held)
    && lane.inflight <= MAX_LANE_REQUESTS
    && lane.queuedBytes <= MAX_LANE_BYTES
    && lane.replyBufferBytes == Sum(buffers)
    && lane.replyBufferBytes <= MAX_LANE_REPLY_BYTES
  }

  ghost predicate SysInv(s: System) {
    && AllInv(s.endpoints)
    && HeldByPending(s.ledger.held, s.endpoints)
    && ReservedOnce(s.ledger, s.endpoints)
    && BufferedByPosting(s.ledger.buffers, s.endpoints)
    && LaneOk(s.lane, s.ledger.held, s.ledger.buffers)
  }

  lemma InitialInv()
    ensures SysInv(Initial())
  {
  }

  // ---------------------------------------------------------- ledger updates

  lemma AllInvAfter(endpoints: Endpoints, c: ChannelId, after: Endpoint)
    requires AllInv(endpoints) && Inv(after)
    ensures AllInv(endpoints[c := after])
  {
    hide Inv;
  }

  /** `pending` of channel `c` changes the way the ledger does. */
  lemma HeldAfter(held: map<Claim, nat>, endpoints: Endpoints, c: ChannelId, after: Endpoint, held': map<Claim, nat>)
    requires HeldByPending(held, endpoints)
    requires forall k: Claim :: k.0 != c ==> (k in held' <==> k in held)
    requires forall k: Claim :: k.0 != c && k in held ==> held'[k] == held[k]
    requires forall k: Claim :: k.0 == c ==> (k in held' <==> k.1 in after.ch.pending)
    requires forall k: Claim :: k.0 == c && k in held' ==> held'[k] == after.ch.pending[k.1]
    ensures HeldByPending(held', endpoints[c := after])
  {
    var endpoints' := endpoints[c := after];
    forall k: Claim
      ensures k in held' <==> Pends(endpoints', k)
      ensures k in held' ==> held'[k] == endpoints'[k.0].ch.pending[k.1]
    {
      if k.0 != c {
        assert k in held <==> Pends(endpoints, k);
      }
    }
  }

  lemma BuffersAfter(
    buffers: map<Claim, nat>, endpoints: Endpoints, c: ChannelId, after: Endpoint, buffers': map<Claim, nat>)
    requires BufferedByPosting(buffers, endpoints)
    requires forall k: Claim :: k.0 != c ==> (k in buffers' <==> k in buffers)
    requires forall k: Claim :: k.0 != c && k in buffers ==> buffers'[k] == buffers[k]
    requires forall k: Claim :: k.0 == c ==> (k in buffers' <==> InPhase(after, k.1, Posting))
    requires forall k: Claim :: k.0 == c && k in buffers' && InPhase(after, k.1, Posting) ==>
               buffers'[k] == |after.tasks[k.1].content|
    ensures BufferedByPosting(buffers', endpoints[c := after])
  {
    var endpoints' := endpoints[c := after];
    forall k: Claim
      ensures k in buffers' <==> Posts(endpoints', k)
      ensures k in buffers' ==> buffers'[k] == |endpoints'[k.0].tasks[k.1].content|
    {
      if k.0 != c {
        assert k in buffers <==> Posts(endpoints, k);
      }
    }
  }

  lemma ReservedAfter(ledger: Ledger, endpoints: Endpoints, c: ChannelId, after: Endpoint)
    requires ReservedOnce(ledger, endpoints)
    requires c in endpoints ==> |after.tasks| >= |endpoints[c].tasks|
    ensures ReservedOnce(ledger, endpoints[c := after])
  {
  }

  /** The step leaves pending tasks, phases and buffers alone. */
  predicate Quiet(before: Endpoint, after: Endpoint) {
    && after.ch.pending == before.ch.pending
    && |after.tasks| == |before.tasks|
    && forall t :: 0 <= t < |before.tasks| ==> SamePhase(before.tasks[t], after.tasks[t])
  }

  predicate SamePhase(a: Request, b: Request) { a.phase == b.phase && a.content == b.content }

  lemma QuietBuffers(buffers: map<Claim, nat>, endpoints: Endpoints, c: ChannelId, after: Endpoint)
    requires BufferedByPosting(buffers, endpoints) && c in endpoints && Quiet(endpoints[c], after)
    ensures BufferedByPosting(buffers, endpoints[c := after])
  {
    forall k: Claim | k.0 == c
      ensures k in buffers <==> InPhase(after, k.1, Posting)
      ensures k in buffers ==> buffers[k] == |after.tasks[k.1].content|
    {
      assert k in buffers <==> Posts(endpoints, k);
      if k.1 < |after.tasks| {
        assert SamePhase(endpoints[c].tasks[k.1], after.tasks[k.1]);
      }
    }
    BuffersAfter(buffers, endpoints, c, after, buffers);
  }

  lemma QuietHeld(held: map<Claim, nat>, endpoints: Endpoints, c: ChannelId, after: Endpoint)
    requires HeldByPending(held, endpoints) && c in endpoints && after.ch.pending == endpoints[c].ch.pending
    ensures HeldByPending(held, endpoints[c := after])
  {
    forall k: Claim | k.0 == c
      ensures k in held <==> k.1 in after.ch.pending
      ensures k in held ==> held[k] == after.ch.pending[k.1]
    {
      assert k in held <==> Pends(endpoints, k);
    }
    HeldAfter(held, endpoints, c, after, held);
  }

  lemma QuietStepKeeps(s: System, c: ChannelId, after: Endpoint)
    requires SysInv(s) && c in s.endpoints && Quiet(s.endpoints[c], after) && Inv(after)
    ensures SysInv(With(s, c, after))
  {
    hide Inv, AllInv, HeldByPending, ReservedOnce, BufferedByPosting, LaneOk;
    AllInvAfter(s.endpoints, c, after);
    QuietHeld(s.ledger.held, s.endpoints, c, after);
    QuietBuffers(s.ledger.buffers, s.endpoints, c, after);
    ReservedAfter(s.ledger, s.endpoints, c, after);
  }

  // ---------------------------------------------------- reserve and release

  lemma ClaimIsNew(s: System, c: ChannelId)
    requires SysInv(s) && c in s.endpoints
    ensures (c, |s.endpoints[c].tasks|) !in s.ledger.held && (c, |s.endpoints[c].tasks|) !in s.ledger.reserved
  {
    hide LaneOk, BufferedByPosting;
    FreshTaskIsNew(s.endpoints[c]);
    assert !Pends(s.endpoints, (c, |s.endpoints[c].tasks|));
  }

  lemma ReserveInLedger(ledger: Ledger, endpoints: Endpoints, c: ChannelId, after: Endpoint, length: nat)
    requires ReservedOnce(ledger, endpoints) && c in endpoints
    requires (c, |endpoints[c].tasks|) !in ledger.held && (c, |endpoints[c].tasks|) !in ledger.reserved
    requires |after.tasks| == |endpoints[c].tasks| + 1
    ensures ReservedOnce(ledger.Reserve((c, |endpoints[c].tasks|), length), endpoints[c := after])
  {
    var k := (c, |endpoints[c].tasks|);
    assert ledger.held[k := length].Keys == ledger.held.Keys + {k};
    assert multiset(ledger.held.Keys + {k}) == multiset(ledger.held.Keys) + multiset{k};
  }

  lemma ReleaseInLedger(ledger: Ledger, endpoints: Endpoints, k: Claim)
    requires ReservedOnce(ledger, endpoints) && k in ledger.held
    ensures ReservedOnce(ledger.Release(k), endpoints)
  {
    assert (ledger.held - {k}).Keys == ledger.held.Keys - {k};
    assert multiset(ledger.held.Keys) == multiset(ledger.held.Keys - {k}) + multiset{k};
  }

  lemma HeldGrows(held: map<Claim, nat>, endpoints: Endpoints, c: ChannelId, t: Task, length: nat, after: Endpoint)
    requires HeldByPending(held, endpoints) && c in endpoints
    requires after.ch.pending == endpoints[c].ch.pending[t := length]
    ensures HeldByPending(held[(c, t) := length], endpoints[c := after])
  {
    var held' := held[(c, t) := length];
    forall j: Claim | j.0 == c
      ensures j in held' <==> j.1 in after.ch.pending
      ensures j in held' ==> held'[j] == after.ch.pending[j.1]
    {
      assert j in held <==> Pends(endpoints, j);
    }
    HeldAfter(held, endpoints, c, after, held');
  }

  lemma HeldShrinks(held: map<Claim, nat>, endpoints: Endpoints, c: ChannelId, t: Task, after: Endpoint)
    requires HeldByPending(held, endpoints) && c in endpoints && t in endpoints[c].ch.pending
    requires after.ch.pending == endpoints[c].ch.pending - {t}
    ensures (c, t) in held && held[(c, t)] == endpoints[c].ch.pending[t]
    ensures HeldByPending(held - {(c, t)}, endpoints[c := after])
  {
    var held' := held - {(c, t)};
    assert Pends(endpoints, (c, t));
    forall j: Claim | j.0 == c
      ensures j in held' <==> j.1 in after.ch.pending
      ensures j in held' ==> held'[j] == after.ch.pending[j.1]
    {
      assert j in held <==> Pends(endpoints, j);
    }
    HeldAfter(held, endpoints, c, after, held');
  }

  /** A reservation and the task it is made for appear together. */
  lemma AdmissionKeeps(s: System, c: ChannelId, after: Endpoint, length: nat)
    requires SysInv(s) && c in s.endpoints && Inv(after) && s.lane.HasCapacity(length)
    requires var ep := s.endpoints[c];
             && after.ch.pending == ep.ch.pending[|ep.tasks| := length]
             && |after.tasks| == |ep.tasks| + 1 && after.tasks[..|ep.tasks|] == ep.tasks
             && after.tasks[|ep.tasks|].phase == Created
    ensures var k := (c, |s.endpoints[c].tasks|);
            SysInv(With(s.(lane := s.lane.Reserve(length), ledger := s.ledger.Reserve(k, length)), c, after))
  {
    hide Inv, AllInv, ReservedOnce, BufferedByPosting, HeldByPending, Sum;
    var k: Claim := (c, |s.endpoints[c].tasks|);
    ClaimIsNew(s, c);
    AllInvAfter(s.endpoints, c, after);
    HeldGrows(s.ledger.held, s.endpoints, c, k.1, length, after);
    ReserveInLedger(s.ledger, s.endpoints, c, after, length);
    SumInsert<Claim>(s.ledger.held, k, length);
    NewTaskHasNoBuffer(s.ledger.buffers, s.endpoints, c, after);
  }

  lemma NewTaskHasNoBuffer(buffers: map<Claim, nat>, endpoints: Endpoints, c: ChannelId, after: Endpoint)
    requires BufferedByPosting(buffers, endpoints) && c in endpoints
    requires var ep := endpoints[c];
             && |after.tasks| == |ep.tasks| + 1 && after.tasks[..|ep.tasks|] == ep.tasks
             && after.tasks[|ep.tasks|].phase == Created
    ensures BufferedByPosting(buffers, endpoints[c := after])
  {
    forall k: Claim | k.0 == c
      ensures k in buffers <==> InPhase(after, k.1, Posting)
      ensures k in buffers && InPhase(after, k.1, Posting) ==> buffers[k] == |after.tasks[k.1].content|
    {
      assert k in buffers <==> Posts(endpoints, k);
      assert k.1 < |endpoints[c].tasks| ==> after.tasks[k.1] == after.tasks[..|endpoints[c].tasks|][k.1];
    }
    BuffersAfter(buffers, endpoints, c, after, buffers);
  }

  /** The reservation half of the end of a request. */
  lemma GiveBackKeeps(s: System, c: ChannelId, t: Task, after: Endpoint)
    requires SysInv(s) && c in s.endpoints && t in s.endpoints[c].ch.pending
    requires after.ch.pending == s.endpoints[c].ch.pending - {t} && |after.tasks| == |s.endpoints[c].tasks|
    ensures var back := GiveBack(s, c, t);
            && HeldByPending(back.ledger.held, s.endpoints[c := after])
            && ReservedOnce(back.ledger, s.endpoints[c := after])
            && LaneOk(back.lane, back.ledger.held, s.ledger.buffers)
  {
    hide Inv, AllInv, ReservedOnce, BufferedByPosting, HeldByPending, Sum;
    var k: Claim := (c, t);
    HeldShrinks(s.ledger.held, s.endpoints, c, t, after);
    ReleaseInLedger(s.ledger, s.endpoints, k);
    ReservedAfter(s.ledger.Release(k), s.endpoints, c, after);
    SumRemove<Claim>(s.ledger.held, k);
    SizeRemove<Claim, nat>(s.ledger.held, k);
  }

  lemma EndedHasNoBuffer(buffers: map<Claim, nat>, endpoints: Endpoints, c: ChannelId, t: Task, after: Endpoint)
    requires BufferedByPosting(buffers, endpoints) && c in endpoints && InPhase(endpoints[c], t, Posting)
    requires |after.tasks| == |endpoints[c].tasks| && after.tasks[t].phase == Over
    requires forall u :: 0 <= u < |after.tasks| && u != t ==> after.tasks[u] == endpoints[c].tasks[u]
    ensures (c, t) in buffers && buffers[(c, t)] == |endpoints[c].tasks[t].content|
    ensures BufferedByPosting(buffers - {(c, t)}, endpoints[c := after])
  {
    assert Posts(endpoints, (c, t));
    forall k: Claim | k.0 == c
      ensures k in buffers - {(c, t)} <==> InPhase(after, k.1, Posting)
      ensures k in buffers - {(c, t)} && InPhase(after, k.1, Posting) ==> buffers[k] == |after.tasks[k.1].content|
    {
      assert k in buffers <==> Posts(endpoints, k);
    }
    BuffersAfter(buffers, endpoints, c, after, buffers - {(c, t)});
  }

  lemma PostingIsPending(ep: Endpoint, t: Task)
    requires Inv(ep) && t < |ep.tasks| && ep.tasks[t].phase != Over
    ensures t in ep.ch.pending
  {
  }

  lemma EndTouchesOneTask(ep: Endpoint, t: Task, outcome: Outcome, now: int)
    requires t < |ep.tasks| && t in ep.ch.pending
    ensures var after := End(ep, t, outcome, now);
            && after.ch.pending == ep.ch.pending - {t}
            && after.tasks == ep.tasks[t := ep.tasks[t].(phase := Over)]
  {
    hide Detach;
  }

  /** However a request ends, it gives back its buffer and its one reservation. */
  lemma EndRequestKeeps(s: System, c: ChannelId, t: Task, outcome: Outcome)
    requires SysInv(s) && c in s.endpoints && InPhase(s.endpoints[c], t, Posting)
    ensures SysInv(EndRequest(s, c, t, outcome))
  {
    hide Inv, HeldByPending, ReservedOnce, BufferedByPosting, Sum, End, AllInv;
    var ep, after := s.endpoints[c], End(s.endpoints[c], t, outcome, s.now);
    InvAt(s.endpoints, c);
    PostingIsPending(ep, t);
    EndKeeps(ep, t, outcome, s.now);
    EndTouchesOneTask(ep, t, outcome, s.now);
    AllInvAfter(s.endpoints, c, after);
    GiveBackKeeps(s, c, t, after);
    EndedHasNoBuffer(s.ledger.buffers, s.endpoints, c, t, after);
    SumRemove<Claim>(s.ledger.buffers, (c, t));
    ReservedIgnoresBuffers(GiveBack(s, c, t).ledger, s.ledger.buffers - {(c, t)}, s.endpoints[c := after]);
  }

  lemma InvAt(endpoints: Endpoints, c: ChannelId)
    requires AllInv(endpoints) && c in endpoints
    ensures Inv(endpoints[c])
  {
  }

  lemma SweepKeeps(s: System, c: ChannelId, t: Task)
    requires SysInv(s) && c in s.endpoints && t in s.endpoints[c].ch.pending && InPhase(s.endpoints[c], t, Over)
    ensures SysInv(With(GiveBack(s, c, t), c, FinishTask(s.endpoints[c], t, None)))
  {
    hide HeldByPending, ReservedOnce, Sum, AllInv, LaneOk, TasksOk, Detach, Inv;
    var ep := s.endpoints[c];
    InvAt(s.endpoints, c);
    RemovedKeeps(ep, t, None);
    SweptTaskIsRemoved(ep, t);
    var after := FinishTask(ep, t, None);
    AllInvAfter(s.endpoints, c, after);
    GiveBackKeeps(s, c, t, after);
    FinishedBuffers(s.ledger.buffers, s.endpoints, c, after);
  }

  lemma FinishedBuffers(buffers: map<Claim, nat>, endpoints: Endpoints, c: ChannelId, after: Endpoint)
    requires BufferedByPosting(buffers, endpoints) && c in endpoints && after.tasks == endpoints[c].tasks
    ensures BufferedByPosting(buffers, endpoints[c := after])
  {
    forall k: Claim | k.0 == c
      ensures k in buffers <==> InPhase(after, k.1, Posting)
      ensures k in buffers && InPhase(after, k.1, Posting) ==> buffers[k] == |after.tasks[k.1].content|
    {
      assert k in buffers <==> Posts(endpoints, k);
    }
    BuffersAfter(buffers, endpoints, c, after, buffers);
  }

  lemma SweptTaskIsRemoved(ep: Endpoint, t: Task)
    requires Inv(ep) && InPhase(ep, t, Over)
    ensures Removed(ep, t, None) == FinishTask(ep, t, None)
  {
    hide OwnersOk, HistoryOk, LogOk, AllRecorded, DeliveredInOrder, AttemptsLeft, Sum, QueuedBytes, Detach;
    assert t !in ep.ch.receiving;
    assert ep.ch.receiving - {t} == ep.ch.receiving;
    assert ep.tasks[t := ep.tasks[t].(phase := Over)] == ep.tasks;
  }

  lemma StartedKeeps(s: System, c: ChannelId, t: Task)
    requires SysInv(s) && c in s.endpoints && InPhase(s.endpoints[c], t, Created)
    ensures SysInv(Started(s, c, t))
  {
    hide Inv, HeldByPending, ReservedOnce, BufferedByPosting, Sum, AllInv;
    var ep := s.endpoints[c];
    var after := Begin(ep, t);
    InvAt(s.endpoints, c);
    BeginKeeps(ep, t);
    AllInvAfter(s.endpoints, c, after);
    QuietHeld(s.ledger.held, s.endpoints, c, after);
    ReservedAfter(s.ledger, s.endpoints, c, after);
    BegunBuffers(s.ledger.buffers, s.endpoints, c, t);
    if !ep.tasks[t].cancelled {
      SumInsert<Claim>(s.ledger.buffers, (c, t), 0);
      ReservedAfter(s.ledger.(buffers := s.ledger.buffers[(c, t) := 0]), s.endpoints, c, after) by {
        ReservedIgnoresBuffers(s.ledger, s.ledger.buffers[(c, t) := 0], s.endpoints);
      }
    }
  }

  lemma ReservedIgnoresBuffers(ledger: Ledger, buffers: map<Claim, nat>, endpoints: Endpoints)
    requires ReservedOnce(ledger, endpoints)
    ensures ReservedOnce(ledger.(buffers := buffers), endpoints)
  {
  }

  lemma BegunBuffers(buffers: map<Claim, nat>, endpoints: Endpoints, c: ChannelId, t: Task)
    requires BufferedByPosting(buffers, endpoints) && c in endpoints && InPhase(endpoints[c], t, Created)
    requires endpoints[c].tasks[t].content == []
    ensures (c, t) !in buffers
    ensures var after := Begin(endpoints[c], t);
            BufferedByPosting(if endpoints[c].tasks[t].cancelled then buffers else buffers[(c, t) := 0], endpoints[c := after])
  {
    var after := Begin(endpoints[c], t);
    var buffers' := if endpoints[c].tasks[t].cancelled then buffers else buffers[(c, t) := 0];
    assert !Posts(endpoints, (c, t));
    forall k: Claim | k.0 == c
      ensures k in buffers' <==> InPhase(after, k.1, Posting)
      ensures k in buffers' && InPhase(after, k.1, Posting) ==> buffers'[k] == |after.tasks[k.1].content|
    {
      assert k in buffers <==> Posts(endpoints, k);
    }
    BuffersAfter(buffers, endpoints, c, after, buffers');
  }
}
