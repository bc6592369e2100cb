/**
  The state of one multiplexed HTTP channel (`_HttpChannel` in tgproxy/cf_h2.py)
  as a value, and one function per await-free region of its methods.

  Times are integer milliseconds. A task is named by the number it was created
  with, so that a smaller number means an earlier insertion into `pending`.
  */
module ChannelState {
  import opened Common

  const MAX_PACKET: nat := 4 * 1024 * 1024
  const MAX_CHANNEL_REQUESTS: nat := 8
  const MAX_CHANNEL_BYTES: nat := 8 * 1024 * 1024
  const MAX_QUEUED_REPLIES: nat := 16
  const REPLAY_IDLE_MS: int := 1000
  const REPLAY_REQUEST_MS: int := 3000
  const REPLAY_MAX_AGE_MS: int := 30000
  const REPLAY_HISTORY_BYTES: nat := 64 * 1024
  const REPLAY_HISTORY_PACKETS: nat := 16
  const MAX_CHANNEL_REPLAYS: nat := 2
  const REPLAY_SLOT_MS: int := 30000
  const REPLAY_RETRY_MS: int := 2000
  const REPLAY_MAX_ATTEMPTS: nat := 3
  const KEY_BYTES: nat := 8
  const ZERO_KEY: Bytes := [0, 0, 0, 0, 0, 0, 0, 0]

  type Task = nat

  datatype Error =
    | Transport(code: int)
    | ConnectionLost
    | InvalidValue
    | BufferExceeded

  /** What the receiver's queue carries. */
  datatype Item = Reply(body: Bytes) | Failure(error: Error)

  /** `_ReplayPacket`: a sent packet that may be sent again. */
  datatype Packet = Packet(
    sentAt: int,
    body: Bytes,
    sequence: nat,
    attempts: nat,
    lastAttemptAt: int,
    pending: Option<Task>,
    originals: set<Task>,
    retired: bool)
  {
    predicate Replayed() { attempts > 0 }

    predicate Owns(task: Task) { task in originals || pending == Some(task) }

    /** The packet once `task` is over. */
    function Without(task: Task): Packet {
      this.(originals := originals - {task},
            pending := if pending == Some(task) then None else pending)
    }
  }

  datatype Channel = Channel(
    closed: bool,
    closeDone: bool,
    transportError: Option<int>,
    pending: map<Task, nat>,
    pendingBytes: int,
    sentSince: map<Task, int>,
    receiving: set<Task>,
    replyBytes: int,
    queue: seq<Item>,
    delivering: bool,
    replayPending: set<Task>,
    history: seq<Packet>,
    replayKey: Option<Bytes>,
    requests: nat,
    replayRequests: nat,
    lastProgress: int)
  {
    predicate HasCapacity(length: nat) {
      |pending| < MAX_CHANNEL_REQUESTS && pendingBytes + length <= MAX_CHANNEL_BYTES
    }

    predicate NativeBackpressure() { replyBytes != 0 || delivering }
  }

  function NewChannel(now: int): Channel {
    Channel(false, false, None, map[], 0, map[], {}, 0, [], false, {}, [], None, 0, 0, now)
  }

  // ---------------------------------------------------------------- history

  function Key(body: Bytes): Bytes { if |body| < KEY_BYTES then body else body[..KEY_BYTES] }

  function HistoryBytes(history: seq<Packet>): nat {
    if history == [] then 0 else HistoryBytes(history[..|history| - 1]) + |history[|history| - 1].body|
  }

  function RemoveAt(history: seq<Packet>, i: nat): seq<Packet>
    requires i < |history|
  {
    history[..i] + history[i + 1..]
  }

  /** Index of the packet with this body: `_find_packet`. */
  function FindPacket(history: seq<Packet>, body: Bytes): (r: Option<nat>)
    ensures r.Some? ==> r.value < |history| && history[r.value].body == body
    ensures r.None? ==> forall i :: 0 <= i < |history| ==> history[i].body != body
  {
    FindFirst(history, (p: Packet) => p.body == body)
  }

  /** Index of the packet object with this sequence number. */
  function FindSequence(history: seq<Packet>, sequence: nat): (r: Option<nat>)
    ensures r.Some? ==> r.value < |history| && history[r.value].sequence == sequence
    ensures r.None? ==> forall i :: 0 <= i < |history| ==> history[i].sequence != sequence
  {
    FindFirst(history, (p: Packet) => p.sequence == sequence)
  }

  /** Index of the first packet that has `task` among its originals or as its replay. */
  function FindOwner(history: seq<Packet>, task: Task): (r: Option<nat>)
    ensures r.Some? ==> r.value < |history| && history[r.value].Owns(task)
    ensures r.None? ==> forall i :: 0 <= i < |history| ==> !history[i].Owns(task)
  {
    FindFirst(history, (p: Packet) => p.Owns(task))
  }

  /** Index of the first packet that has `task` among its originals. */
  function FindOriginal(history: seq<Packet>, task: Task): (r: Option<nat>)
    ensures r.Some? ==> r.value < |history| && task in history[r.value].originals
    ensures r.None? ==> forall i :: 0 <= i < |history| ==> task !in history[i].originals
  {
    FindFirst(history, (p: Packet) => task in p.originals)
  }

  predicate Evictable(packet: Packet, now: int) {
    && packet.originals == {}
    && !(packet.retired && packet.attempts < REPLAY_MAX_ATTEMPTS && now - packet.sentAt <= REPLAY_MAX_AGE_MS)
  }

  /** Which entry `_trim_history` gives up: the first evictable one, else the oldest. */
  function Victim(history: seq<Packet>, now: int): (v: nat)
    requires history != []
    ensures v < |history|
    ensures Evictable(history[v], now) || (v == 0 && forall i :: 0 <= i < |history| ==> !Evictable(history[i], now))
    ensures Evictable(history[v], now) ==> forall i :: 0 <= i < v ==> !Evictable(history[i], now)
  {
    if Evictable(history[0], now) || |history| == 1 then 0
    else
      var w := Victim(history[1..], now);
      assert history[1..][w] == history[w + 1];
      assert forall i :: 0 < i < |history| ==> history[i] == history[1..][i - 1];
      if Evictable(history[w + 1], now) then w + 1 else 0
  }

  predicate OverBudget(history: seq<Packet>) {
    |history| > REPLAY_HISTORY_PACKETS || HistoryBytes(history) > REPLAY_HISTORY_BYTES
  }

  /** `_trim_history`. */
  function Trim(history: seq<Packet>, now: int): seq<Packet>
    decreases |history|
  {
    if OverBudget(history) && history != [] then Trim(RemoveAt(history, Victim(history, now)), now) else history
  }

  /** The history with which a packet under this key starts: another key forgets everything. */
  function KeyedHistory(history: seq<Packet>, known: Option<Bytes>, key: Bytes): seq<Packet> {
    if known == Some(key) then history else []
  }

  datatype Memory = Memory(history: seq<Packet>, key: Option<Bytes>, index: Option<nat>)

  /** `_remember_packet` on the two fields it changes, with the index of the retained packet if there is one. */
  function Recall(history: seq<Packet>, known: Option<Bytes>, requests: nat, body: Bytes, now: int): (m: Memory)
    ensures m.index.Some? ==> m.index.value < |m.history|
  {
    var key := Key(body);
    if key == ZERO_KEY then Memory(history, known, None)
    else
      var kept := KeyedHistory(history, known, key);
      if |body| > REPLAY_HISTORY_BYTES then Memory(kept, Some(key), None)
      else match FindPacket(kept, body)
        case Some(i) => Memory(kept, Some(key), Some(i))
        case None => Memory(kept + [Packet(now, body, requests, 0, 0, None, {}, false)], Some(key), Some(|kept|))
  }

  /** `_remember_packet`. */
  function Remember(ch: Channel, body: Bytes, now: int): (r: (Channel, Option<nat>))
    ensures r.1.Some? ==> r.1.value < |r.0.history|
    ensures r.0 == ch.(history := r.0.history, replayKey := r.0.replayKey)
  {
    var m := Recall(ch.history, ch.replayKey, ch.requests, body, now);
    (ch.(history := m.history, replayKey := m.key), m.index)
  }

  // ------------------------------------------------------------------- send

  /** The await-free tail of `_send` for a native packet, once both capacities are granted. */
  function AdmitNative(ch: Channel, body: Bytes, task: Task, now: int): Channel {
    var (remembered, index) := Remember(ch.(requests := ch.requests + 1), body, now);
    var sent := remembered.(pending := ch.pending[task := |body|], pendingBytes := ch.pendingBytes + |body|);
    match index
    case None => sent
    case Some(i) => sent.(history := Trim(MarkOriginal(sent.history, i, task), now))
  }

  function MarkOriginal(history: seq<Packet>, i: nat, task: Task): seq<Packet>
    requires i < |history|
  {
    history[i := history[i].(originals := history[i].originals + {task})]
  }

  /** The sequence number of the packet the new task works for, if one is retained. */
  function NativePacket(ch: Channel, body: Bytes, now: int): Option<nat> {
    var (remembered, index) := Remember(ch.(requests := ch.requests + 1), body, now);
    match index
    case None => None
    case Some(i) => Some(remembered.history[i].sequence)
  }

  /** The await-free tail of `_send` for a replay of the retained packet number `i`. */
  function AdmitReplay(ch: Channel, i: nat, task: Task, now: int): Channel
    requires i < |ch.history|
  {
    var packet := ch.history[i];
    ch.(pendingBytes := ch.pendingBytes + |packet.body|,
        requests := ch.requests + 1,
        replayRequests := ch.replayRequests + 1,
        pending := ch.pending[task := |packet.body|],
        replayPending := ch.replayPending + {task},
        history := ch.history[i := packet.(attempts := packet.attempts + 1,
                                           lastAttemptAt := now,
                                           pending := Some(task))])
  }

  // ------------------------------------------------------------ replay rules

  /** `_overdue_original`. */
  predicate Overdue(ch: Channel, packet: Packet, now: int) {
    packet.retired || exists t :: t in packet.originals && t in ch.sentSince && t !in ch.receiving
                                  && now - ch.sentSince[t] >= REPLAY_REQUEST_MS
  }

  predicate IsLatest(ch: Channel, packet: Packet) {
    ch.history != [] && ch.history[|ch.history| - 1].sequence == packet.sequence
  }

  /** `_replay_limit`. */
  function ReplayLimit(ch: Channel, packet: Packet): nat {
    if packet.originals != {} || packet.retired || IsLatest(ch, packet) then REPLAY_MAX_ATTEMPTS else 0
  }

  datatype Blocker =
    | Expired
    | BudgetUsed
    | BackpressureFromNative
    | OriginalBody
    | ReplayBody
    | BackoffOrProgress
    | ReceiverActive

  /** `_replay_blocker`: why a retained packet may not be replayed now, if it may not. */
  function ReplayBlocker(ch: Channel, packet: Packet, now: int): Option<Blocker> {
    if !(0 <= now - packet.sentAt <= REPLAY_MAX_AGE_MS) then Some(Expired)
    else if packet.attempts >= ReplayLimit(ch, packet) then Some(BudgetUsed)
    else if ch.NativeBackpressure() then Some(BackpressureFromNative)
    else if packet.originals * ch.receiving != {} then Some(OriginalBody)
    else if packet.pending.Some? && packet.pending.value in ch.receiving then Some(ReplayBody)
    else if packet.Replayed() && now - packet.lastAttemptAt < REPLAY_RETRY_MS then Some(BackoffOrProgress)
    else if Overdue(ch, packet, now) then None
    else if !IsLatest(ch, packet) || (exists t :: t in ch.pending && packet.pending != Some(t)) then Some(ReceiverActive)
    else if packet.Replayed() && now - ch.lastProgress < REPLAY_IDLE_MS then Some(BackoffOrProgress)
    else None
  }

  predicate ReplayDue(ch: Channel, packet: Packet, now: int) { ReplayBlocker(ch, packet, now).None? }

  // --------------------------------------------------------- capacity rotation

  /** A task `_capacity_candidate` would not skip. */
  predicate Rotatable(ch: Channel, task: Task, now: int) {
    && task in ch.sentSince
    && task !in ch.receiving
    && now - ch.sentSince[task] >= REPLAY_REQUEST_MS
    && (task in ch.replayPending ||
        var owner := FindOriginal(ch.history, task);
        owner.Some? && now - ch.history[owner.value].sentAt <= REPLAY_MAX_AGE_MS)
  }

  /** The sort key of `_capacity_candidate`: replays first, then the oldest upload. */
  predicate RotatesNoLater(ch: Channel, a: Task, b: Task)
    requires a in ch.sentSince && b in ch.sentSince
  {
    if (a in ch.replayPending) == (b in ch.replayPending) then ch.sentSince[a] <= ch.sentSince[b]
    else a in ch.replayPending
  }

  /** `_capacity_candidate`; ties of the sort key are broken by dictionary order, left open here. */
  predicate CapacityCandidate(ch: Channel, now: int, choice: Option<Task>) {
    match choice
    case None => forall t :: t in ch.sentSince ==> !Rotatable(ch, t, now)
    case Some(task) =>
      && Rotatable(ch, task, now)
      && forall t :: t in ch.sentSince && Rotatable(ch, t, now) ==> RotatesNoLater(ch, task, t)
  }

  /** What `_make_upload_room` does to the channel that loses `task`. */
  function Rotate(ch: Channel, task: Task): Channel {
    var popped := ch.(sentSince := ch.sentSince - {task});
    match (if task in ch.replayPending then None else FindOriginal(ch.history, task))
    case None => popped
    case Some(i) => popped.(history := ch.history[i := ch.history[i].(retired := true)])
  }

  // ------------------------------------------------------------ recovery scan

  /** The sort key of `_recover`: overdue packets oldest first, then the rest newest first. */
  predicate ScannedBefore(ch: Channel, a: Packet, b: Packet, now: int) {
    var overdueA, overdueB := Overdue(ch, a, now), Overdue(ch, b, now);
    if overdueA != overdueB then overdueA
    else if overdueA then a.sequence < b.sequence
    else a.sequence > b.sequence
  }

  function IdleReplays(ch: Channel): set<Task> {
    set t | t in ch.pending && t in ch.replayPending && t !in ch.receiving
  }

  /** Which replay `_recover` would give up to make place for this packet. */
  predicate Replaces(ch: Channel, packet: Packet, victim: Option<Task>) {
    if packet.pending.Some? then victim == packet.pending
    else if |ch.replayPending| < MAX_CHANNEL_REPLAYS then victim == None
    else victim.Some? && victim.value in IdleReplays(ch)
         && forall t :: t in IdleReplays(ch) ==> victim.value <= t
  }

  predicate SlotExpired(ch: Channel, task: Task, now: int) {
    task !in ch.receiving && task in ch.sentSince && now - ch.sentSince[task] >= REPLAY_SLOT_MS
  }

  /** The scan of `_recover` does not skip this packet. */
  predicate Acceptable(ch: Channel, packet: Packet, now: int) {
    && ReplayDue(ch, packet, now)
    && if packet.pending.Some? then SlotExpired(ch, packet.pending.value, now)
       else |ch.replayPending| < MAX_CHANNEL_REPLAYS ||
            exists t :: t in IdleReplays(ch) && (forall u :: u in IdleReplays(ch) ==> t <= u) && SlotExpired(ch, t, now)
  }

  datatype Plan = Nothing | SendAgain(index: nat) | ReplaceThenSend(index: nat, victim: Task)

  /** What one pass of `_recover` over the history decides. */
  predicate ScanDecides(ch: Channel, now: int, plan: Plan) {
    match plan
    case Nothing => forall i :: 0 <= i < |ch.history| ==> !Acceptable(ch, ch.history[i], now)
    case SendAgain(k) => First(ch, now, k) && Replaces(ch, ch.history[k], None)
    case ReplaceThenSend(k, victim) => First(ch, now, k) && Replaces(ch, ch.history[k], Some(victim))
  }

  predicate First(ch: Channel, now: int, k: nat) {
    && k < |ch.history|
    && Acceptable(ch, ch.history[k], now)
    && forall i :: 0 <= i < |ch.history| && i != k && Acceptable(ch, ch.history[i], now)
         ==> ScannedBefore(ch, ch.history[k], ch.history[i], now)
  }

  // ------------------------------------------------------------- completion

  /** `_fail`. */
  function Fail(ch: Channel, error: Error): Channel {
    if ch.closed then ch else
      ch.(transportError := if error.Transport? then Some(error.code) else ch.transportError,
          closed := true, queue := [Failure(error)], replyBytes := 0)
  }

  /** `_run_request` after `_post` returned `reply`. */
  function Complete(ch: Channel, reply: Bytes, now: int): Channel {
    var progressed := ch.(lastProgress := now);
    if reply == [] || ch.closed then progressed
    else if |ch.queue| >= MAX_QUEUED_REPLIES || ch.replyBytes + |reply| > MAX_CHANNEL_BYTES
    then Fail(progressed, BufferExceeded)
    else progressed.(replyBytes := ch.replyBytes + |reply|, queue := ch.queue + [Reply(reply)])
  }

  /** The packet of the history that `_finish_request` detaches the task from. */
  function FinishTarget(history: seq<Packet>, task: Task, packet: Option<nat>): (r: Option<nat>)
    ensures r.Some? ==> r.value < |history|
  {
    match packet
    case Some(sequence) => FindSequence(history, sequence)
    case None => FindOwner(history, task)
  }

  function Detach(history: seq<Packet>, task: Task, packet: Option<nat>): seq<Packet> {
    match FinishTarget(history, task, packet)
    case None => history
    case Some(i) => history[i := history[i].Without(task)]
  }

  /** `_finish_request`; the lane's share of the work is `Multiplex.Lane.Release`. */
  function Finish(ch: Channel, task: Task, packet: Option<nat>): Channel {
    if task !in ch.pending then ch else
      ch.(pending := ch.pending - {task},
          pendingBytes := ch.pendingBytes - ch.pending[task],
          sentSince := ch.sentSince - {task},
          replayPending := ch.replayPending - {task},
          history := Detach(ch.history, task, packet))
  }

  /** `receive` once the queue is not empty. */
  function Receive(ch: Channel): Channel
    requires ch.queue != []
  {
    match ch.queue[0]
    case Reply(body) => ch.(queue := ch.queue[1..], replyBytes := ch.replyBytes - |body|)
    case Failure(_) => ch.(queue := ch.queue[1..])
  }

  /** The end of `close`, when every task has been waited for. */
  function Swept(ch: Channel): Channel {
    ch.(closeDone := true, replayPending := {}, history := [], sentSince := map[])
  }
}
