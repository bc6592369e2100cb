/**
  What the replay history of a channel keeps (`_remember_packet`, `_trim_history`
  and the history updates of `_send` and `_finish_request` in tgproxy/cf_h2.py).
  */
module ReplayHistory {
  import opened Common
  import opened ChannelState

  predicate SameBody(p: Packet, q: Packet) { p.body == q.body }

  predicate UnderKey(p: Packet, key: Option<Bytes>) { Key(p.body) != ZERO_KEY && key == Some(Key(p.body)) }

  /** Oldest first, no body twice, one non-zero key for all. */
  ghost predicate WellOrdered(history: seq<Packet>, key: Option<Bytes>, newest: nat) {
    && (forall i, j :: 0 <= i < j < |history| ==> history[i].sequence < history[j].sequence)
    && (forall i, j {:trigger SameBody(history[i], history[j])} :: 0 <= i < j < |history| ==>
          !SameBody(history[i], history[j]))
    && (forall i :: 0 <= i < |history| ==> history[i].sequence <= newest)
    && (forall i {:trigger UnderKey(history[i], key)} :: 0 <= i < |history| ==> UnderKey(history[i], key))
  }

  ghost predicate Retention(ch: Channel) {
    WellOrdered(ch.history, ch.replayKey, ch.requests) && !OverBudget(ch.history)
  }

  /** Replay attempts the retained packets still have, all together. */
  function AttemptsLeft(history: seq<Packet>): int {
    if history == [] then 0
    else AttemptsLeft(history[..|history| - 1]) + REPLAY_MAX_ATTEMPTS - history[|history| - 1].attempts
  }

  lemma {:induction false} MeasuresAfterRemoval(history: seq<Packet>, i: nat)
    requires i < |history|
    ensures HistoryBytes(RemoveAt(history, i)) == HistoryBytes(history) - |history[i].body|
    ensures AttemptsLeft(RemoveAt(history, i)) == AttemptsLeft(history) - REPLAY_MAX_ATTEMPTS + history[i].attempts
  {
    var last := |history| - 1;
    if i == last {
      assert RemoveAt(history, i) == history[..last];
    } else {
      MeasuresAfterRemoval(history[..last], i);
      assert RemoveAt(history, i)[..last - 1] == RemoveAt(history[..last], i);
    }
  }

  lemma {:induction false} MeasuresAfterUpdate(history: seq<Packet>, i: nat, packet: Packet)
    requires i < |history| && packet.body == history[i].body
    ensures HistoryBytes(history[i := packet]) == HistoryBytes(history)
    ensures AttemptsLeft(history[i := packet]) == AttemptsLeft(history) + history[i].attempts - packet.attempts
  {
    var last := |history| - 1;
    if i == last {
      assert history[i := packet][..last] == history[..last];
    } else {
      MeasuresAfterUpdate(history[..last], i, packet);
      assert history[i := packet][..last] == history[..last][i := packet];
    }
  }

  lemma MeasuresAfterAppend(history: seq<Packet>, packet: Packet)
    ensures HistoryBytes(history + [packet]) == HistoryBytes(history) + |packet.body|
    ensures AttemptsLeft(history + [packet]) == AttemptsLeft(history) + REPLAY_MAX_ATTEMPTS - packet.attempts
  {
    assert (history + [packet])[..|history|] == history;
  }

  lemma {:induction false} AttemptsLeftNonNegative(history: seq<Packet>)
    requires forall i :: 0 <= i < |history| ==> history[i].attempts <= REPLAY_MAX_ATTEMPTS
    ensures AttemptsLeft(history) >= 0
  {
    if history != [] {
      AttemptsLeftNonNegative(history[..|history| - 1]);
    }
  }

  lemma RemovalKeepsOrder(history: seq<Packet>, i: nat, key: Option<Bytes>, newest: nat)
    requires i < |history| && WellOrdered(history, key, newest)
    ensures WellOrdered(RemoveAt(history, i), key, newest)
    ensures forall p :: p in RemoveAt(history, i) ==> p in history
    ensures forall p :: p in history && p != history[i] ==> p in RemoveAt(history, i)
  {
    var left := RemoveAt(history, i);
    forall k | 0 <= k < |left|
      ensures left[k] == history[if k < i then k else k + 1]
    {}
    forall p | p in history && p != history[i]
      ensures p in left
    {
      var k :| 0 <= k < |history| && history[k] == p;
      assert left[if k < i then k else k - 1] == p;
    }
  }

  /**
    `_trim_history` ends within its budget, gives up whole packets only, and
    never returns attempts to the total.
    */
  lemma {:induction false} TrimKeeps(history: seq<Packet>, now: int, key: Option<Bytes>, newest: nat)
    requires WellOrdered(history, key, newest)
    requires forall i :: 0 <= i < |history| ==> history[i].attempts <= REPLAY_MAX_ATTEMPTS
    ensures WellOrdered(Trim(history, now), key, newest) && !OverBudget(Trim(history, now))
    ensures forall p :: p in Trim(history, now) ==> p in history
    ensures AttemptsLeft(Trim(history, now)) <= AttemptsLeft(history)
    decreases |history|
  {
    if OverBudget(history) && history != [] {
      var v := Victim(history, now);
      RemovalKeepsOrder(history, v, key, newest);
      MeasuresAfterRemoval(history, v);
      var left := RemoveAt(history, v);
      forall i | 0 <= i < |left| ensures left[i].attempts <= REPLAY_MAX_ATTEMPTS {
        assert left[i] in history;
      }
      TrimKeeps(left, now, key, newest);
    }
  }

  lemma OnePacketFits(history: seq<Packet>)
    requires |history| == 1 && |history[0].body| <= REPLAY_HISTORY_BYTES
    ensures !OverBudget(history)
  {
    assert HistoryBytes(history) == HistoryBytes(history[..0]) + |history[0].body|;
  }

  /** The packet just sent is last, in flight and within the byte budget: trimming keeps it. */
  lemma {:induction false} TrimKeepsPacketJustSent(history: seq<Packet>, now: int)
    requires history != []
    requires history[|history| - 1].originals != {}
    requires |history[|history| - 1].body| <= REPLAY_HISTORY_BYTES
    ensures Trim(history, now) != []
    ensures Trim(history, now)[|Trim(history, now)| - 1] == history[|history| - 1]
    decreases |history|
  {
    if OverBudget(history) {
      var v := Victim(history, now);
      if |history| == 1 {
        OnePacketFits(history);
      }
      var left := RemoveAt(history, v);
      assert left[|left| - 1] == history[|history| - 1];
      TrimKeepsPacketJustSent(left, now);
    }
  }

  /** One turn of the trimming loop: the history it finds, and which packet it gives up. */
  datatype Eviction = Eviction(history: seq<Packet>, victim: nat)

  /** The turns of the trimming loop, in order. */
  function Evictions(history: seq<Packet>, now: int): seq<Eviction>
    decreases |history|
  {
    if OverBudget(history) && history != [] then
      var v := Victim(history, now);
      [Eviction(history, v)] + Evictions(RemoveAt(history, v), now)
    else []
  }

  /** Each turn works on what the one before left, and what the last one leaves is the result. */
  lemma {:induction false} EvictionsAreTheTrim(history: seq<Packet>, now: int)
    ensures var es := Evictions(history, now);
            && (forall i :: 0 <= i < |es| ==> es[i].victim < |es[i].history|)
            && (if es == [] then Trim(history, now) == history
                else es[0].history == history
                     && Trim(history, now) == RemoveAt(es[|es| - 1].history, es[|es| - 1].victim))
            && (forall i :: 0 < i < |es| ==> es[i].history == RemoveAt(es[i - 1].history, es[i - 1].victim))
    decreases |history|
  {
    if OverBudget(history) && history != [] {
      var left := RemoveAt(history, Victim(history, now));
      EvictionsAreTheTrim(left, now);
      var es, more := Evictions(history, now), Evictions(left, now);
      assert forall i :: 0 < i < |es| ==> es[i] == more[i - 1];
    }
  }

  /**
    Of what a turn finds, the oldest evictable packet is given up, or the oldest of
    all when every packet is in flight or retired with attempts and time left.
    */
  lemma {:induction false} EvictionIsForced(history: seq<Packet>, now: int, e: Eviction)
    requires e in Evictions(history, now)
    ensures e.victim < |e.history| && OverBudget(e.history)
    ensures Evictable(e.history[e.victim], now) ==> forall j :: 0 <= j < e.victim ==> !Evictable(e.history[j], now)
    ensures !Evictable(e.history[e.victim], now) ==> e.victim == 0 && forall p :: p in e.history ==> !Evictable(p, now)
    decreases |history|
  {
    var v := Victim(history, now);
    if e != Eviction(history, v) {
      EvictionIsForced(RemoveAt(history, v), now, e);
    }
  }

  lemma AppendKeepsOrder(history: seq<Packet>, packet: Packet, key: Option<Bytes>, newest: nat)
    requires WellOrdered(history, key, newest) && newest < packet.sequence
    requires UnderKey(packet, key)
    requires forall i :: 0 <= i < |history| ==> !SameBody(history[i], packet)
    ensures WellOrdered(history + [packet], key, packet.sequence)
  {
  }

  lemma KeyedKeeps(ch: Channel, key: Bytes)
    requires Retention(ch) && key != ZERO_KEY
    ensures WellOrdered(KeyedHistory(ch.history, ch.replayKey, key), Some(key), ch.requests)
    ensures !OverBudget(KeyedHistory(ch.history, ch.replayKey, key))
  {
    assert HistoryBytes([]) == 0;
  }

  function FreshPacket(ch: Channel, body: Bytes, now: int): Packet {
    Packet(now, body, ch.requests + 1, 0, 0, None, {}, false)
  }

  /** What `_remember_packet` does to the history of a send counted as request `ch.requests + 1`. */
  datatype Recollection =
    | Untouched
    | Forgotten
    | Recalled(index: nat)
    | Added(kept: seq<Packet>)

  ghost function MemoryOf(ch: Channel, body: Bytes): Recollection {
    var kept := KeyedHistory(ch.history, ch.replayKey, Key(body));
    if Key(body) == ZERO_KEY then Untouched
    else if |body| > REPLAY_HISTORY_BYTES then Forgotten
    else match FindPacket(kept, body)
      case Some(i) => Recalled(i)
      case None => Added(kept)
  }

  /** `_remember_packet` either leaves the packets it keeps alone or adds exactly one at the end. */
  lemma RememberAddsAtMostOne(ch: Channel, body: Bytes, now: int)
    ensures var r := Remember(ch.(requests := ch.requests + 1), body, now);
            && (match MemoryOf(ch, body)
                case Untouched => r.1 == None && r.0.history == ch.history
                case Forgotten => r.1 == None && (r.0.history == ch.history || r.0.history == [])
                case Recalled(i) => r.1 == Some(i) && r.0.history == ch.history
                case Added(kept) => r.1 == Some(|kept|) && r.0.history == kept + [FreshPacket(ch, body, now)]
                                    && (kept == ch.history || kept == []))
  {
    hide FindPacket, WellOrdered, OverBudget, Key;
  }

  lemma RememberFits(ch: Channel, body: Bytes, now: int)
    requires Retention(ch) && !MemoryOf(ch, body).Added?
    ensures !OverBudget(Remember(ch.(requests := ch.requests + 1), body, now).0.history)
  {
    if Key(body) != ZERO_KEY {
      KeyedKeeps(ch, Key(body));
    }
  }

  lemma NewerIsWellOrdered(history: seq<Packet>, key: Option<Bytes>, newest: nat, later: nat)
    requires WellOrdered(history, key, newest) && newest <= later
    ensures WellOrdered(history, key, later)
  {
  }

  lemma RememberKeepsOrder(ch: Channel, body: Bytes, now: int)
    requires Retention(ch)
    ensures var r := Remember(ch.(requests := ch.requests + 1), body, now);
            WellOrdered(r.0.history, r.0.replayKey, ch.requests + 1)
  {
    hide WellOrdered, OverBudget, Key, FindPacket;
    var key := Key(body);
    if key == ZERO_KEY {
      NewerIsWellOrdered(ch.history, ch.replayKey, ch.requests, ch.requests + 1);
    } else {
      KeyedKeeps(ch, key);
      var kept := KeyedHistory(ch.history, ch.replayKey, key);
      if |body| <= REPLAY_HISTORY_BYTES && FindPacket(kept, body).None? {
        AppendKeepsOrder(kept, FreshPacket(ch, body, now), Some(key), ch.requests);
      } else {
        NewerIsWellOrdered(kept, Some(key), ch.requests, ch.requests + 1);
      }
    }
  }
}
