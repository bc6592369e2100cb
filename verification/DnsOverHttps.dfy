/**
  Switching the machine's DNS to a DNS-over-HTTPS provider and back
  (zapret_core.py:1896-2033): settings on disk, adapters in the system, and
  every write to either of them may fail or be the last before a crash.
  */
module DnsOverHttps {
  import opened Common

  type Guid = nat
  type Index = nat

  /** An adapter's IPv4 DNS: from the network, or entered by hand. */
  datatype Dns = Automatic | Static(servers: seq<string>)

  datatype Entry = Entry(guid: Guid, dns: Dns)

  type Snapshot = map<Index, Entry>

  /** The settings on disk that matter here; no snapshot is the empty one. */
  datatype Config = Config(enabled: bool, pending: bool, provider: string, snapshot: Snapshot)

  /** What survives a crash. */
  datatype World = World(config: Config, dns: map<Guid, Dns>)

  predicate Saved(s: Snapshot, guid: Guid) { exists i :: i in s && s[i].guid == guid }

  /** `_validate_dns_snapshot`. */
  predicate ValidSnapshot(s: Snapshot) {
    s != map[] && forall i :: i in s ==> i >= 1 && s[i].dns != Static([])
  }

  /**
    The crash-safety invariant: the snapshot holds original values, an adapter
    that differs from its original is in the snapshot, and settings that say
    neither enabled nor pending mean that all adapters are original.
    */
  ghost predicate Safe(w: World, original: map<Guid, Dns>) {
    && w.dns.Keys == original.Keys
    && (forall i :: i in w.config.snapshot ==>
          w.config.snapshot[i].guid in original && w.config.snapshot[i].dns == original[w.config.snapshot[i].guid])
    && (forall g :: g in original && w.dns[g] != original[g] ==> Saved(w.config.snapshot, g))
    && (!w.config.enabled && !w.config.pending ==> forall g :: g in original ==> w.dns[g] == original[g])
  }

  /** What `_dns_snapshot` reads when the adapters `up` are up. */
  function Current(dns: map<Guid, Dns>, up: map<Index, Guid>): Snapshot
    requires forall i :: i in up ==> up[i] in dns
  {
    map i | i in up :: Entry(up[i], dns[up[i]])
  }

  /** Entries of adapters the snapshot does not know yet. */
  function Unknown(saved: Snapshot, current: Snapshot): Snapshot {
    map i | i in current && !Saved(saved, current[i].guid) :: current[i]
  }

  /** Adding unknown adapters in a safe state adds original values, and then every adapter seen is saved. */
  lemma MergedSnapshotIsOriginal(w: World, original: map<Guid, Dns>, up: map<Index, Guid>)
    requires Safe(w, original) && forall i :: i in up ==> up[i] in w.dns
    requires forall i :: i in Unknown(w.config.snapshot, Current(w.dns, up)) ==> i !in w.config.snapshot
    ensures var current := Current(w.dns, up);
            var merged := w.config.snapshot + Unknown(w.config.snapshot, current);
            && (forall i :: i in merged ==> merged[i].guid in original && merged[i].dns == original[merged[i].guid])
            && (forall i :: i in current ==> Saved(merged, current[i].guid))
            && (forall g :: Saved(w.config.snapshot, g) ==> Saved(merged, g))
  {
    var current := Current(w.dns, up);
    var unknown := Unknown(w.config.snapshot, current);
    var merged := w.config.snapshot + unknown;
    forall i | i in merged ensures merged[i].guid in original && merged[i].dns == original[merged[i].guid] {
      if i in unknown {
        assert !Saved(w.config.snapshot, up[i]);
      }
    }
    hide Safe;
    forall g | Saved(w.config.snapshot, g) ensures Saved(merged, g) {
      var i :| i in w.config.snapshot && w.config.snapshot[i].guid == g;
      assert i in merged && merged[i] == w.config.snapshot[i];
    }
    forall i | i in current ensures Saved(merged, current[i].guid) {
      if !Saved(w.config.snapshot, current[i].guid) {
        assert i in unknown && merged[i] == current[i];
      }
    }
  }

  lemma SeenIsValid(dns: map<Guid, Dns>, up: map<Index, Guid>)
    requires forall i :: i in up ==> up[i] in dns
    ensures ValidSnapshot(Current(dns, up)) <==> up != map[] && forall i :: i in up ==> i >= 1 && dns[up[i]] != Static([])
  {
    var current := Current(dns, up);
    assert current.Keys == up.Keys;
    assert forall i :: i in up ==> current[i].dns == dns[up[i]];
    assert up == map[] <==> up.Keys == {};
    assert current == map[] <==> current.Keys == {};
  }

  lemma UnknownAreNew(saved: Snapshot, dns: map<Guid, Dns>, up: map<Index, Guid>)
    requires forall i :: i in up ==> up[i] in dns
    ensures (exists i :: i in Unknown(saved, Current(dns, up)) && i in saved) <==>
            !forall i :: i in up && !Saved(saved, up[i]) ==> i !in saved
    ensures ValidSnapshot(Current(dns, up)) && (forall i :: i in Unknown(saved, Current(dns, up)) ==> i !in saved) ==>
              (ValidSnapshot(saved + Unknown(saved, Current(dns, up))) <==>
                 forall i :: i in saved ==> i >= 1 && saved[i].dns != Static([]))
  {
    var current, unknown := Current(dns, up), Unknown(saved, Current(dns, up));
    assert forall i :: i in unknown <==> i in up && !Saved(saved, up[i]);
    if ValidSnapshot(current) && forall i :: i in unknown ==> i !in saved {
      var merged := saved + unknown;
      var i :| i in current;
      if i !in unknown {
        var j :| j in saved && saved[j].guid == current[i].guid;
        assert j in merged;
      } else {
        assert i in merged;
      }
      assert forall j :: j in saved ==> merged[j] == saved[j];
      assert forall j :: j in unknown ==> merged[j] == current[j];
    }
  }

  /** What applying an entry, or a provider's addresses in its place, sets an adapter to. */
  function Wanted(entry: Entry, ips: Option<seq<string>>): Dns {
    if ips.Some? then Static(ips.value) else entry.dns
  }

  lemma SafeKeys(w: World, original: map<Guid, Dns>)
    requires Safe(w, original)
    ensures w.dns.Keys == original.Keys
  {
  }

  /** The first write of `doh_enable`: a larger snapshot, and pending. */
  lemma AnnouncingIsSafe(w: World, original: map<Guid, Dns>, merged: Snapshot)
    requires Safe(w, original)
    requires forall i :: i in merged ==> merged[i].guid in original && merged[i].dns == original[merged[i].guid]
    requires forall g :: Saved(w.config.snapshot, g) ==> Saved(merged, g)
    ensures Safe(w.(config := w.config.(snapshot := merged, pending := true)), original)
  {
    hide Saved;
  }

  lemma EnablingIsSafe(w: World, original: map<Guid, Dns>, provider: string)
    requires Safe(w, original)
    ensures Safe(w.(config := w.config.(enabled := true, provider := provider, pending := false)), original)
  {
    hide Saved;
  }

  /** The last write of a rollback: the snapshot may go if all adapters are original. */
  lemma RolledBackIsSafe(w: World, original: map<Guid, Dns>, snapshot: Snapshot, wasEnabled: bool)
    requires Safe(w, original)
    requires if wasEnabled then snapshot == w.config.snapshot && w.config.enabled
             else snapshot == map[] && w.dns == original
    ensures Safe(w.(config := w.config.(pending := false, snapshot := snapshot)), original)
  {
    hide Saved;
  }

  lemma RestoredIsSafe(w: World, original: map<Guid, Dns>)
    requires Safe(w, original) && w.dns == original
    ensures Safe(w.(config := w.config.(enabled := false, pending := false, snapshot := map[])), original)
  {
  }

  lemma QuietIsOriginal(w: World, original: map<Guid, Dns>)
    requires Safe(w, original) && !w.config.enabled && !w.config.pending
    ensures w.dns == original
  {
  }

  /** How a write to the settings or to one adapter ends. */
  datatype Fate = Works | FailsBefore | FailsAfter

  class Machine {
    const fate: nat -> Fate
    const leftover: nat -> Dns
    const providers: map<string, seq<string>>
    var calls: nat
    /** How many effects have failed so far. */
    ghost var faults: nat
    var config: Config
    var dns: map<Guid, Dns>
    /** Every state that has been durable, in order: where a crash may leave the machine. */
    var trail: seq<World>

    ghost function View(): World
      reads this
    {
      World(config, dns)
    }

    ghost predicate AllSafe(original: map<Guid, Dns>)
      reads this
    {
      Safe(View(), original) && forall w :: w in trail ==> Safe(w, original)
    }

    method Record()
      modifies `trail, `calls, `faults
      ensures trail == old(trail) + [View()]
      ensures faults == old(faults) + if fate(old(calls)) == Works then 0 else 1
    {
      trail := trail + [World(config, dns)];
      faults := faults + if fate(calls) == Works then 0 else 1;
      calls := calls + 1;
    }

    /** `update_config`; a failure may come before or after the settings are on disk. */
    method UpdateConfig(changed: Config, ghost original: map<Guid, Dns>) returns (ok: bool)
      requires AllSafe(original) && Safe(World(changed, dns), original)
      modifies `config, `trail, `calls, `faults
      ensures AllSafe(original)
      ensures config == changed || (!ok && config == old(config))
      ensures ok <==> faults == old(faults)
      ensures faults == old(faults) + if fate(old(calls)) == Works then 0 else 1
    {
      ok := fate(calls) == Works;
      if fate(calls) != FailsBefore {
        config := changed;
      }
      Record();
    }

    /** `_ps_checked` on a script that touches no adapter: it registers the provider, or drops cached names. */
    method RunScript() returns (ok: bool)
      modifies `calls, `faults
      ensures ok <==> faults == old(faults)
      ensures faults == old(faults) + if fate(old(calls)) == Works then 0 else 1
    {
      ok := fate(calls) == Works;
      faults := faults + if ok then 0 else 1;
      calls := calls + 1;
    }

    /** Setting one adapter that the snapshot knows, while the settings admit to it. */
    method SetAdapter(guid: Guid, value: Dns, ghost original: map<Guid, Dns>) returns (ok: bool)
      requires AllSafe(original) && (config.enabled || config.pending)
      requires guid in original && Saved(config.snapshot, guid)
      modifies `dns, `trail, `calls, `faults
      ensures AllSafe(original) && dns.Keys == old(dns).Keys
      ensures forall g :: g in original && g != guid ==> dns[g] == old(dns)[g]
      ensures ok ==> dns[guid] == value
      ensures ok <==> faults == old(faults)
      ensures faults == old(faults) + if fate(old(calls)) == Works then 0 else 1
    {
      ok := fate(calls) == Works;
      if fate(calls) != FailsBefore {
        dns := dns[guid := if ok then value else leftover(calls)];
      }
      Record();
    }

    /**
      `_dns_apply`: adapters are set one by one, each may fail and be left with
      anything; errors are collected and reported at the end. With no `ips` the
      snapshot's own values are restored.
      */
    method Apply(s: Snapshot, ips: Option<seq<string>>, ghost original: map<Guid, Dns>) returns (ok: bool)
      requires AllSafe(original) && (config.enabled || config.pending)
      requires forall i :: i in s ==> s[i].guid in original && Saved(config.snapshot, s[i].guid)
      requires ips.None? ==> forall i, j :: i in s && j in s && s[i].guid == s[j].guid ==> s[i].dns == s[j].dns
      modifies `dns, `trail, `calls, `faults
      ensures AllSafe(original)
      ensures forall g :: g in original && !Saved(s, g) ==> dns[g] == old(dns)[g]
      ensures ok ==> forall i :: i in s ==> dns[s[i].guid] == Wanted(s[i], ips)
      ensures ok <==> ValidSnapshot(s) && faults == old(faults)
      ensures faults >= old(faults)
    {
      hide Safe, ValidSnapshot;
      if !ValidSnapshot(s) {
        return false;
      }
      SafeKeys(View(), original);
      var todo, errors := s.Keys, false;
      while todo != {}
        modifies `dns, `trail, `calls, `faults
        invariant todo <= s.Keys && AllSafe(original) && dns.Keys == old(dns).Keys
        invariant forall g :: g in original && !Saved(s, g) ==> dns[g] == old(dns)[g]
        invariant !errors ==> forall i :: i in s && i !in todo ==> dns[s[i].guid] == Wanted(s[i], ips)
        invariant faults >= old(faults) && (!errors <==> faults == old(faults))
        decreases |todo|
      {
        var i :| i in todo;
        var one := SetAdapter(s[i].guid, Wanted(s[i], ips), original);
        errors := errors || !one;
        todo := todo - {i};
      }
      var flushed := RunScript();
      ok := !errors && flushed;
    }

    /** What `doh_enable` asks for before it changes anything. */
    ghost predicate CanEnable(provider: string, up: Option<map<Index, Guid>>)
      requires up.Some? ==> forall i :: i in up.value ==> up.value[i] in dns
      reads this
    {
      && provider in providers && !config.pending
      // the adapters can be read: some are up, and none was given an empty list of servers by hand
      && up.Some? && up.value != map[]
      && (forall i :: i in up.value ==> i >= 1 && dns[up.value[i]] != Static([]))
      // what was saved before is there, sound, and under the indices it had
      && (config.enabled ==> config.snapshot != map[])
      && (forall i :: i in config.snapshot ==> i >= 1 && config.snapshot[i].dns != Static([]))
      && (forall i :: i in up.value && !Saved(config.snapshot, up.value[i]) ==> i !in config.snapshot)
    }

    /** Everything `doh_enable` looks at before its first write: the adapters as they are, and the snapshot to save. */
    method Prepare(provider: string, up: Option<map<Index, Guid>>) returns (r: Option<(Snapshot, Snapshot)>)
      requires up.Some? ==> forall i :: i in up.value ==> up.value[i] in dns
      ensures r.Some? <==> CanEnable(provider, up)
      ensures r.Some? ==>
                && provider in providers && !config.pending && up.Some?
                && r.value.0 == Current(dns, up.value) && ValidSnapshot(r.value.0)
                && r.value.1 == config.snapshot + Unknown(config.snapshot, r.value.0)
                && forall i :: i in Unknown(config.snapshot, r.value.0) ==> i !in config.snapshot
    {
      if provider !in providers || config.pending || up.None? {
        return None;
      }
      var current := Current(dns, up.value);
      SeenIsValid(dns, up.value);
      if !ValidSnapshot(current) || (config.enabled && config.snapshot == map[]) {
        return None;
      }
      var unknown := Unknown(config.snapshot, current);
      UnknownAreNew(config.snapshot, dns, up.value);
      if exists i :: i in unknown && i in config.snapshot {
        return None;
      }
      var saved := config.snapshot + unknown;
      if !ValidSnapshot(saved) {
        return None;
      }
      return Some((current, saved));
    }

    /** `doh_enable`, also when another provider is enabled already; `up` is `None` if the adapters cannot be read. */
    method DohEnable(provider: string, up: Option<map<Index, Guid>>, ghost original: map<Guid, Dns>)
      returns (ok: bool, undone: bool)
      requires AllSafe(original)
      requires up.Some? ==> forall i :: i in up.value ==> up.value[i] in original
      modifies this
      ensures AllSafe(original)
      ensures dns.Keys == old(dns).Keys == original.Keys && faults >= old(faults)
      ensures ok <==> old(CanEnable(provider, up)) && faults == old(faults)
      ensures !old(CanEnable(provider, up)) ==> !undone && View() == old(View()) && trail == old(trail)
      ensures undone ==>
                && !ok && dns == old(dns) && !config.pending
                && ((config.enabled, config.provider) == old((config.enabled, config.provider))
                    || (config.enabled, config.provider) == (true, provider))
                && config.snapshot == if old(config.enabled)
                                      then old(config.snapshot) + Unknown(old(config.snapshot), Current(old(dns), up.value))
                                      else map[]
      ensures ok ==> provider in providers && config.enabled && !config.pending && config.provider == provider && up.Some?
                     && forall i :: i in up.value ==> up.value[i] in dns && dns[up.value[i]] == Static(providers[provider])
    {
      hide Safe, ValidSnapshot, Unknown;
      hide Safe, ValidSnapshot, Unknown, CanEnable;
      SafeKeys(View(), original);
      var checked := Prepare(provider, up);
      if checked == None {
        return false, false;
      }
      var (current, saved) := checked.value;
      var cfg := config;
      MergedSnapshotIsOriginal(View(), original, up.value);
      AnnouncingIsSafe(View(), original, saved);
      ghost var start := dns;
      ok := UpdateConfig(cfg.(snapshot := saved, pending := true), original);
      if !ok {
        return false, false;
      }
      ok := RunScript();
      if ok {
        ok := Apply(current, Some(providers[provider]), original);
      }
      if ok {
        EnablingIsSafe(View(), original, provider);
        ok := UpdateConfig(config.(enabled := true, provider := provider, pending := false), original);
      }
      if ok {
        SafeKeys(View(), original);
        assert forall i :: i in up.value ==> i in current && current[i].guid == up.value[i];
        return true, false;
      }
      undone := Undo(cfg, current, start, up.value, original);
    }

    /** The error branch of `doh_enable`: back to the values it found. */
    method Undo(cfg: Config, current: Snapshot, ghost start: map<Guid, Dns>, ghost up: map<Index, Guid>,
                ghost original: map<Guid, Dns>)
      returns (undone: bool)
      requires AllSafe(original) && Safe(World(cfg, start), original) && !cfg.pending
      requires (config.enabled || config.pending) && (cfg.enabled ==> config.enabled)
      requires (forall i :: i in up ==> up[i] in start) && current == Current(start, up)
      requires forall i :: i in current ==> current[i].guid in original
      requires forall i :: i in current ==> Saved(config.snapshot, current[i].guid)
      requires forall i, j :: i in current && j in current && current[i].guid == current[j].guid ==>
                 current[i].dns == current[j].dns
      requires forall g :: g in original && !Saved(current, g) ==> dns[g] == start[g]
      modifies `config, `dns, `trail, `calls, `faults
      ensures AllSafe(original) && dns.Keys == original.Keys
      ensures faults >= old(faults) && (undone <==> ValidSnapshot(current) && faults == old(faults))
      ensures undone ==>
                && dns == start
                && config == old(config).(pending := false, snapshot := if cfg.enabled then old(config.snapshot) else map[])
    {
      hide Safe, ValidSnapshot, Saved, Current;
      SafeKeys(World(cfg, start), original);
      undone := Apply(current, None, original);
      SafeKeys(View(), original);
      if undone {
        RestoredAll(start, dns, up, original);
        if !cfg.enabled {
          QuietIsOriginal(World(cfg, start), original);
        }
        var left := if cfg.enabled then config.snapshot else map[];
        RolledBackIsSafe(View(), original, left, cfg.enabled);
        undone := UpdateConfig(config.(pending := false, snapshot := left), original);
      }
    }

    /** `doh_disable`. */
    method DohDisable(ghost original: map<Guid, Dns>) returns (ok: bool)
      requires AllSafe(original)
      modifies this
      ensures AllSafe(original)
      ensures ok ==> dns == original && !config.enabled && !config.pending && config.snapshot == map[]
      ensures faults >= old(faults) && (ok <==> ValidSnapshot(old(config).snapshot) && faults == old(faults))
      ensures !ValidSnapshot(old(config).snapshot) ==> View() == old(View()) && trail == old(trail)
    {
      var saved := config.snapshot;
      if saved == map[] || !ValidSnapshot(saved) {
        return false;
      }
      AnnouncingIsSafe(View(), original, saved);
      ok := UpdateConfig(config.(pending := true), original);
      if ok {
        SavedAreKnown(View(), original);
        ok := Apply(saved, None, original);
      }
      if ok {
        SavedRestored(View(), original);
        RestoredIsSafe(View(), original);
        ok := UpdateConfig(config.(enabled := false, pending := false, snapshot := map[]), original);
      }
    }

    // ---------------------------------------------------------------- sessions

    /** A machine nobody has touched. */
    constructor (dns: map<Guid, Dns>, providers: map<string, seq<string>>, fate: nat -> Fate, leftover: nat -> Dns)
      ensures AllSafe(dns) && View() == World(Config(false, false, "", map[]), dns)
    {
      this.fate, this.leftover, this.providers, this.dns := fate, leftover, providers, dns;
      config, trail, calls := Config(false, false, "", map[]), [], 0;
      faults := 0;
    }

    /** A crash during the last operation: the machine comes up in one of its durable states. */
    method Crash(at: nat, ghost original: map<Guid, Dns>)
      requires AllSafe(original)
      modifies `config, `dns
      ensures AllSafe(original)
    {
      if at < |trail| {
        config, dns := trail[at].config, trail[at].dns;
      }
    }

    /**
      Any sequence of enabling, switching providers and disabling, each of which
      may be cut short by a crash after any effect: no durable state along the
      way was unsafe.
      */
    method Session(operations: seq<Operation>, ghost original: map<Guid, Dns>)
      requires AllSafe(original)
      requires forall o :: o in operations && o.Enable? && o.up.Some? ==>
                 forall i :: i in o.up.value ==> o.up.value[i] in original
      modifies this
      ensures AllSafe(original)
    {
      for k := 0 to |operations|
        invariant AllSafe(original)
      {
        var operation := operations[k];
        trail := [World(config, dns)];
        if operation.Enable? {
          var _, _ := DohEnable(operation.provider, operation.up, original);
        } else {
          var _ := DohDisable(original);
        }
        if operation.crash.Some? {
          Crash(operation.crash.value, original);
        }
      }
    }
  }

  /** What the user asks for, what the adapters report, and where a crash comes if one does. */
  datatype Operation =
    | Enable(provider: string, up: Option<map<Index, Guid>>, crash: Option<nat>)
    | Disable(crash: Option<nat>)

  lemma SavedAreKnown(w: World, original: map<Guid, Dns>)
    requires Safe(w, original)
    ensures forall i :: i in w.config.snapshot ==>
              w.config.snapshot[i].guid in original && Saved(w.config.snapshot, w.config.snapshot[i].guid)
  {
  }

  lemma SavedRestored(w: World, original: map<Guid, Dns>)
    requires Safe(w, original)
    requires forall i :: i in w.config.snapshot ==> w.dns[w.config.snapshot[i].guid] == w.config.snapshot[i].dns
    ensures w.dns == original
  {
    forall g | g in original ensures w.dns[g] == original[g] {
      if Saved(w.config.snapshot, g) {
        var i :| i in w.config.snapshot && w.config.snapshot[i].guid == g;
        assert w.dns[w.config.snapshot[i].guid] == w.config.snapshot[i].dns;
      }
    }
  }

  lemma RestoredAll(start: map<Guid, Dns>, now: map<Guid, Dns>, up: map<Index, Guid>, original: map<Guid, Dns>)
    requires start.Keys == now.Keys == original.Keys && forall i :: i in up ==> up[i] in original
    requires var current := Current(start, up);
             && (forall g :: g in original && !Saved(current, g) ==> now[g] == start[g])
             && forall i :: i in current ==> now[current[i].guid] == current[i].dns
    ensures now == start
  {
    forall g | g in original ensures now[g] == start[g] {
      if Saved(Current(start, up), g) {
        var i :| i in Current(start, up) && Current(start, up)[i].guid == g;
        assert now[Current(start, up)[i].guid] == Current(start, up)[i].dns;
      }
    }
  }
}
