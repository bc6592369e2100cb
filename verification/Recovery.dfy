/**
  The controller object of zapret_runtime.py, and the branch of
  `_recover_impl` (zapret_app.pyw:2059-2106) that looks for another preset.
  */
module Recovery {
  import opened Common
  import opened RuntimeControl

  /** `threading.Event`, used for nothing but its identity and its flag. */
  class Event {
    var isSet: bool

    constructor ()
      ensures !isSet
    {
      isSet := false;
    }
  }

  class RuntimeController {
    var desired: Desired
    var token: Event
    var closed: bool
    var busy: bool

    constructor (desired: Desired)
      ensures this.desired == desired && !closed && !busy && fresh(token) && Valid(token)
    {
      this.desired, closed, busy := desired, false, false;
      token := new Event();
    }

    predicate Valid(token: Event)
      reads this, token
    {
      token == this.token && !token.isSet && !closed
    }

    /** `request`: refused if the caller expected another token; otherwise the old token is over and the new one is valid. */
    method Request(desired: Option<Desired>, expected: Event?) returns (issued: Event?)
      modifies `desired, `token, token
      ensures if expected != null && expected != old(token)
              then issued == null && token == old(token) && this.desired == old(this.desired) && token.isSet == old(token.isSet)
              else && fresh(issued) && issued == token && !issued.isSet && Valid(issued) == !closed
                   && old(token).isSet && !Valid(old(token))
                   && this.desired == (if desired.Some? then desired.value else old(this.desired))
    {
      if expected != null && expected != token {
        return null;
      }
      token.isSet := true;
      token := new Event();
      if desired.Some? {
        this.desired := desired.value;
      }
      return token;
    }

    /** `set_desired`: only the holder of the valid token changes what is wanted. */
    method SetDesired(token: Event, desired: Desired)
      modifies `desired
      ensures this.desired == if Valid(token) then desired else old(this.desired)
    {
      if Valid(token) {
        this.desired := desired;
      }
    }

    /** `close`: from now on no token is valid. */
    method Close()
      modifies `closed, token
      ensures closed && token == old(token) && token.isSet && forall t: Event {:trigger Valid(t)} :: !Valid(t)
    {
      closed := true;
      token.isSet := true;
    }
  }

  // ----------------------------------------------------------------- recovery

  type Name = string

  /** What measuring one host shows (zapret_measurements.py:9-20). */
  datatype Probe = Probe(attempts: nat, successes: nat, cancelled: bool) {
    predicate Reliable() { successes == attempts && attempts > 0 && !cancelled }
  }

  /** `Superseded`, or any other exception. */
  datatype Failure = Superseded | Failed

  /** What follows a candidate: the next one, or a normal return. */
  datatype Next = Continue | Return

  predicate AllReliable(probes: seq<Probe>) { forall p :: p in probes ==> p.Reliable() }

  predicate NoneSucceeded(probes: seq<Probe>) { forall p :: p in probes ==> p.successes == 0 }

  /** One result for each of the recovery hosts, all of them reliable. */
  predicate Verified(probes: seq<Probe>, hosts: nat) { |probes| == hosts && AllReliable(probes) }

  /**
    What being verified is worth: with any host to probe, every host was reached
    each time it was tried, and tried; with none, it is worth nothing.
    */
  lemma VerifiedMeansReached(probes: seq<Probe>, hosts: nat)
    ensures Verified(probes, hosts) && hosts > 0 ==> exists p :: p in probes && p.successes == p.attempts > 0
    ensures Verified(probes, hosts) ==> (NoneSucceeded(probes) <==> hosts == 0)
    ensures Verified([], 0)
  {
    if hosts > 0 && |probes| == hosts {
      assert probes[0] in probes;
    }
  }

  /** The presets `_recover_impl` tries: the pool, and with `research` all others, without the original and earlier failures. */
  function Candidates(pool: seq<Name>, presets: seq<Name>, original: Name, failed: set<Name>, research: bool): seq<Name> {
    var chosen := Kept(pool, presets, original, failed);
    chosen + if research then Others(presets, chosen, original, failed) else []
  }

  function Kept(pool: seq<Name>, presets: seq<Name>, original: Name, failed: set<Name>): seq<Name> {
    if pool == [] then []
    else (if pool[0] in presets && pool[0] != original && pool[0] !in failed then [pool[0]] else [])
         + Kept(pool[1..], presets, original, failed)
  }

  function Others(presets: seq<Name>, chosen: seq<Name>, original: Name, failed: set<Name>): seq<Name> {
    if presets == [] then []
    else (if presets[0] !in chosen && presets[0] != original && presets[0] !in failed then [presets[0]] else [])
         + Others(presets[1..], chosen, original, failed)
  }

  lemma {:induction false} KeptAre(pool: seq<Name>, presets: seq<Name>, original: Name, failed: set<Name>)
    ensures forall n :: n in Kept(pool, presets, original, failed) <==>
              n in pool && n in presets && n != original && n !in failed
  {
    if pool != [] {
      KeptAre(pool[1..], presets, original, failed);
    }
  }

  lemma {:induction false} OthersAre(presets: seq<Name>, chosen: seq<Name>, original: Name, failed: set<Name>)
    ensures forall n :: n in Others(presets, chosen, original, failed) <==>
              n in presets && n !in chosen && n != original && n !in failed
  {
    if presets != [] {
      OthersAre(presets[1..], chosen, original, failed);
    }
  }

  /** Every candidate is a known preset other than the original that has not failed before; with `research`, all of them are. */
  lemma CandidatesAreNew(pool: seq<Name>, presets: seq<Name>, original: Name, failed: set<Name>, research: bool)
    ensures forall n :: n in Candidates(pool, presets, original, failed, research) <==>
              (n in pool || research) && n in presets && n != original && n !in failed
  {
    KeptAre(pool, presets, original, failed);
    OthersAre(presets, Kept(pool, presets, original, failed), original, failed);
  }

  lemma {:induction false} KeptKeepOrder(a: seq<Name>, b: seq<Name>, presets: seq<Name>, original: Name, failed: set<Name>)
    ensures Kept(a + b, presets, original, failed) == Kept(a, presets, original, failed) + Kept(b, presets, original, failed)
  {
    if a != [] {
      assert (a + b)[1..] == a[1..] + b;
      KeptKeepOrder(a[1..], b, presets, original, failed);
    } else {
      assert a + b == b;
    }
  }

  /** They come in the order of the pool, each as often as there; with `research` the others follow, in their own order. */
  lemma CandidatesKeepOrder(
    a: seq<Name>, b: seq<Name>, c: seq<Name>, d: seq<Name>, original: Name, failed: set<Name>)
    ensures var presets := c + d;
            Candidates(a + b, presets, original, failed, false) ==
            Candidates(a, presets, original, failed, false) + Candidates(b, presets, original, failed, false)
    ensures |a| == 1 ==> |Candidates(a, c, original, failed, false)| <= 1
    ensures var chosen := Candidates(a, c + d, original, failed, false);
            Candidates(a, c + d, original, failed, true) ==
            chosen + Others(c, chosen, original, failed) + Others(d, chosen, original, failed)
  {
    KeptKeepOrder(a, b, c + d, original, failed);
    if |a| == 1 {
      assert Kept(a[1..], c, original, failed) == [];
    }
    var chosen := Kept(a, c + d, original, failed);
    OthersKeepOrder(c, d, chosen, original, failed);
    assert forall names: seq<Name> :: names + [] == names;
    assert chosen + (Others(c, chosen, original, failed) + Others(d, chosen, original, failed)) ==
           chosen + Others(c, chosen, original, failed) + Others(d, chosen, original, failed);
  }

  lemma {:induction false} OthersKeepOrder(a: seq<Name>, b: seq<Name>, chosen: seq<Name>, original: Name, failed: set<Name>)
    ensures Others(a + b, chosen, original, failed) == Others(a, chosen, original, failed) + Others(b, chosen, original, failed)
  {
    if a != [] {
      assert (a + b)[1..] == a[1..] + b;
      OthersKeepOrder(a[1..], b, chosen, original, failed);
    } else {
      assert a + b == b;
    }
  }

  lemma CandidatesAreKnown(pool: seq<Name>, presets: seq<Name>, original: Name, failed: set<Name>, research: bool)
    ensures forall k :: 0 <= k < |Candidates(pool, presets, original, failed, research)| ==>
              Candidates(pool, presets, original, failed, research)[k] in presets
  {
    hide Candidates;
    CandidatesAreNew(pool, presets, original, failed, research);
    forall k | 0 <= k < |Candidates(pool, presets, original, failed, research)|
      ensures Candidates(pool, presets, original, failed, research)[k] in presets
    {
      assert Candidates(pool, presets, original, failed, research)[k] in Candidates(pool, presets, original, failed, research);
    }
  }

  function Names(names: seq<Name>): set<Name> { set name | name in names }

  lemma OneMoreName(names: seq<Name>, k: nat)
    requires k < |names|
    ensures Names(names[..k + 1]) == Names(names[..k]) + {names[k]}
  {
    assert names[..k + 1] == names[..k] + [names[k]];
  }

  lemma AllNames(names: seq<Name>)
    ensures Names(names[..0]) == {} && Names(names[..|names|]) == Names(names)
  {
    assert names[..|names|] == names;
  }

  /** What the world answers to one switch and to what follows it. */
  datatype Answers = Answers(
    stopped: bool,        // nothing is wanted any more
    service: bool,        // the Windows service is wanted
    starts: bool,         // the service is installed, or the process starts, without an error
    running: bool,        // it runs after the waiting time
    measures: bool,       // the measurement raises nothing
    probes: nat -> Probe, // what measuring each host shows
    online: bool,         // a control host answers
    steady: bool,         // it still runs after the measurement
    writes: bool)         // the settings are written

  /** The bypass came up under the preset. */
  predicate CameUp(a: Answers) { !a.stopped && a.starts && a.running }

  function Measured(a: Answers, hosts: nat): seq<Probe> { seq(hosts, h requires 0 <= h < hosts => a.probes(h)) }

  /** The network itself is gone: no host was reached, and no control host answers. */
  predicate NetworkDown(a: Answers, hosts: nat) {
    CameUp(a) && a.measures && hosts > 0 && NoneSucceeded(Measured(a, hosts)) && !a.online
  }

  /** The preset proved good, and could be noted in the settings. */
  predicate Good(a: Answers, hosts: nat) {
    CameUp(a) && a.measures && Verified(Measured(a, hosts), hosts) && a.steady && a.writes
  }

  lemma GoodIsNotDown(a: Answers, hosts: nat)
    requires Good(a, hosts)
    ensures !NetworkDown(a, hosts)
  {
    VerifiedMeansReached(Measured(a, hosts), hosts);
  }

  /** The search goes on after this candidate. */
  predicate GoesOn(a: Answers, hosts: nat) { !Good(a, hosts) && !NetworkDown(a, hosts) }

  class Watchdog {
    /** The answers to each switch, by its number. */
    const world: nat -> Answers
    /** How many looks the token outlives. */
    const lastValid: nat
    const presets: seq<Name>
    /** How many different hosts `_recovery_hosts` names; none, if the settings name no known service. */
    const hosts: nat
    var looks: nat
    var switches: nat
    var active: Option<Name>
    /** The preset named by the settings in memory, and on disk. */
    var strategy: Name
    var saved: Name
    var failed: set<Name>
    /** The preset that the last switch reported running, if it did. */
    var up: Option<Name>

    /** The token, once invalid, stays so. */
    predicate TokenValid()
      reads `looks
    {
      looks <= lastValid
    }

    method Look()
      modifies `looks
      ensures looks == old(looks) + 1
    {
      looks := looks + 1;
    }

    /** `_switch_to` with a token and without `persist`; `wait` fails only when the token is over. */
    method SwitchTo(name: Name) returns (r: Result<bool, Failure>)
      modifies `looks, `switches, `active, `up
      ensures looks > old(looks) && switches == old(switches) + 1
      ensures r == Ok(true) <==> up == Some(name)
      ensures r == Ok(true) ==> active == Some(name) && name in presets && CameUp(world(old(switches)))
      ensures r == Err(Superseded) ==> !TokenValid()
      ensures TokenValid() ==>
                var a := world(old(switches));
                && r == (if name !in presets || a.stopped then Ok(false)
                         else if !a.starts then Err(Failed)
                         else Ok(a.running))
                && active == (if name in presets && !a.stopped && a.starts then Some(name) else old(active))
    {
      var a := world(switches);
      switches := switches + 1;
      up := None;
      Look();
      if name !in presets || a.stopped {
        return Ok(false);
      }
      Look();
      if !TokenValid() {
        return Err(Superseded);
      }
      if !a.service {
        Look();
        if !TokenValid() {
          return Err(Superseded);
        }
      }
      if !a.starts {
        return Err(Failed);
      }
      active := Some(name);
      Look();
      if !TokenValid() {
        return Err(Superseded);
      }
      Look();
      if !TokenValid() || !a.running {
        return Ok(false);
      }
      up := Some(name);
      return Ok(true);
    }

    /** One candidate up to the `finally` clause: whether it is kept, and how to go on. */
    method Try(name: Name) returns (committed: bool, r: Result<Next, Failure>)
      requires name in presets
      modifies `looks, `switches, `active, `up, `strategy, `saved
      ensures looks > old(looks) && switches == old(switches) + 1
      ensures committed ==> up == Some(name) && active == Some(name) && strategy == saved == name
                            && Good(world(old(switches)), hosts) && r == Ok(Return)
      ensures !committed ==> saved == old(saved)
      ensures r.Err? ==> r.error == Superseded && !TokenValid()
      ensures TokenValid() ==>
                var a := world(old(switches));
                && (committed <==> Good(a, hosts))
                && r == Ok(if GoesOn(a, hosts) then Continue else Return)
    {
      committed := false;
      var a := world(switches);
      var switched := SwitchTo(name);
      if switched == Err(Superseded) {
        return false, Err(Superseded);
      }
      if switched != Ok(true) || !a.measures {
        return false, Ok(Continue);
      }
      var results := Measured(a, hosts);
      Look();
      if !TokenValid() {
        return false, Err(Superseded);
      }
      if results != [] && NoneSucceeded(results) {
        Look();
        if !TokenValid() {
          return false, Err(Superseded);
        }
        if !a.online {
          VerifiedMeansReached(results, hosts);
          return false, Ok(Return);
        }
      }
      if a.steady && AllReliable(results) {
        strategy := name;
        if !a.writes {
          return false, Ok(Continue);
        }
        saved := name;
        return true, Ok(Return);
      }
      return false, Ok(Continue);
    }

    /** One candidate with its `finally` clause: unless it is kept, the original comes back while the token is valid. */
    method TryCandidate(name: Name, original: Name) returns (r: Result<Next, Failure>)
      requires name in presets && original in presets
      modifies `looks, `switches, `active, `up, `strategy, `saved
      ensures looks > old(looks)
      ensures r == Err(Superseded) ==> !TokenValid()
      ensures TokenValid() && r.Ok? && Good(world(old(switches)), hosts) ==>
                && r == Ok(Return) && switches == old(switches) + 1
                && up == active == Some(name) && strategy == saved == name
      ensures TokenValid() && r.Ok? && !Good(world(old(switches)), hosts) ==>
                && r == Ok(if NetworkDown(world(old(switches)), hosts) then Return else Continue)
                && switches == old(switches) + 2 && CameUp(world(old(switches) + 1))
                && up == active == Some(original) && saved == old(saved)
      ensures TokenValid() && r.Err? ==> !Good(world(old(switches)), hosts) && !CameUp(world(old(switches) + 1))
    {
      var committed;
      committed, r := Try(name);
      Look();
      if TokenValid() && !committed {
        var back := SwitchTo(original);
        if back.Err? {
          return Err(back.error);
        }
        if !back.value {
          return Err(Failed);
        }
      }
    }

    /** The candidates before number `n` went on, and the original came back after each. */
    ghost predicate AllWentOn(first: nat, n: nat)
      reads this
    {
      forall k :: 0 <= k < n ==> GoesOn(world(first + 2 * k), hosts) && CameUp(world(first + 2 * k + 1))
    }

    /** How the search has to leave the program when it ends after candidate number `n - 1`. */
    ghost predicate EndsWell(original: Name, candidates: seq<Name>, first: nat, n: nat, failedBefore: set<Name>, savedBefore: Name)
      requires n <= |candidates|
      reads this
    {
      if n == |candidates| && AllWentOn(first, n) then
        && failed == failedBefore + Names(candidates)
        && (n > 0 ==> up == active == Some(original)) && saved == savedBefore
      else
        && n > 0 && AllWentOn(first, n - 1)
        && failed == failedBefore + Names(candidates[..n - 1])
        && var a := world(first + 2 * (n - 1));
           if Good(a, hosts) then up == active == Some(candidates[n - 1]) && strategy == saved == candidates[n - 1]
           else NetworkDown(a, hosts) && up == active == Some(original) && saved == savedBefore
    }

    /** The loop of the search over its candidates. */
    method Search(original: Name, candidates: seq<Name>) returns (r: Result<(), Failure>, ghost tried: nat)
      requires original in presets && forall k :: 0 <= k < |candidates| ==> candidates[k] in presets
      modifies `looks, `switches, `active, `up, `strategy, `saved, `failed
      ensures tried <= |candidates|
      ensures r == Err(Superseded) ==> !TokenValid()
      ensures TokenValid() && r.Ok? ==>
                EndsWell(original, candidates, old(switches), tried, old(failed), old(saved))
                && (tried == 0 ==> active == old(active) && up == old(up) && strategy == old(strategy))
      ensures TokenValid() && r.Err? ==>
                && tried > 0 && AllWentOn(old(switches), tried - 1)
                && !Good(world(old(switches) + 2 * (tried - 1)), hosts)
                && !CameUp(world(old(switches) + 2 * (tried - 1) + 1))
    {
      hide Names, Good, NetworkDown, CameUp;
      tried := 0;
      AllNames(candidates);
      for k := 0 to |candidates|
        invariant tried == k && looks >= old(looks)
        invariant TokenValid() ==>
                    && switches == old(switches) + 2 * k && AllWentOn(old(switches), k)
                    && failed == old(failed) + Names(candidates[..k])
                    && (k > 0 ==> up == active == Some(original)) && saved == old(saved)
                    && (k == 0 ==> active == old(active) && up == old(up) && strategy == old(strategy))
      {
        Look();
        if !TokenValid() {
          return Err(Superseded), k;
        }
        var next := TryCandidate(candidates[k], original);
        tried := k + 1;
        if TokenValid() && Good(world(old(switches) + 2 * k), hosts) {
          GoodIsNotDown(world(old(switches) + 2 * k), hosts);
        }
        if next.Err? {
          return Err(next.error), tried;
        }
        if next.value.Return? {
          return Ok(()), tried;
        }
        failed := failed + {candidates[k]};
        OneMoreName(candidates, k);
      }
      return Ok(()), tried;
    }

    /**
      The branch of `_recover_impl` that looks for another preset. When it returns
      normally with its token still valid, it has tried the candidates in order,
      each once, up to the first that proved good, or found the network down, or up
      to the last. A good one stays, in the settings too; otherwise the original
      runs again. Exactly those that neither proved good nor met a dead network are
      noted as failed. An error means that the token is over, or that the original
      did not come back.
      */
    method Recover(wantedStopped: bool, pool: seq<Name>, research: bool)
      returns (r: Result<(), Failure>, ghost tried: nat)
      modifies `looks, `switches, `active, `up, `strategy, `saved, `failed
      ensures r == Err(Superseded) ==> !TokenValid()
      ensures var original := old(if active.Some? then active.value else strategy);
              var candidates := Candidates(pool, presets, original, old(failed), research);
              && tried <= |candidates|
              && (wantedStopped || original !in presets ==>
                    tried == 0 && active == old(active) && up == old(up) && failed == old(failed)
                    && strategy == old(strategy) && saved == old(saved))
              && (TokenValid() && r.Ok? && !wantedStopped && original in presets ==>
                    EndsWell(original, candidates, old(switches), tried, old(failed), old(saved)))
              && (TokenValid() && r.Err? ==>
                    tried > 0 && AllWentOn(old(switches), tried - 1)
                    && !Good(world(old(switches) + 2 * (tried - 1)), hosts)
                    && !CameUp(world(old(switches) + 2 * (tried - 1) + 1)))
    {
      tried := 0;
      if wantedStopped {
        return Ok(()), 0;
      }
      if !TokenValid() {
        return Err(Superseded), 0;
      }
      var original := if active.Some? then active.value else strategy;
      var candidates := Candidates(pool, presets, original, failed, research);
      if original !in presets {
        return Ok(()), 0;
      }
      CandidatesAreKnown(pool, presets, original, failed, research);
      r, tried := Search(original, candidates);
    }
  }
}
