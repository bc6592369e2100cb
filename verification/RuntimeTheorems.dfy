/**
  What the tokens and the lock guarantee over whole runs, and the one gap.
  */
module RuntimeTheorems {
  import opened Common
  import opened RuntimeControl

  lemma AStep(states: seq<App>, acts: seq<Act>, k: nat)
    requires IsRun(states, acts) && k < |acts|
    ensures |states| == |acts| + 1 && Enabled(states[k], acts[k]) && states[k + 1] == Step(states[k], acts[k])
  {
  }

  lemma RunLength(states: seq<App>, acts: seq<Act>)
    requires IsRun(states, acts)
    ensures |states| == |acts| + 1
  {
  }

  /** An invalid token never becomes valid again. */
  lemma {:induction false} TokensNeverRevive(states: seq<App>, acts: seq<Act>, j: nat, k: nat, token: Token)
    requires IsRun(states, acts) && j <= k < |states| && token <= states[j].current && !Valid(states[j], token)
    ensures token <= states[k].current && !Valid(states[k], token)
  {
    hide Step, Enabled;
    if j < k {
      TokensNeverRevive(states, acts, j, k - 1, token);
      AStep(states, acts, k - 1);
      OneStepInvalid(states[k - 1], acts[k - 1], token);
    }
  }

  lemma OneStepInvalid(a: App, act: Act, token: Token)
    requires Enabled(a, act) && token <= a.current && !Valid(a, token)
    ensures token <= Step(a, act).current && !Valid(Step(a, act), token)
  {
    hide Turn;
    if act.Advance? {
      TurnKeepsTokens(a, act.w, act.way);
    }
  }

  lemma TurnKeepsTokens(a: App, w: WorkerId, way: Way)
    requires CanTurn(a, w, way)
    ensures Turn(a, w, way).current == a.current && Turn(a, w, way).closed == a.closed
  {
    hide EnteredTurn;
    EnteredKeepsTokens(a, w, a.workers[w], way);
  }

  lemma EnteredKeepsTokens(a: App, w: WorkerId, worker: Worker, way: Way)
    ensures EnteredTurn(a, w, worker, way).current == a.current && EnteredTurn(a, w, worker, way).closed == a.closed
  {
  }

  /** Step `k` completes the body of a stop with this token. */
  ghost predicate Completes(a: App, act: Act, token: Token) {
    && act.Advance? && act.w in a.workers && act.way == Usual
    && a.workers[act.w].kind.Stop? && a.workers[act.w].pc.Entered? && a.workers[act.w].token == token
  }

  predicate BeginsGo(a: App, act: Act) {
    act.BeginRequest? && IsGo(act.desired) && (act.expected.Some? ==> act.expected.value == a.current)
  }

  lemma CompletionIsRecorded(a: App, act: Act, token: Token)
    requires Enabled(a, act) && Completes(a, act, token)
    ensures Step(a, act).quiet >= token
  {
  }

  lemma TurnKeepsQuiet(a: App, w: WorkerId, way: Way)
    requires CanTurn(a, w, way)
    ensures Turn(a, w, way).quiet >= a.quiet
  {
    hide EnteredTurn;
    EnteredKeepsQuiet(a, w, a.workers[w], way);
  }

  lemma EnteredKeepsQuiet(a: App, w: WorkerId, worker: Worker, way: Way)
    ensures EnteredTurn(a, w, worker, way).quiet >= a.quiet
  {
  }

  lemma {:induction false} QuietOnlyGrows(states: seq<App>, acts: seq<Act>, j: nat, k: nat, token: Token)
    requires IsRun(states, acts) && j < k < |states| && Completes(states[j], acts[j], token)
    ensures states[k].quiet >= token
  {
    hide Inv, IsRun, Completes, Step, Enabled;
    RunLength(states, acts);
    AStep(states, acts, k - 1);
    if j == k - 1 {
      CompletionIsRecorded(states[j], acts[j], token);
    } else {
      QuietOnlyGrows(states, acts, j, k - 1, token);
      StepKeepsQuiet(states[k - 1], acts[k - 1]);
    }
  }

  lemma StepKeepsQuiet(a: App, act: Act)
    requires Enabled(a, act)
    ensures Step(a, act).quiet >= a.quiet
  {
    hide Turn;
    if act.Advance? {
      TurnKeepsQuiet(a, act.w, act.way);
    }
  }

  /** Once a stop has completed, no worker with an earlier token ever starts the process, whatever is requested later. */
  lemma EarlierWorkersNeverStart(states: seq<App>, acts: seq<Act>, j: nat, k: nat, token: Token, w: WorkerId)
    requires IsRun(states, acts) && j < k < |states| && Completes(states[j], acts[j], token)
    requires w in states[k].workers && states[k].workers[w].token < token
    ensures !states[k].workers[w].Inside()
    ensures k < |acts| && acts[k].Advance? && acts[k].w == w ==> (states[k + 1].proc ==> states[k].proc)
  {
    hide Step, Enabled, IsRun, Completes;
    RunsKeep(states, acts, k);
    QuietOnlyGrows(states, acts, j, k, token);
    if k < |acts| && acts[k].Advance? && acts[k].w == w {
      AStep(states, acts, k);
      OutsideStartsNothing(states[k], w, acts[k]);
    }
  }

  lemma OutsideStartsNothing(a: App, w: WorkerId, act: Act)
    requires Enabled(a, act) && act.Advance? && act.w == w && w in a.workers && !a.workers[w].Inside()
    ensures Step(a, act).proc ==> a.proc
  {
    hide EnteredTurn;
  }

  // ------------------------------------------------------------ after a stop

  /** Whatever it does next, this worker does not start the process while `s` is in force. */
  predicate Harmless(a: App, worker: Worker, s: Token) {
    if worker.token < s then !worker.Inside()
    else match worker.kind {
      case Start => false
      case Stop => true
      case Restart => !worker.pc.Killed? && !worker.pc.Cleared?
      case Switch => worker.pc.Ready? || worker.pc.Over? || (worker.pc.Passed? && !Valid(a, worker.token))
      case Auto => worker.pc.Over? || (!worker.own && !worker.pc.Cleared?)
    }
  }

  /** The stop is in force, the process is gone, and nobody can bring it back. */
  ghost predicate Ended(a: App, s: Token) {
    StopInForce(a, s) && !a.proc && forall w :: w in a.workers ==> Harmless(a, a.workers[w], s)
  }

  /**
    The one worker a stop leaves dangerous: a switch with the stop's own token,
    still valid, that looked at `desired` before the request had stored it and
    now waits for the lock.
    */
  ghost predicate LiveEarly(a: App, s: Token) {
    Valid(a, s) && exists w :: w in a.workers && a.workers[w] == Worker(Switch, s, Passed, a.workers[w].own, true)
  }

  lemma OthersOutside(a: App, w: WorkerId, v: WorkerId)
    requires LockOk(a) && w in a.workers && a.workers[w].Inside() && v in a.workers && v != w
    ensures !a.workers[v].Inside()
  {
  }

  /** No request for a start is as late as a stop in force. */
  lemma StartsAreGone(a: App, worker: Worker, s: Token)
    requires TokensOk(a) && StopInForce(a, s) && WorkerTokenOk(a, worker) && worker.token >= s
    ensures !worker.kind.Start? && (worker.kind.Auto? ==> worker.token > s)
  {
  }

  /** When the body of a stop in force completes, nobody can start the process but a live early switch. */
  lemma CompletionEnds(a: App, act: Act, s: Token)
    requires Inv(a) && Enabled(a, act) && Completes(a, act, s) && s > a.lastGo && !LiveEarly(Step(a, act), s)
    ensures Ended(Step(a, act), s)
  {
    hide DesiredOk, QuietOk, StoringOk;
    var w, a' := act.w, Step(a, act);
    assert WorkerTokenOk(a, a.workers[w]);
    assert StopInForce(a, s);
    forall v | v in a'.workers ensures Harmless(a', a'.workers[v], s) {
      if v != w {
        OthersOutside(a, w, v);
        assert a'.workers[v] == a.workers[v];
        assert WorkerTokenOk(a, a.workers[v]) && SwitchOk(a, a.workers[v], s) && PlaceOk(a.workers[v]);
        assert a.workers[v].token > s ==> Outside(a.workers[v]);
        if a.workers[v].token >= s {
          StartsAreGone(a, a.workers[v], s);
        }
      }
    }
  }

  lemma TurnKeepsEnded(a: App, w: WorkerId, way: Way, s: Token)
    requires Inv(a) && CanTurn(a, w, way) && Ended(a, s)
    ensures Ended(Turn(a, w, way), s)
  {
    hide Turn, LockOk, SwitchesOk, StoringOk, StopRunning, QuietOk;
    var a' := Turn(a, w, way);
    assert PlaceOk(a.workers[w]) && WorkerTokenOk(a, a.workers[w]) && Harmless(a, a.workers[w], s);
    assert a.desired == Stopped && s <= a.current;
    TurnFine(a, w, way);
    OwnTurnIsHarmless(a, a', w, s);
    forall v | v in a'.workers ensures Harmless(a', a'.workers[v], s) {
      assert v != w ==> a'.workers[v] == a.workers[v] && Harmless(a, a.workers[v], s);
    }
  }

  lemma OwnTurnIsHarmless(a: App, a': App, w: WorkerId, s: Token)
    requires w in a.workers && Fine(a, a', w) && PlaceOk(a.workers[w]) && Harmless(a, a.workers[w], s)
    requires a.desired == Stopped && !a.proc && s <= a.current
    ensures Harmless(a', a'.workers[w], s) && !a'.proc
  {
  }

  lemma StepKeepsEnded(a: App, act: Act, s: Token)
    requires Inv(a) && Enabled(a, act) && Ended(a, s) && !BeginsGo(a, act)
    ensures Ended(Step(a, act), s)
  {
    hide Turn, LockOk, DesiredOk, SwitchesOk, StoringOk, StopRunning, QuietOk, PlacesOk;
    var a' := Step(a, act);
    if act.Advance? {
      TurnKeepsEnded(a, act.w, act.way, s);
    } else {
      assert StopInForce(a', s);
      forall w | w in a'.workers ensures Harmless(a', a'.workers[w], s) {
        if w in a.workers {
          assert WorkerTokenOk(a, a.workers[w]) && Harmless(a, a.workers[w], s);
        }
      }
    }
  }

  /** The acts are possible from `a` on, one after the other, end in `b`, and request no other state than stopped. */
  predicate Leads(a: App, acts: seq<Act>, b: App)
    decreases |acts|
  {
    if acts == [] then a == b
    else Enabled(a, acts[0]) && !BeginsGo(a, acts[0]) && Leads(Step(a, acts[0]), acts[1..], b)
  }

  /** Whatever happens, short of a request for another state: the process is not running and stopped is what is wanted. */
  ghost predicate Final(a: App) { forall acts, b :: Leads(a, acts, b) ==> !b.proc && b.desired == Stopped }

  lemma {:induction false} EndedLeads(a: App, acts: seq<Act>, b: App, s: Token)
    requires Inv(a) && Ended(a, s) && Leads(a, acts, b)
    ensures Inv(b) && Ended(b, s)
    decreases |acts|
  {
    hide Inv, Ended, Step, Enabled, BeginsGo;
    if acts != [] {
      StepKeeps(a, acts[0]);
      StepKeepsEnded(a, acts[0], s);
      EndedLeads(Step(a, acts[0]), acts[1..], b, s);
    }
  }

  lemma EndedMeansStopped(a: App, s: Token)
    requires Inv(a) && Ended(a, s)
    ensures !a.proc && a.desired == Stopped
  {
  }

  lemma {:induction false} LeadsOn(a: App, acts: seq<Act>, b: App, more: seq<Act>, c: App)
    requires Leads(a, acts, b) && Leads(b, more, c)
    ensures Leads(a, acts + more, c)
    decreases |acts|
  {
    if acts == [] {
      assert acts + more == more;
    } else {
      LeadsOn(Step(a, acts[0]), acts[1..], b, more, c);
      assert (acts + more)[1..] == acts[1..] + more;
    }
  }

  lemma OneAct(a: App, act: Act)
    requires Enabled(a, act) && !BeginsGo(a, act)
    ensures Leads(a, [act], Step(a, act))
  {
  }

  // ------------------------------------------------- what undisturbed workers do

  /** `n` turns of one worker, all with their usual outcome. */
  function Turns(w: WorkerId, n: nat): seq<Act> { seq(n, _ => Advance(w, Usual)) }

  /** Each state follows from the one before by such a turn. */
  predicate Chain(states: seq<App>, w: WorkerId) {
    && states != []
    && forall i :: 0 <= i < |states| - 1 ==> CanTurn(states[i], w, Usual) && states[i + 1] == Turn(states[i], w, Usual)
  }

  lemma {:induction false} ChainLeads(states: seq<App>, w: WorkerId)
    requires Chain(states, w)
    ensures Leads(states[0], Turns(w, |states| - 1), states[|states| - 1])
  {
    hide Turn, CanTurn;
    if |states| > 1 {
      ChainLeads(states[1..], w);
      assert Turns(w, |states| - 1)[1..] == Turns(w, |states| - 2);
    } else {
      assert Turns(w, 0) == [];
    }
  }

  function At(a: App, w: WorkerId, pc: Pc, lock: Option<WorkerId>, proc: bool): App
    requires w in a.workers
  {
    a.(workers := a.workers[w := a.workers[w].(pc := pc)], lock := lock, proc := proc)
  }

  lemma AlreadyThere(a: App, w: WorkerId)
    requires w in a.workers
    ensures At(a, w, a.workers[w].pc, a.lock, a.proc) == a
  {
    assert a.workers[w := a.workers[w].(pc := a.workers[w].pc)] == a.workers;
  }

  /** The usual turn of a worker with a valid token takes it from one place to the next. */
  predicate Goes(a: App, w: WorkerId, from: Pc, proc: bool, to: Pc, proc': bool)
    requires w in a.workers
  {
    var held := (pc: Pc) => if pc in {Ready, Passed, Over} then None else Some(w);
    var here := At(a, w, from, held(from), proc);
    CanTurn(here, w, Usual) && Turn(here, w, Usual) == At(a, w, to, held(to), proc')
  }

  lemma EntryWays(a: App, w: WorkerId, proc: bool)
    requires w in a.workers && Valid(a, a.workers[w].token)
    ensures !a.workers[w].kind.Switch? ==> Goes(a, w, Ready, proc, Entered, proc)
    ensures Goes(a, w, Passed, proc, Entered, proc)
  {
    hide EnteredTurn, Check, Leave;
  }

  lemma BodyWays(a: App, w: WorkerId, proc: bool)
    requires w in a.workers && Valid(a, a.workers[w].token)
    ensures a.workers[w].kind.Start? ==> Goes(a, w, Entered, proc, Cleared, proc)
    ensures (a.workers[w].kind.Restart? && a.desired == Manual) || (a.workers[w].kind.Switch? && a.desired != Service) ==>
              Goes(a, w, Entered, proc, Killed, false)
  {
    hide Enter, Leave, CompleteStop;
  }

  lemma LastWays(a: App, w: WorkerId, proc: bool)
    requires w in a.workers && Valid(a, a.workers[w].token)
    ensures Goes(a, w, Killed, proc, Cleared, proc) && Goes(a, w, Cleared, proc, Over, true)
  {
    hide EnteredTurn, Enter;
  }

  /** Five places one after the other. */
  lemma FourTurns(a: App, w: WorkerId, first: Pc)
    requires w in a.workers && a.workers[w].pc == first && first in {Ready, Passed} && a.lock == None
    requires Goes(a, w, first, a.proc, Entered, a.proc) && Goes(a, w, Entered, a.proc, Killed, false)
    requires Goes(a, w, Killed, false, Cleared, false) && Goes(a, w, Cleared, false, Over, true)
    ensures Leads(a, Turns(w, 4), At(a, w, Over, None, true))
  {
    hide Turn, CanTurn, At;
    AlreadyThere(a, w);
    ChainLeads([At(a, w, first, None, a.proc), At(a, w, Entered, Some(w), a.proc), At(a, w, Killed, Some(w), false),
                At(a, w, Cleared, Some(w), false), At(a, w, Over, None, true)], w);
  }

  /** A start, with a valid token and the lock free, ends with the process running. */
  lemma StartStarts(a: App, w: WorkerId)
    requires w in a.workers && a.workers[w].kind.Start? && a.workers[w].pc.Ready?
    requires Valid(a, a.workers[w].token) && a.lock == None
    ensures Leads(a, Turns(w, 3), At(a, w, Over, None, true))
  {
    hide Turn, CanTurn, At;
    AlreadyThere(a, w);
    EntryWays(a, w, a.proc);
    BodyWays(a, w, a.proc);
    LastWays(a, w, a.proc);
    ChainLeads([At(a, w, Ready, None, a.proc), At(a, w, Entered, Some(w), a.proc), At(a, w, Cleared, Some(w), a.proc),
                At(a, w, Over, None, true)], w);
  }

  /**
    A stop ends with neither the process nor a trial running, and is noted as
    completed; the process is gone too if the stop fails after ending it.
    */
  lemma StopStops(a: App, w: WorkerId, way: Way)
    requires w in a.workers && a.workers[w].kind.Stop? && a.workers[w].pc.Ready? && way != Second
    requires Valid(a, a.workers[w].token) && a.lock == None
    ensures exists b :: Leads(a, Turns(w, 1) + [Advance(w, way)], b) && !b.proc && !b.trial && b.lock == None
                        && b.desired == a.desired && (way == Usual ==> b.quiet >= a.workers[w].token)
  {
    AlreadyThere(a, w);
    var entered := At(a, w, Entered, Some(w), a.proc);
    ChainLeads([a, entered], w);
    OneAct(entered, Advance(w, way));
    LeadsOn(a, Turns(w, 1), entered, [Advance(w, way)], Turn(entered, w, way));
  }

  /**
    A start that finds the service or a foreign process is taken back: the
    service, or nothing, is what is wanted then, so that a restart by the
    watchdog does not bring this program's process up.
    */
  lemma RefusedStartsStayDown(a: App, w: WorkerId, r: WorkerId, way: Way)
    requires w in a.workers && a.workers[w].kind.Start? && a.workers[w].pc.Entered? && way != Usual
    requires Valid(a, a.workers[w].token) && a.lock == Some(w) && a.storing == None
    requires r in a.workers && a.workers[r].kind.Restart? && a.workers[r].pc.Ready? && Valid(a, a.workers[r].token)
    ensures exists b :: Leads(a, [Advance(w, way)] + Turns(r, 2), b) && b.proc == a.proc && b.lock == None
                        && b.desired == if way == Second then Stopped else Service
  {
    var refused := Turn(a, w, way);
    OneAct(a, Advance(w, way));
    var entered := Turn(refused, r, Usual);
    ChainLeads([refused, entered, Turn(entered, r, Usual)], r);
    LeadsOn(a, [Advance(w, way)], refused, Turns(r, 2), Turn(entered, r, Usual));
  }

  /** The watchdog's restart ends with the process running again, if it is the process that is wanted. */
  lemma RestartRestarts(a: App, w: WorkerId)
    requires w in a.workers && a.workers[w].kind.Restart? && a.workers[w].pc.Ready?
    requires Valid(a, a.workers[w].token) && a.lock == None && a.desired == Manual
    ensures Leads(a, Turns(w, 4), At(a, w, Over, None, true))
  {
    hide Goes;
    EntryWays(a, w, a.proc);
    BodyWays(a, w, a.proc);
    LastWays(a, w, false);
    FourTurns(a, w, Ready);
  }

  /** A switch past its look starts the process, if its token is valid, the lock is free and no service is wanted. */
  lemma SwitchStarts(a: App, w: WorkerId)
    requires w in a.workers && a.workers[w].kind.Switch? && a.workers[w].pc.Passed?
    requires Valid(a, a.workers[w].token) && a.lock == None && a.desired != Service
    ensures Leads(a, Turns(w, 4), At(a, w, Over, None, true))
  {
    hide Goes;
    EntryWays(a, w, a.proc);
    BodyWays(a, w, a.proc);
    LastWays(a, w, false);
    FourTurns(a, w, Passed);
  }

  /** A search stops the process it finds, and starts it again when it is done; what it did not find it does not start. */
  lemma SearchRestores(a: App, w: WorkerId)
    requires w in a.workers && a.workers[w].kind.Auto? && a.workers[w].pc.Ready?
    requires Valid(a, a.workers[w].token) && a.lock == None
    ensures exists during, b ::
              && Leads(a, Turns(w, 2), during) && !during.proc && during.lock == Some(w)
              && Leads(during, Turns(w, if a.proc then 3 else 2), b) && b.proc == a.proc && !b.trial && b.lock == None
  {
    AlreadyThere(a, w);
    var entered := At(a, w, Entered, Some(w), a.proc);
    var searching := Turn(entered, w, Usual);
    ChainLeads([a, entered, searching], w);
    SearchEnds(searching, w);
  }

  lemma SearchEnds(a: App, w: WorkerId)
    requires w in a.workers && a.workers[w].kind.Auto? && a.workers[w].pc.Searching? && a.lock == Some(w) && !a.proc
    requires Valid(a, a.workers[w].token)
    ensures exists b :: Leads(a, Turns(w, if a.workers[w].own then 3 else 2), b)
                        && b.proc == a.workers[w].own && !b.trial && b.lock == None
  {
    var finishing := Turn(a, w, Usual);
    var last := Turn(finishing, w, Usual);
    if a.workers[w].own {
      ChainLeads([a, finishing, last, Turn(last, w, Usual)], w);
    } else {
      ChainLeads([a, finishing, last], w);
    }
  }

  /** A worker whose token is over, and who is not inside yet, changes nothing any more. */
  lemma OutdatedWorkersDoNothing(a: App, w: WorkerId, way: Way)
    requires CanTurn(a, w, way) && PlaceOk(a.workers[w]) && !Valid(a, a.workers[w].token)
    requires a.workers[w].pc.Ready? || a.workers[w].pc.Passed?
    ensures w in Turn(a, w, way).workers
    ensures Turn(a, w, way) == a.(workers := a.workers[w := Turn(a, w, way).workers[w]])
    ensures a.workers[w].pc.Passed? || !a.workers[w].kind.Switch? ==> Turn(a, w, way).workers[w].pc.Over?
  {
    hide EnteredTurn, Check, Leave;
  }

  lemma LiveEarlyIsNotFinal(a: App, s: Token)
    requires Inv(a) && StopInForce(a, s) && a.lock == None && LiveEarly(a, s)
    ensures !Final(a)
  {
    hide Leads;
    var w :| w in a.workers && a.workers[w] == Worker(Switch, s, Passed, a.workers[w].own, true);
    SwitchStarts(a, w);
    assert At(a, w, Over, None, true).proc;
  }

  lemma CompletionFreesLock(a: App, act: Act, s: Token)
    requires Inv(a) && Enabled(a, act) && Completes(a, act, s) && s > a.lastGo
    ensures Step(a, act).lock == None && StopInForce(Step(a, act), s)
  {
    assert WorkerTokenOk(a, a.workers[act.w]);
  }

  /**
    When a stop is final. Take any run and the step that completes the body of
    a stop that no other state has been requested after. From there on, until
    another state is requested, this program's process stays away and stopped
    stays wanted, whatever all workers do, if and only if the completed stop
    leaves no live early switch.
    */
  lemma StopIsFinal(states: seq<App>, acts: seq<Act>, j: nat, token: Token)
    requires IsRun(states, acts) && j < |acts|
    requires Completes(states[j], acts[j], token) && token > states[j].lastGo
    ensures Final(states[j + 1]) <==> !LiveEarly(states[j + 1], token)
  {
    hide Inv, Ended, Leads, LiveEarly, Step, Enabled, IsRun, Completes, StopInForce;
    AStep(states, acts, j);
    RunsKeep(states, acts, j);
    StepKeeps(states[j], acts[j]);
    var a := states[j + 1];
    if LiveEarly(a, token) {
      CompletionFreesLock(states[j], acts[j], token);
      LiveEarlyIsNotFinal(a, token);
    } else {
      CompletionEnds(states[j], acts[j], token);
      forall more, b | Leads(a, more, b) ensures !b.proc && b.desired == Stopped {
        EndedLeads(a, more, b, token);
        EndedMeansStopped(b, token);
      }
    }
  }

  // ------------------------------------------------------------ it can happen

  const PASSED := Worker(Switch, 1, Passed, false, true)

  /** In the middle of storing a stop, a switch has looked at `desired`. */
  const LOOKED := App(1, Some(Some(Stopped)), Manual, false, None, false, false, map[7 := PASSED], map[], 0, 0)

  /** The stop has completed. */
  const STOPPED := App(1, None, Stopped, false, None, false, false,
                       map[7 := PASSED, 8 := Worker(Stop, 1, Over, false, false)], map[1 := Some(Stopped)], 0, 1)

  lemma SwitchLooks()
    ensures Leads(Begin(Manual), [BeginRequest(Some(Stopped), None), Launch(7, Switch, 1), Advance(7, Usual)], LOOKED)
  {
    var a := Begin(Manual);
    var b := Step(a, BeginRequest(Some(Stopped), None));
    var c := Step(b, Launch(7, Switch, 1));
    assert Step(c, Advance(7, Usual)) == LOOKED;
    OneAct(c, Advance(7, Usual));
    OneAct(b, Launch(7, Switch, 1));
    LeadsOn(b, [Launch(7, Switch, 1)], c, [Advance(7, Usual)], LOOKED);
    OneAct(a, BeginRequest(Some(Stopped), None));
    LeadsOn(a, [BeginRequest(Some(Stopped), None)], b, [Launch(7, Switch, 1)] + [Advance(7, Usual)], LOOKED);
    assert [BeginRequest(Some(Stopped), None)] + ([Launch(7, Switch, 1)] + [Advance(7, Usual)])
        == [BeginRequest(Some(Stopped), None), Launch(7, Switch, 1), Advance(7, Usual)];
  }

  lemma StopCompletes()
    ensures Leads(LOOKED, [EndRequest, Launch(8, Stop, 1)] + [Advance(8, Usual), Advance(8, Usual)], STOPPED)
  {
    var b := Step(LOOKED, EndRequest);
    var c := Step(b, Launch(8, Stop, 1));
    var d := Step(c, Advance(8, Usual));
    assert d.workers[8] == Worker(Stop, 1, Entered, false, false);
    assert Step(d, Advance(8, Usual)) == STOPPED;
    OneAct(c, Advance(8, Usual));
    OneAct(d, Advance(8, Usual));
    LeadsOn(c, [Advance(8, Usual)], d, [Advance(8, Usual)], STOPPED);
    assert [Advance(8, Usual)] + [Advance(8, Usual)] == [Advance(8, Usual), Advance(8, Usual)];
    OneAct(LOOKED, EndRequest);
    OneAct(b, Launch(8, Stop, 1));
    LeadsOn(LOOKED, [EndRequest], b, [Launch(8, Stop, 1)], c);
    assert [EndRequest] + [Launch(8, Stop, 1)] == [EndRequest, Launch(8, Stop, 1)];
    LeadsOn(LOOKED, [EndRequest, Launch(8, Stop, 1)], c, [Advance(8, Usual), Advance(8, Usual)], STOPPED);
  }

  /**
    A stop that is not final. A switch takes the new token and passes its look
    at `desired` after a request to stop has stored its token and before it
    stores its state; the stop then completes, and the switch starts the process.
    */
  lemma EarlySwitchOutlivesStop()
    ensures exists acts, a, more, b ::
              && Leads(Begin(Manual), acts, a) && a.quiet == 1 && LiveEarly(a, 1)
              && Leads(a, more, b) && b.proc && b.desired == Stopped && b.current == 1
  {
    SwitchLooks();
    StopCompletes();
    assert STOPPED.workers[7] == PASSED;
    SwitchStarts(STOPPED, 7);
    hide Leads;
    var x := [BeginRequest(Some(Stopped), None), Launch(7, Switch, 1), Advance(7, Usual)];
    var y := [EndRequest, Launch(8, Stop, 1)] + [Advance(8, Usual), Advance(8, Usual)];
    LeadsOn(Begin(Manual), x, LOOKED, y, STOPPED);
    assert LiveEarly(STOPPED, 1);
    assert At(STOPPED, 7, Over, None, true).proc;
  }
}
