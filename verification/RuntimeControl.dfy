/**
  Who may start and stop the bypass process: the tokens and the lock of
  zapret_runtime.py, and the workers of zapret_app.pyw that use them, as a step
  system over threads. A request stores its token and its desired state one
  after the other, and readers take no lock in between.
  */
module RuntimeControl {
  import opened Common

  type Token = nat
  type WorkerId = nat

  datatype Desired = Stopped | Manual | Service

  /** `on_start`, `on_stop`, `_watchdog_restart`, `_switch_to` and `_auto_worker`. */
  datatype Kind = Start | Stop | Restart | Switch | Auto

  /**
    Where a worker stands. From `Entered` to `Searching` it holds the lock;
    `Cleared` is between its last check and starting the process.
    */
  datatype Pc = Ready | Passed | Entered | Killed | Cleared | Searching | Finishing | Over

  /**
    `own`: a search found this program's process running. `early`: it looked at
    `desired` while its token's request was still storing it.
    */
  datatype Worker = Worker(kind: Kind, token: Token, pc: Pc, own: bool, early: bool) {
    predicate Inside() { pc.Entered? || pc.Killed? || pc.Cleared? || pc.Searching? }
  }

  /**
    The controller and the processes. `issued` records what each finished
    request asked for, `lastGo` the latest request for a state other than
    stopped, `quiet` the latest token whose stop has completed.
    */
  datatype App = App(
    current: Token, storing: Option<Option<Desired>>, desired: Desired, closed: bool,
    lock: Option<WorkerId>, proc: bool, trial: bool, workers: map<WorkerId, Worker>,
    issued: map<Token, Option<Desired>>, lastGo: Token, quiet: Token)

  /** `valid`: closing sets the current token's event, and every request that of the one before. */
  predicate Valid(a: App, token: Token) { token == a.current && !a.closed }

  /** Which of its outcomes a piece of code has: the usual one, or one of the others. */
  datatype Way = Usual | Second | Third

  datatype Act =
    | BeginRequest(desired: Option<Desired>, expected: Option<Token>)
    | EndRequest
    | Launch(w: WorkerId, kind: Kind, token: Token)
    | Advance(w: WorkerId, way: Way)
    | Close

  function SetWorker(a: App, w: WorkerId, worker: Worker): App { a.(workers := a.workers[w := worker]) }

  /** A worker leaves the lock for good. */
  function Leave(a: App, w: WorkerId, worker: Worker): App {
    SetWorker(a.(lock := None), w, worker.(pc := Over))
  }

  /** `transition`: the lock, and then the check. */
  function Enter(a: App, w: WorkerId, worker: Worker): App {
    if Valid(a, worker.token) then SetWorker(a.(lock := Some(w)), w, worker.(pc := Entered))
    else SetWorker(a, w, worker.(pc := Over))
  }

  /** `check` inside the lock, before the process is started. */
  function Check(a: App, w: WorkerId, worker: Worker): App {
    if Valid(a, worker.token) then SetWorker(a, w, worker.(pc := Cleared)) else Leave(a, w, worker)
  }

  /** The stop's body runs to its end. */
  function CompleteStop(a: App, w: WorkerId, worker: Worker): App {
    Leave(a.(proc := false, trial := false,
             quiet := if worker.token > a.quiet then worker.token else a.quiet), w, worker)
  }

  /** The part of a worker's body that follows the entry check. */
  function EnteredTurn(a: App, w: WorkerId, worker: Worker, way: Way): App {
    match worker.kind
    case Start =>
      if way != Usual then
        Leave(if Valid(a, worker.token) then a.(desired := if way == Second then Stopped else Service) else a, w, worker)
      else Check(a, w, worker)
    case Stop =>
      if way == Second then Leave(a, w, worker)
      else if way == Third then Leave(a.(proc := false, trial := false), w, worker)
      else CompleteStop(a, w, worker)
    case Restart =>
      if a.desired != Manual then Leave(a, w, worker)
      else SetWorker(a.(proc := false), w, worker.(pc := Killed))
    case Switch =>
      if a.desired == Service then Leave(a, w, worker)
      else SetWorker(a.(proc := false), w, worker.(pc := Killed))
    case Auto =>
      if way == Second then SetWorker(a.(lock := None), w, worker.(pc := Finishing, own := false))
      else if way == Third then SetWorker(a.(lock := None), w, worker.(pc := Finishing, own := a.proc))
      else SetWorker(a.(proc := false), w, worker.(pc := Searching, own := a.proc))
  }

  /** The next piece of a worker; other ways than the usual one: a foreign process was found, something failed. */
  function Turn(a: App, w: WorkerId, way: Way): App
    requires w in a.workers
  {
    var worker := a.workers[w];
    match worker.pc
    case Ready =>
      if !worker.kind.Switch? then Enter(a, w, worker)
      else if a.desired == Stopped then SetWorker(a, w, worker.(pc := Over))
      else SetWorker(a, w, worker.(pc := Passed, early := a.storing.Some? && worker.token == a.current))
    case Passed => Enter(a, w, worker)
    case Entered => EnteredTurn(a, w, worker, way)
    case Killed => Check(a, w, worker)
    case Cleared => Leave(if way != Usual then a else a.(proc := true), w, worker)
    case Searching =>
      if way != Usual then a.(trial := !a.trial) else SetWorker(a.(lock := None), w, worker.(pc := Finishing))
    case Finishing =>
      if Valid(a, worker.token) && worker.own then SetWorker(a.(lock := Some(w), trial := false), w, worker.(pc := Cleared))
      else SetWorker(a.(trial := false), w, worker.(pc := Over))
    case Over => a
  }

  /** What a worker can wait for: the lock, and for `set_desired` the state lock. */
  predicate CanTurn(a: App, w: WorkerId, way: Way) {
    w in a.workers &&
    var worker := a.workers[w];
    && !worker.pc.Over?
    && ((worker.pc.Ready? && !worker.kind.Switch?) || worker.pc.Passed? || worker.pc.Finishing? ==> a.lock == None)
    && (worker.Inside() ==> a.lock == Some(w))
    && (worker.kind.Start? && worker.pc.Entered? && way != Usual ==> a.storing == None)
  }

  /** Workers get their tokens from their request, or, watchdog and recovery, from reading the current one. */
  predicate CanLaunch(a: App, kind: Kind, token: Token) {
    match kind
    case Start => token in a.issued && a.issued[token] == Some(Manual)
    case Stop => token in a.issued && a.issued[token] == Some(Stopped)
    case Auto => token in a.issued && a.issued[token] == None
    case _ => token <= a.current
  }

  predicate Enabled(a: App, act: Act) {
    match act
    case BeginRequest(_, expected) => a.storing == None
    case EndRequest => a.storing.Some?
    case Launch(w, kind, token) => w !in a.workers && CanLaunch(a, kind, token)
    case Advance(w, way) => CanTurn(a, w, way)
    case Close => true
  }

  predicate IsGo(desired: Option<Desired>) { desired.Some? && desired.value != Stopped }

  function Step(a: App, act: Act): App
    requires Enabled(a, act)
  {
    match act
    case BeginRequest(desired, expected) =>
      if expected.Some? && expected.value != a.current then a
      else
        var token := a.current + 1;
        a.(current := token, storing := Some(desired),
           lastGo := if IsGo(desired) then token else a.lastGo)
    case EndRequest =>
      a.(storing := None, desired := if a.storing.value.Some? then a.storing.value.value else a.desired,
         issued := a.issued[a.current := a.storing.value])
    case Launch(w, kind, token) => SetWorker(a, w, Worker(kind, token, Ready, false, false))
    case Advance(w, way) => Turn(a, w, way)
    case Close => a.(closed := true)
  }

  function Begin(desired: Desired): App {
    App(0, None, desired, false, None, false, false, map[], map[], 0, 0)
  }

  ghost predicate IsRun(states: seq<App>, acts: seq<Act>) {
    && |states| == |acts| + 1
    && (exists d :: states[0] == Begin(d))
    && forall k :: 0 <= k < |acts| ==> Enabled(states[k], acts[k]) && states[k + 1] == Step(states[k], acts[k])
  }

  // ---------------------------------------------------------------- invariant

  /** Only the holder of the lock is inside, and it is there. */
  ghost predicate LockOk(a: App) {
    && (forall w :: w in a.workers && a.workers[w].Inside() ==> a.lock == Some(w))
    && (a.lock.Some? ==> a.lock.value in a.workers && a.workers[a.lock.value].Inside())
  }

  ghost predicate TokensOk(a: App) {
    && a.lastGo <= a.current && a.quiet <= a.current
    && (forall t :: t in a.issued ==> t <= a.current && (IsGo(a.issued[t]) ==> t <= a.lastGo))
    && (a.storing.Some? ==> a.current > 0 && a.current !in a.issued && (IsGo(a.storing.value) <==> a.lastGo == a.current))
    && (forall w :: w in a.workers ==> WorkerTokenOk(a, a.workers[w]))
  }

  predicate WorkerTokenOk(a: App, worker: Worker) {
    && worker.token <= a.current
    && (worker.kind.Start? || worker.kind.Stop? || worker.kind.Auto? ==> CanLaunch(a, worker.kind, worker.token))
  }

  /** A stop has been requested and nothing else since. */
  predicate StopInForce(a: App, s: Token) { s in a.issued && a.issued[s] == Some(Stopped) && s > a.lastGo }

  ghost predicate DesiredOk(a: App) { forall s :: StopInForce(a, s) ==> a.desired == Stopped }

  /** While a stop is in force, a switch gets past its look at `desired` only early. */
  predicate SwitchOk(a: App, worker: Worker, s: Token) {
    StopInForce(a, s) && worker.kind.Switch? && worker.token >= s && !(worker.early && worker.token == s) ==>
      worker.pc.Ready? || worker.pc.Over?
  }

  ghost predicate SwitchesOk(a: App) { forall w, s :: w in a.workers ==> SwitchOk(a, a.workers[w], s) }

  /** While a request is being stored, a switch with its token gets past its look at `desired` only early. */
  ghost predicate StoringOk(a: App) {
    forall w :: w in a.workers ==> (a.storing.Some? && a.workers[w].kind.Switch? && a.workers[w].token == a.current ==>
                                      a.workers[w].pc.Ready? || a.workers[w].pc.Over? || a.workers[w].early)
  }

  /** While a stop's body runs, nobody with a later token has been inside. */
  predicate Outside(worker: Worker) { worker.pc.Ready? || worker.pc.Passed? || worker.pc.Over? }

  ghost predicate StopRunning(a: App) {
    forall v, w :: v in a.workers && w in a.workers ==>
      (a.workers[v].kind.Stop? && a.workers[v].pc.Entered? && a.workers[w].token > a.workers[v].token ==> Outside(a.workers[w]))
  }

  /** Workers with a token before a completed stop's never get inside again. */
  ghost predicate QuietOk(a: App) { forall w :: w in a.workers && a.workers[w].token < a.quiet ==> !a.workers[w].Inside() }

  /** Kinds pass only through their own places. */
  predicate PlaceOk(worker: Worker) {
    (worker.early ==> worker.kind.Switch? && !worker.pc.Ready?) && (worker.pc.Ready? ==> !worker.own) &&
    match worker.pc
    case Passed => worker.kind.Switch?
    case Killed => worker.kind.Restart? || worker.kind.Switch?
    case Cleared => !worker.kind.Stop?
    case Searching => worker.kind.Auto?
    case Finishing => worker.kind.Auto?
    case _ => true
  }

  ghost predicate PlacesOk(a: App) { forall w :: w in a.workers ==> PlaceOk(a.workers[w]) }

  ghost predicate Inv(a: App) {
    && LockOk(a) && TokensOk(a) && DesiredOk(a) && SwitchesOk(a) && StoringOk(a)
    && StopRunning(a) && QuietOk(a) && PlacesOk(a)
  }

  // ------------------------------------------------------------- preservation

  /** What a turn of worker `w` may do, whatever it is doing. */
  ghost predicate Shape(a: App, a': App, w: WorkerId, worker: Worker, worker': Worker) {
    && a'.workers == a.workers[w := worker'] && worker'.kind == worker.kind && worker'.token == worker.token
    && a'.current == a.current && a'.storing == a.storing && a'.closed == a.closed
    && a'.issued == a.issued && a'.lastGo == a.lastGo
    && (a'.desired == a.desired || (worker.kind.Start? && Valid(a, worker.token) && a.storing == None))
    && (worker'.Inside() ==> a'.lock == Some(w) && (!worker.Inside() ==> a.lock == None && Valid(a, worker.token)))
    && (!worker'.Inside() ==> if worker.Inside() then a'.lock == None else a'.lock == a.lock)
    && PlaceOk(worker')
    && (a'.proc ==> a.proc || worker.pc.Cleared?)
  }

  /** The parts of a turn that one kind of worker's safety depends on. */
  ghost predicate Details(a: App, a': App, w: WorkerId, worker: Worker, worker': Worker) {
    && !worker.pc.Over? && (worker'.pc.Finishing? ==> worker.Inside())
    && (worker'.early ==> worker.early || (worker.kind.Switch? && a.storing.Some? && worker.token == a.current))
    && (worker.early ==> worker'.early)
    && (worker'.pc.Passed? ==> worker.pc.Ready? && a.desired != Stopped
                               && worker'.early == (a.storing.Some? && worker.token == a.current))
    && (worker.kind.Restart? && worker'.pc.Killed? ==> a.desired == Manual)
    && (worker.kind.Restart? && worker'.pc.Cleared? ==> worker.pc.Killed?)
    && (worker.kind.Auto? && worker'.own ==> worker.own || a.proc)
    && (worker.kind.Auto? && worker'.pc.Cleared? ==> worker.own)
    && (worker.kind.Switch? && !worker'.pc.Over? && !worker'.pc.Passed? ==> !worker.pc.Ready?)
    && (worker.kind.Stop? && worker.pc.Entered? ==> worker'.pc.Over?)
    && (worker.kind.Stop? && worker'.pc.Entered? ==> Valid(a, worker.token))
    && (a'.quiet == a.quiet
        || (worker.kind.Stop? && worker.pc.Entered? && a' == CompleteStop(a, w, worker)))
  }

  ghost predicate Fine(a: App, a': App, w: WorkerId)
    requires w in a.workers
  {
    w in a'.workers && Shape(a, a', w, a.workers[w], a'.workers[w]) && Details(a, a', w, a.workers[w], a'.workers[w])
  }

  lemma EnteredFine(a: App, w: WorkerId, way: Way)
    requires CanTurn(a, w, way) && PlaceOk(a.workers[w]) && a.workers[w].pc.Entered?
    ensures Fine(a, EnteredTurn(a, w, a.workers[w], way), w)
  {
    hide Fine;
    match a.workers[w].kind
    case Start => StartFine(a, w, way);
    case Stop => StopFine(a, w, way);
    case Restart => RestartFine(a, w, way);
    case Switch => SwitchFine(a, w, way);
    case Auto => AutoFine(a, w, way);
  }

  lemma StartFine(a: App, w: WorkerId, way: Way)
    requires CanTurn(a, w, way) && PlaceOk(a.workers[w]) && a.workers[w].pc.Entered? && a.workers[w].kind.Start?
    ensures Fine(a, EnteredTurn(a, w, a.workers[w], way), w)
  {
  }

  lemma StopFine(a: App, w: WorkerId, way: Way)
    requires CanTurn(a, w, way) && PlaceOk(a.workers[w]) && a.workers[w].pc.Entered? && a.workers[w].kind.Stop?
    ensures Fine(a, EnteredTurn(a, w, a.workers[w], way), w)
  {
  }

  lemma RestartFine(a: App, w: WorkerId, way: Way)
    requires CanTurn(a, w, way) && PlaceOk(a.workers[w]) && a.workers[w].pc.Entered? && a.workers[w].kind.Restart?
    ensures Fine(a, EnteredTurn(a, w, a.workers[w], way), w)
  {
  }

  lemma SwitchFine(a: App, w: WorkerId, way: Way)
    requires CanTurn(a, w, way) && PlaceOk(a.workers[w]) && a.workers[w].pc.Entered? && a.workers[w].kind.Switch?
    ensures Fine(a, EnteredTurn(a, w, a.workers[w], way), w)
  {
    hide CompleteStop, Valid;
  }

  lemma AutoFine(a: App, w: WorkerId, way: Way)
    requires CanTurn(a, w, way) && PlaceOk(a.workers[w]) && a.workers[w].pc.Entered? && a.workers[w].kind.Auto?
    ensures Fine(a, EnteredTurn(a, w, a.workers[w], way), w)
  {
  }

  lemma CheckFine(a: App, w: WorkerId, way: Way)
    requires CanTurn(a, w, way) && PlaceOk(a.workers[w])
    requires a.workers[w].pc.Killed? || a.workers[w].pc.Cleared? || a.workers[w].pc.Searching?
    ensures Fine(a, Turn(a, w, way), w)
  {
    hide EnteredTurn;
  }

  lemma EnterFine(a: App, w: WorkerId, way: Way)
    requires CanTurn(a, w, way) && PlaceOk(a.workers[w]) && a.workers[w].pc in {Ready, Passed}
    requires a.workers[w].pc.Passed? || !a.workers[w].kind.Switch?
    ensures Fine(a, Enter(a, w, a.workers[w]), w)
  {
  }

  lemma LookFine(a: App, w: WorkerId, way: Way)
    requires CanTurn(a, w, way) && PlaceOk(a.workers[w]) && a.workers[w].pc.Ready? && a.workers[w].kind.Switch?
    ensures Fine(a, Turn(a, w, way), w)
  {
    hide EnteredTurn, Enter;
  }

  lemma FinishFine(a: App, w: WorkerId, way: Way)
    requires CanTurn(a, w, way) && PlaceOk(a.workers[w]) && a.workers[w].pc.Finishing?
    ensures Fine(a, Turn(a, w, way), w)
  {
    hide EnteredTurn, Enter;
  }

  lemma TurnFine(a: App, w: WorkerId, way: Way)
    requires CanTurn(a, w, way) && PlaceOk(a.workers[w])
    ensures Fine(a, Turn(a, w, way), w)
  {
    hide Fine, EnteredTurn, Enter, Check;
    match a.workers[w].pc
    case Ready => if a.workers[w].kind.Switch? { LookFine(a, w, way); } else { EnterFine(a, w, way); }
    case Passed => EnterFine(a, w, way);
    case Entered => EnteredFine(a, w, way);
    case Finishing => FinishFine(a, w, way);
    case Over =>
    case _ => CheckFine(a, w, way);
  }

  lemma TurnLock(a: App, a': App, w: WorkerId)
    requires LockOk(a) && PlacesOk(a) && w in a.workers && Fine(a, a', w)
    ensures LockOk(a') && PlacesOk(a')
  {
    hide PlaceOk, Details;
  }

  lemma TurnTokens(a: App, a': App, w: WorkerId)
    requires TokensOk(a) && w in a.workers && Fine(a, a', w)
    requires a'.quiet == a.quiet || a'.quiet == a.workers[w].token
    ensures TokensOk(a')
  {
    hide PlaceOk, Details;
    assert WorkerTokenOk(a, a.workers[w]);
    forall v | v in a'.workers ensures WorkerTokenOk(a', a'.workers[v]) {
      assert WorkerTokenOk(a, a.workers[v]);
    }
  }

  lemma TurnDesired(a: App, a': App, w: WorkerId)
    requires TokensOk(a) && DesiredOk(a) && w in a.workers && Fine(a, a', w)
    ensures DesiredOk(a')
  {
    hide PlaceOk, Details;
    assert WorkerTokenOk(a, a.workers[w]);
    forall s | StopInForce(a', s) ensures a'.desired == Stopped {
      assert StopInForce(a, s);
    }
  }

  lemma TurnSwitches(a: App, a': App, w: WorkerId)
    requires TokensOk(a) && DesiredOk(a) && SwitchesOk(a) && w in a.workers && Fine(a, a', w)
    ensures SwitchesOk(a')
  {
    hide PlaceOk;
    assert WorkerTokenOk(a, a.workers[w]);
    forall v, s | v in a'.workers ensures SwitchOk(a', a'.workers[v], s) {
      assert SwitchOk(a, a.workers[v], s);
      assert StopInForce(a', s) == StopInForce(a, s);
    }
  }

  lemma TurnStopRunning(a: App, a': App, w: WorkerId)
    requires LockOk(a) && TokensOk(a) && StopRunning(a) && w in a.workers && Fine(a, a', w)
    ensures StopRunning(a')
  {
    hide PlaceOk;
    forall v, u | v in a'.workers && u in a'.workers && a'.workers[v].kind.Stop? && a'.workers[v].pc.Entered?
                  && a'.workers[u].token > a'.workers[v].token
      ensures Outside(a'.workers[u])
    {
      assert WorkerTokenOk(a, a.workers[u]);
      assert a.workers[v].Inside() ==> a.lock == Some(v);
    }
  }

  lemma TurnQuiet(a: App, a': App, w: WorkerId)
    requires LockOk(a) && TokensOk(a) && QuietOk(a) && w in a.workers && Fine(a, a', w)
    ensures QuietOk(a')
    ensures a'.quiet == a.quiet || a'.quiet == a.workers[w].token
  {
    hide PlaceOk;
    forall v | v in a'.workers && a'.workers[v].token < a'.quiet ensures !a'.workers[v].Inside() {
      assert WorkerTokenOk(a, a.workers[v]);
      assert a.workers[v].Inside() ==> a.lock == Some(v);
      assert a.workers[w].Inside() ==> a.lock == Some(w);
    }
  }

  lemma TurnStoring(a: App, a': App, w: WorkerId)
    requires StoringOk(a) && w in a.workers && Fine(a, a', w)
    ensures StoringOk(a')
  {
    hide PlaceOk;
    assert forall v :: v in a.workers && v != w ==> a'.workers[v] == a.workers[v];
  }

  lemma TurnKeeps(a: App, w: WorkerId, way: Way)
    requires Inv(a) && CanTurn(a, w, way)
    ensures Inv(Turn(a, w, way))
  {
    hide Turn, Fine, LockOk, TokensOk, DesiredOk, SwitchesOk, StoringOk, StopRunning, QuietOk;
    assert PlaceOk(a.workers[w]);
    TurnFine(a, w, way);
    var a' := Turn(a, w, way);
    TurnQuiet(a, a', w);
    TurnLock(a, a', w);
    TurnTokens(a, a', w);
    TurnDesired(a, a', w);
    TurnSwitches(a, a', w);
    TurnStoring(a, a', w);
    TurnStopRunning(a, a', w);
  }

  /** A request's first half: the new token, above all tokens handed out so far. */
  lemma BeginRequestKeeps(a: App, desired: Option<Desired>, expected: Option<Token>)
    requires Inv(a) && Enabled(a, BeginRequest(desired, expected))
    ensures Inv(Step(a, BeginRequest(desired, expected)))
  {
    hide LockOk, StopRunning, QuietOk, PlacesOk, DesiredOk, SwitchesOk;
    var a' := Step(a, BeginRequest(desired, expected));
    if a' != a {
      forall w | w in a.workers ensures WorkerTokenOk(a', a.workers[w]) {
        assert WorkerTokenOk(a, a.workers[w]);
      }
      assert LockOk(a') && StopRunning(a') && QuietOk(a') && PlacesOk(a') by { SameWorkers(a, a'); }
      FewerStops(a, a');
    }
  }

  /** If no new stop comes into force, nothing new is demanded of switches and of the desired state. */
  lemma FewerStops(a: App, a': App)
    requires a'.workers == a.workers && a'.desired == a.desired
    requires forall s :: StopInForce(a', s) ==> StopInForce(a, s)
    requires DesiredOk(a) && SwitchesOk(a)
    ensures DesiredOk(a') && SwitchesOk(a')
  {
    forall w, s | w in a.workers ensures SwitchOk(a', a.workers[w], s) {
      assert SwitchOk(a, a.workers[w], s);
    }
  }

  /** Its second half: what it asked for is in force. */
  lemma EndRequestKeeps(a: App)
    requires Inv(a) && Enabled(a, EndRequest)
    ensures Inv(Step(a, EndRequest))
  {
    hide LockOk, StopRunning, QuietOk, PlacesOk;
    var a' := Step(a, EndRequest);
    forall w | w in a.workers ensures WorkerTokenOk(a', a.workers[w]) {
      assert WorkerTokenOk(a, a.workers[w]);
    }
    forall s | StopInForce(a', s) ensures a'.desired == Stopped && (s != a.current ==> StopInForce(a, s)) {
      assert s != a.current ==> StopInForce(a, s);
    }
    forall w, s | w in a.workers ensures SwitchOk(a', a.workers[w], s) {
      assert SwitchOk(a, a.workers[w], s) && WorkerTokenOk(a, a.workers[w]);
    }
    assert LockOk(a') && StopRunning(a') && QuietOk(a') && PlacesOk(a') by { SameWorkers(a, a'); }
  }

  lemma SameWorkers(a: App, a': App)
    requires a'.workers == a.workers && a'.lock == a.lock && a'.quiet == a.quiet
    requires LockOk(a) && StopRunning(a) && QuietOk(a) && PlacesOk(a)
    ensures LockOk(a') && StopRunning(a') && QuietOk(a') && PlacesOk(a')
  {
  }

  lemma LaunchKeeps(a: App, w: WorkerId, kind: Kind, token: Token)
    requires Inv(a) && Enabled(a, Launch(w, kind, token))
    ensures Inv(Step(a, Launch(w, kind, token)))
  {
    hide LockOk, StopRunning, QuietOk, PlacesOk, DesiredOk, SwitchesOk, StoringOk;
    var a' := Step(a, Launch(w, kind, token));
    forall v | v in a'.workers ensures WorkerTokenOk(a', a'.workers[v]) {
      assert v != w ==> WorkerTokenOk(a, a.workers[v]);
    }
    NewcomerPlaces(a, w, kind, token);
    NewcomerStops(a, w, kind, token);
  }

  lemma NewcomerPlaces(a: App, w: WorkerId, kind: Kind, token: Token)
    requires w !in a.workers
    requires LockOk(a) && StopRunning(a) && QuietOk(a) && PlacesOk(a) && StoringOk(a)
    ensures var a' := SetWorker(a, w, Worker(kind, token, Ready, false, false));
            LockOk(a') && StopRunning(a') && QuietOk(a') && PlacesOk(a') && StoringOk(a')
  {
  }

  lemma NewcomerStops(a: App, w: WorkerId, kind: Kind, token: Token)
    requires w !in a.workers && TokensOk(a) && DesiredOk(a) && SwitchesOk(a) && CanLaunch(a, kind, token)
    ensures var a' := SetWorker(a, w, Worker(kind, token, Ready, false, false));
            DesiredOk(a') && SwitchesOk(a')
  {
    var a' := SetWorker(a, w, Worker(kind, token, Ready, false, false));
    forall s | StopInForce(a', s) ensures StopInForce(a, s) {
    }
    forall v, s | v in a'.workers ensures SwitchOk(a', a'.workers[v], s) {
      assert v != w ==> SwitchOk(a, a.workers[v], s);
    }
  }

  lemma CloseKeeps(a: App)
    requires Inv(a)
    ensures Inv(Step(a, Close))
  {
    hide LockOk, StopRunning, QuietOk, PlacesOk, DesiredOk, SwitchesOk;
    var a' := Step(a, Close);
    forall w | w in a.workers ensures WorkerTokenOk(a', a.workers[w]) {
      assert WorkerTokenOk(a, a.workers[w]);
    }
    assert LockOk(a') && StopRunning(a') && QuietOk(a') && PlacesOk(a') by { SameWorkers(a, a'); }
    FewerStops(a, a');
  }

  lemma StepKeeps(a: App, act: Act)
    requires Inv(a) && Enabled(a, act)
    ensures Inv(Step(a, act))
  {
    hide Inv, Turn;
    match act
    case BeginRequest(desired, expected) => BeginRequestKeeps(a, desired, expected);
    case EndRequest => EndRequestKeeps(a);
    case Launch(w, kind, token) => LaunchKeeps(a, w, kind, token);
    case Advance(w, way) => TurnKeeps(a, w, way);
    case Close => CloseKeeps(a);
  }

  lemma {:induction false} RunsKeep(states: seq<App>, acts: seq<Act>, k: nat)
    requires IsRun(states, acts) && k < |states|
    ensures Inv(states[k])
  {
    hide Step, Enabled, Inv;
    if k == 0 {
      BeginIsOk(states[0]);
    } else {
      RunsKeep(states, acts, k - 1);
      StepKeeps(states[k - 1], acts[k - 1]);
      assert states[k - 1 + 1] == Step(states[k - 1], acts[k - 1]);
    }
  }

  lemma BeginIsOk(a: App)
    requires exists d :: a == Begin(d)
    ensures Inv(a)
  {
  }
}
