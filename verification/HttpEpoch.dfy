/**
 The epochs of the callback-based HTTP service, as a transition system.

 Any number of external threads start the service and shut it down; the I/O thread delivers responses and the
 callback threads run callbacks. A delivery compares the epoch of its request with the current one, and acts
 in a later step. Requests are made by anybody at any time.
 */
module HttpEpoch {
  import opened Wrappers

  datatype Service = Stopped | Starting | Running | Stopping

  /** Where a request is. */
  datatype Phase =
    | InFlight
    | Delivering      // its completion handler runs on the I/O thread
    | Queued          // its callback is queued for the callback threads
    | Taken(w: nat)   // callback thread w has it
    | Started         // the callback was started on a service thread, or posted to the caller's executor
    | Dropped

  datatype Request = Request(epoch: nat, hasExecutor: bool, phase: Phase, starts: nat)

  datatype IoPc = NoIo | IoIdle | IoCheck(r: nat) | IoAct(r: nat)

  datatype CallbackPc = CbGone | CbIdle | CbCheck(r: nat) | CbAct(r: nat)

  /** Where an external thread is inside start_service or Http::shutdown. */
  datatype CallPc =
    | NoCall
    | StartContexts         // owns starting: before the contexts are restarted
    | StartIo(threads: nat) // before the I/O thread is created
    | StartCallbacks(threads: nat) // before the next callback thread is created, or the store of running
    | StopHave(seen: Service)
    | Bump                  // owns stopping: before the epoch moves on
    | StopIo                // before the I/O context is stopped
    | StopCallbacks         // before the callback context is stopped
    | Join
    | StopDone              // every service thread has ended; before the store of stopped

  datatype State = State(
    callers: seq<CallPc>,
    service: Service,
    owner: Option<nat>,         // who won the last CAS into starting or stopping
    epoch: nat,
    ioStopped: bool,            // async_ioc_ is stopped
    callbacksStopped: bool,     // callback_ioc_ is stopped
    inlineCallbacks: bool,
    io: IoPc,
    callbacks: seq<CallbackPc>,
    requests: seq<Request>
  )

  datatype Step =
    | Start(t: nat)                       // the CAS of start_service
    | Shutdown(t: nat)                    // the load of Http::shutdown
    | Call(t: nat, threads: nat, spurious: bool)
    | NewRequest(hasExecutor: bool)
    | IoTakes(r: nat)
    | IoNext
    | IoExits
    | CallbackTakes(w: nat, r: nat)
    | CallbackNext(w: nat)
    | CallbackExits(w: nat)

  ghost predicate Init(s: State) {
    && (forall t :: 0 <= t < |s.callers| ==> s.callers[t].NoCall?)
    && s == State(s.callers, Stopped, None, 0, false, false, false, NoIo, [], [])
  }

  predicate AllGone(s: State) {
    s.io.NoIo? && forall w :: 0 <= w < |s.callbacks| ==> s.callbacks[w].CbGone?
  }

  predicate Enabled(s: State, a: Step) {
    match a
    case Start(t) => t < |s.callers| && s.callers[t].NoCall?
    case Shutdown(t) => t < |s.callers| && s.callers[t].NoCall?
    case Call(t, _, _) => t < |s.callers| && !s.callers[t].NoCall? && (s.callers[t].Join? ==> AllGone(s))
    case NewRequest(_) => true
    case IoTakes(r) => s.io.IoIdle? && !s.ioStopped && r < |s.requests| && s.requests[r].phase.InFlight?
    case IoNext => (s.io.IoCheck? || s.io.IoAct?) && s.io.r < |s.requests|
    case IoExits => s.io.IoIdle? && s.ioStopped
    case CallbackTakes(w, r) =>
      && w < |s.callbacks| && s.callbacks[w].CbIdle? && !s.callbacksStopped
      && r < |s.requests| && s.requests[r].phase.Queued?
    case CallbackNext(w) =>
      w < |s.callbacks| && (s.callbacks[w].CbCheck? || s.callbacks[w].CbAct?) && s.callbacks[w].r < |s.requests|
    case CallbackExits(w) => w < |s.callbacks| && s.callbacks[w].CbIdle? && s.callbacksStopped
  }

  function At(s: State, t: nat, c: CallPc): State
    requires t < |s.callers|
  {
    s.(callers := s.callers[t := c])
  }

  function WithRequest(s: State, r: nat, phase: Phase): State
    requires r < |s.requests|
  {
    s.(requests := s.requests[r := s.requests[r].(phase := phase)])
  }

  /** The callback of request r starts, or is posted to the caller's executor. */
  function Starts(s: State, r: nat): State
    requires r < |s.requests|
  {
    s.(requests := s.requests[r := s.requests[r].(phase := Started, starts := s.requests[r].starts + 1)])
  }

  /** One turn of the loop of Http::shutdown. */
  function StopTurn(s: State, t: nat, seen: Service, spurious: bool): State
    requires t < |s.callers|
  {
    if seen.Starting? then At(s, t, StopHave(s.service))
    else if !seen.Running? then At(s, t, NoCall)
    else if s.service != seen || spurious then At(s, t, StopHave(s.service))
    else At(s, t, Bump).(service := Stopping, owner := Some(t))
  }

  function CallStep(s: State, t: nat, threads: nat, spurious: bool): State
    requires Enabled(s, Call(t, threads, spurious))
  {
    match s.callers[t]
    case NoCall => s
    case StartContexts =>
      At(s, t, StartIo(threads)).(ioStopped := false, callbacksStopped := false, inlineCallbacks := threads == 0)
    case StartIo(n) => At(s, t, StartCallbacks(n)).(io := IoIdle)
    case StartCallbacks(n) =>
      if |s.callbacks| < n then s.(callbacks := s.callbacks + [CbIdle])
      else At(s, t, NoCall).(service := Running, owner := None)
    case StopHave(seen) => StopTurn(s, t, seen, spurious)
    case Bump => At(s, t, StopIo).(epoch := s.epoch + 1)
    case StopIo => At(s, t, StopCallbacks).(ioStopped := true)
    case StopCallbacks => At(s, t, Join).(callbacksStopped := true)
    case Join => At(s, t, StopDone)
    case StopDone => At(s, t, NoCall).(service := Stopped, owner := None, callbacks := [])
  }

  function IoStep(s: State): State
    requires Enabled(s, IoNext)
  {
    var r := s.io.r;
    match s.io
    case IoCheck(_) =>
      if s.requests[r].epoch != s.epoch then WithRequest(s, r, Dropped).(io := IoIdle) else s.(io := IoAct(r))
    case _ =>
      if s.requests[r].hasExecutor || s.inlineCallbacks then Starts(s, r).(io := IoIdle)
      else WithRequest(s, r, Queued).(io := IoIdle)
  }

  function CallbackStep(s: State, w: nat): State
    requires Enabled(s, CallbackNext(w))
  {
    var r := s.callbacks[w].r;
    match s.callbacks[w]
    case CbCheck(_) =>
      if s.requests[r].epoch != s.epoch then WithRequest(s, r, Dropped).(callbacks := s.callbacks[w := CbIdle])
      else s.(callbacks := s.callbacks[w := CbAct(r)])
    case _ => Starts(s, r).(callbacks := s.callbacks[w := CbIdle])
  }

  function Apply(s: State, a: Step): State
    requires Enabled(s, a)
  {
    match a
    case Start(t) =>
      if s.service.Stopped? then At(s, t, StartContexts).(service := Starting, owner := Some(t)) else s
    case Shutdown(t) => At(s, t, StopHave(s.service))
    case Call(t, threads, spurious) => CallStep(s, t, threads, spurious)
    case NewRequest(hasExecutor) => s.(requests := s.requests + [Request(s.epoch, hasExecutor, InFlight, 0)])
    case IoTakes(r) => WithRequest(s, r, Delivering).(io := IoCheck(r))
    case IoNext => IoStep(s)
    case IoExits => s.(io := NoIo)
    case CallbackTakes(w, r) => WithRequest(s, r, Taken(w)).(callbacks := s.callbacks[w := CbCheck(r)])
    case CallbackNext(w) => CallbackStep(s, w)
    case CallbackExits(w) => s.(callbacks := s.callbacks[w := CbGone])
  }

  function Run(s: State, sched: seq<Step>): Option<State>
    decreases |sched|
  {
    if sched == [] then Some(s)
    else if Enabled(s, sched[0]) then Run(Apply(s, sched[0]), sched[1..])
    else None
  }

  ghost predicate Reachable(s: State) {
    exists s0: State, sched: seq<Step> :: Init(s0) && Run(s0, sched) == Some(s)
  }
}
