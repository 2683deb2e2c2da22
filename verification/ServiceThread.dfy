/**
 The start and stop of the websocket service thread, as a transition system over any number of threads.

 A thread is either external (its loop is `Outside`) or a service thread running the service loop; both
 may be inside a call of start_websocket_service, stop_websocket_service or set_websocket_busy_poll. A
 service thread makes such calls only from a handler, that is while it is inside run() or poll(). Every
 step is one atomic access of the shared state.
 */
module ServiceThread {
  import opened Wrappers

  datatype Service = Stopped | Starting | Running | StopRequested | Stopping

  /** Where a service thread is in its loop. */
  datatype LoopPc =
    | Outside      // not a service thread
    | Begin        // before the first restart()
    | CheckRun     // before the load of run_
    | CheckPoll    // run_ was true; before the load of busy_poll_
    | InRun        // inside run(), blocked or running a handler
    | InPoll       // inside poll()
    | PolledNone   // poll() returned 0; before stopped()
    | Restart      // before restart()
    | Exiting      // run_ was false; before the last stop()
    | Finished

  /** Where a thread is inside a call. `seen` is the local copy of the service state. */
  datatype CallPc =
    | NoCall
    | StartHave(seen: Service)
    | StartJoin               // owns stopping: before the join of the thread to be replaced
    | StartClaim              // joined; before the store of starting
    | StartRun                // owns starting: before run_ = true
    | StartSpawn              // before the new thread exists
    | StartAssign(made: nat)  // the thread exists; before the move assignment to service_thread_
    | StartDone               // before the store of running
    | StopHave(seen: Service)
    | StopRun                 // owns stopping: before the exchange of run_
    | StopIoc                 // its exchange won; before ioc_.stop()
    | StopJoin                // before the join
    | StopDone                // joined; before the store of stopped
    | AskRun                  // on the service thread: before the exchange of run_
    | AskIoc                  // its exchange won; before ioc_.stop()
    | PollIoc                 // switched busy polling on; before ioc_.stop()

  /** `existed` is how many threads there were when the current stop call began. */
  datatype Thread = Thread(loop: LoopPc, call: CallPc, existed: nat)

  /** `handle` is the thread service_thread_ would join; `owner` records who won the last CAS into
      starting or stopping. */
  datatype State = State(
    threads: seq<Thread>,
    service: Service,
    handle: Option<nat>,
    run: bool,
    iocStopped: bool,
    busy: bool,
    owner: Option<nat>
  )

  datatype Step =
    | BeginStart(t: nat)
    | BeginStop(t: nat)
    | BusyOff(t: nat)
    | BusyOn(t: nat)
    | Call(t: nat, spurious: bool)   // the next step of the call thread t is in; a weak CAS may fail spuriously
    | Loop(t: nat)                   // the next step of the loop of thread t outside run() and poll()
    | RunReturns(t: nat)
    | PollReturns(t: nat, none: bool)
    | HandlerThrows(t: nat)

  ghost predicate Init(s: State) {
    && (forall t :: 0 <= t < |s.threads| ==> s.threads[t] == Thread(Outside, NoCall, 0))
    && s == State(s.threads, Stopped, None, false, false, s.busy, None)
  }

  predicate OnService(th: Thread) { !th.loop.Outside? }

  predicate Live(th: Thread) { !th.loop.Outside? && !th.loop.Finished? }

  /** The thread may run user code: it is external, or inside a handler. */
  predicate MayCall(s: State, t: nat) {
    && t < |s.threads|
    && s.threads[t].call.NoCall?
    && (s.threads[t].loop.Outside? || s.threads[t].loop.InRun? || s.threads[t].loop.InPoll?)
  }

  /** A join waits for the thread to finish; a thread object that is not joinable is left alone. */
  predicate JoinReady(s: State) {
    s.handle.Some? ==> s.handle.value < |s.threads| && s.threads[s.handle.value].loop.Finished?
  }

  predicate Enabled(s: State, a: Step) {
    match a
    case BeginStart(t) => MayCall(s, t)
    case BeginStop(t) => MayCall(s, t)
    case BusyOff(t) => MayCall(s, t)
    case BusyOn(t) => MayCall(s, t)
    case Call(t, _) =>
      && t < |s.threads| && !s.threads[t].call.NoCall?
      && (s.threads[t].call.StartJoin? || s.threads[t].call.StopJoin? ==> JoinReady(s))
    case Loop(t) =>
      && t < |s.threads| && s.threads[t].call.NoCall? && Live(s.threads[t])
      && !s.threads[t].loop.InRun? && !s.threads[t].loop.InPoll?
    case RunReturns(t) => t < |s.threads| && s.threads[t].call.NoCall? && s.threads[t].loop.InRun? && s.iocStopped
    case PollReturns(t, _) => t < |s.threads| && s.threads[t].call.NoCall? && s.threads[t].loop.InPoll?
    case HandlerThrows(t) =>
      t < |s.threads| && s.threads[t].call.NoCall? && (s.threads[t].loop.InRun? || s.threads[t].loop.InPoll?)
  }

  function At(s: State, t: nat, call: CallPc): State
    requires t < |s.threads|
  {
    s.(threads := s.threads[t := s.threads[t].(call := call)])
  }

  function LoopAt(s: State, t: nat, loop: LoopPc): State
    requires t < |s.threads|
  {
    s.(threads := s.threads[t := s.threads[t].(loop := loop)])
  }

  /** One turn of the loop of start_websocket_service. */
  function StartTurn(s: State, t: nat, seen: Service, spurious: bool): State
    requires t < |s.threads|
  {
    if seen.Running? || seen.Starting? || OnService(s.threads[t]) then At(s, t, NoCall)
    else if seen.Stopping? || s.service != seen || spurious then At(s, t, StartHave(s.service))
    else if seen.Stopped? then At(s, t, StartRun).(service := Starting, owner := Some(t))
    else At(s, t, StartJoin).(service := Stopping, owner := Some(t))
  }

  /** One turn of the loop of stop_websocket_service. */
  function StopTurn(s: State, t: nat, seen: Service, spurious: bool): State
    requires t < |s.threads|
  {
    if seen.Stopped? then At(s, t, NoCall)
    else if seen.Starting? then At(s, t, StopHave(s.service))
    else if OnService(s.threads[t]) then
      if !seen.Running? then At(s, t, AskRun)
      else if s.service != seen || spurious then At(s, t, StopHave(s.service))
      else At(s, t, AskRun).(service := StopRequested)
    else if seen.Stopping? || s.service != seen || spurious then At(s, t, StopHave(s.service))
    else At(s, t, StopRun).(service := Stopping, owner := Some(t))
  }

  function CallStep(s: State, t: nat, spurious: bool): State
    requires Enabled(s, Call(t, spurious))
  {
    match s.threads[t].call
    case NoCall => s
    case StartHave(seen) => StartTurn(s, t, seen, spurious)
    case StartJoin => At(s, t, StartClaim).(handle := None)
    case StartClaim => At(s, t, StartRun).(service := Starting)
    case StartRun => At(s, t, StartSpawn).(run := true)
    case StartSpawn =>
      var s' := At(s, t, StartAssign(|s.threads|));
      s'.(threads := s'.threads + [Thread(Begin, NoCall, 0)])
    case StartAssign(made) => At(s, t, StartDone).(handle := Some(made))
    case StartDone => At(s, t, NoCall).(service := Running, owner := None)
    case StopHave(seen) => StopTurn(s, t, seen, spurious)
    case StopRun => At(s, t, if s.run then StopIoc else StopJoin).(run := false)
    case StopIoc => At(s, t, StopJoin).(iocStopped := true)
    case StopJoin => At(s, t, StopDone).(handle := None)
    case StopDone => At(s, t, NoCall).(service := Stopped, owner := None)
    case AskRun => At(s, t, if s.run then AskIoc else NoCall).(run := false)
    case AskIoc => At(s, t, NoCall).(iocStopped := true)
    case PollIoc => At(s, t, NoCall).(iocStopped := true)
  }

  function LoopStep(s: State, t: nat): State
    requires Enabled(s, Loop(t))
  {
    match s.threads[t].loop
    case Begin => LoopAt(s, t, CheckRun).(iocStopped := false)
    case CheckRun => LoopAt(s, t, if s.run then CheckPoll else Exiting)
    case CheckPoll => LoopAt(s, t, if s.busy then InPoll else InRun)
    case PolledNone => LoopAt(s, t, if s.iocStopped then Restart else CheckRun)
    case Restart => LoopAt(s, t, CheckRun).(iocStopped := false)
    case _ => LoopAt(s, t, Finished).(iocStopped := true)
  }

  function Apply(s: State, a: Step): State
    requires Enabled(s, a)
  {
    match a
    case BeginStart(t) => At(s, t, StartHave(s.service))
    case BeginStop(t) =>
      s.(threads := s.threads[t := s.threads[t].(call := StopHave(s.service), existed := |s.threads|)])
    case BusyOff(t) => s.(busy := false)
    case BusyOn(t) => if s.busy then s else At(s, t, PollIoc).(busy := true)
    case Call(t, spurious) => CallStep(s, t, spurious)
    case Loop(t) => LoopStep(s, t)
    case RunReturns(t) => LoopAt(s, t, Restart)
    case PollReturns(t, none) => LoopAt(s, t, if none then PolledNone else CheckRun)
    case HandlerThrows(t) => LoopAt(s, t, CheckRun)
  }

  function Run(s: State, sched: seq<Step>): Option<State>
    decreases |sched|
  {
    if sched == [] then Some(s)
    else if Enabled(s, sched[0]) then Run(Apply(s, sched[0]), sched[1..])
    else None
  }

  ghost predicate Reachable(s: State) {
    exists s0: State, sched: seq<Step> :: Init(s0) && Run(s0, sched) == Some(s)
  }

  // ---- what the protocol promises ----

  /** Calls that may touch service_thread_. */
  predicate Touches(c: CallPc) {
    c.StartJoin? || c.StartClaim? || c.StartRun? || c.StartSpawn? || c.StartAssign? || c.StartDone?
    || c.StopRun? || c.StopIoc? || c.StopJoin? || c.StopDone?
  }

  predicate AboutToWake(th: Thread) { th.call.PollIoc? }
}
