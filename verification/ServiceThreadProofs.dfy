/** What holds in every reachable state of the websocket service, for any number of threads. */
module ServiceThreadProofs {
  import opened Wrappers
  import opened Tally
  import opened ServiceThread

  /** What a thread can tell about the rest of the state. */
  datatype View = View(
    count: nat,
    service: Service,
    handle: Option<nat>,
    run: bool,
    iocStopped: bool,
    busy: bool,
    owner: Option<nat>,
    ownerCall: CallPc,   // where the owner is
    wakers: nat          // how many threads are about to stop the io_context for a busy-poll switch
  )

  function ViewOf(s: State): View {
    View(|s.threads|, s.service, s.handle, s.run, s.iocStopped, s.busy, s.owner,
         if s.owner.Some? && s.owner.value < |s.threads| then s.threads[s.owner.value].call else NoCall,
         Count(s.threads, AboutToWake))
  }

  predicate InStart(c: CallPc) { c.StartRun? || c.StartSpawn? || c.StartAssign? || c.StartDone? }

  predicate InStop(c: CallPc) {
    c.StartJoin? || c.StartClaim? || c.StopRun? || c.StopIoc? || c.StopJoin? || c.StopDone?
  }

  predicate Ending(v: Service) { v.StopRequested? || v.Stopping? }

  /** The state word, the owner and the thread object agree. */
  predicate SharedOk(v: View) {
    && (v.owner.Some? ==> v.owner.value < v.count)
    && (v.owner.Some? <==> Touches(v.ownerCall))
    && (v.service.Starting? <==> InStart(v.ownerCall))
    && (v.service.Stopping? <==> InStop(v.ownerCall))
    && (v.handle.Some? <==>
          v.service.Running? || v.service.StopRequested? || v.ownerCall.StartDone? || v.ownerCall.StartJoin?
          || v.ownerCall.StopRun? || v.ownerCall.StopIoc? || v.ownerCall.StopJoin?)
    && (v.handle.Some? ==> v.handle.value < v.count)
    && (v.ownerCall.StartAssign? ==> v.ownerCall.made < v.count)
    && (v.service.Running? || v.ownerCall.StartSpawn? || v.ownerCall.StartAssign? || v.ownerCall.StartDone? ==> v.run)
    && (v.ownerCall.StopIoc? || v.ownerCall.StopJoin? ==> !v.run)
  }

  /** The thread object is, or is about to be, thread t. */
  predicate Current(v: View, t: nat) { v.handle == Some(t) || v.ownerCall == StartAssign(t) }

  /** Calls: only the owner touches the thread object, and a service thread calls from a handler only. */
  predicate CallOk(th: Thread, t: nat, v: View) {
    && (Touches(th.call) <==> v.owner == Some(t))
    && (v.owner == Some(t) ==> th.loop.Outside? && th.call == v.ownerCall)
    && (th.call.AskRun? || th.call.AskIoc? ==> OnService(th) && Ending(v.service))
    && (th.call.AskIoc? ==> !v.run)
    && (OnService(th) && th.call.StopHave? ==> !th.call.seen.Stopped? && (Ending(th.call.seen) ==> Ending(v.service)))
    && (OnService(th) && !th.call.NoCall? ==> th.loop.InRun? || th.loop.InPoll?)
  }

  /** Service threads: one at most is alive, and one that may block in run() with run_ false is about to be woken. */
  predicate LoopOk(th: Thread, t: nat, v: View) {
    && (Live(th) ==> Current(v, t))
    && (Current(v, t) ==> OnService(th))
    && (v.handle == Some(t) && (v.service.StopRequested? || v.ownerCall.StartJoin?) && v.run ==> th.call.AskRun?)
    && ((th.loop.CheckPoll? || th.loop.InRun?) && !v.run ==>
          v.iocStopped || v.ownerCall.StopIoc? || th.call.AskIoc?)
    && (th.loop.InRun? && v.busy ==> v.iocStopped || v.wakers > 0)
    && (Current(v, t) && (th.loop.Exiting? || th.loop.Finished?) ==> !v.run)
    && (Current(v, t) && th.loop.Finished? ==> v.iocStopped)
  }

  /** A stop call that read `stopped`: every thread there was when it began has been joined. */
  predicate JoinedOk(th: Thread, v: View) {
    && th.existed <= v.count
    && (!OnService(th) && th.call == StopHave(Stopped) ==>
          && (v.handle.Some? ==> th.existed <= v.handle.value)
          && (v.ownerCall.StartAssign? ==> th.existed <= v.ownerCall.made))
  }

  predicate ThreadOk(th: Thread, t: nat, v: View) { CallOk(th, t, v) && LoopOk(th, t, v) && JoinedOk(th, v) }

  ghost predicate Inv(s: State) {
    && SharedOk(ViewOf(s))
    && forall t :: 0 <= t < |s.threads| ==> ThreadOk(s.threads[t], t, ViewOf(s))
  }

  lemma InitInv(s: State)
    requires Init(s)
    ensures Inv(s)
  {
  }

  /** A step that changes one thread and nothing another thread can see. */
  lemma LocalStep(s: State, t: nat, th: Thread)
    requires Inv(s) && t < |s.threads| && !Touches(s.threads[t].call)
    requires ThreadOk(th, t, ViewOf(s)) && AboutToWake(th) == AboutToWake(s.threads[t])
    ensures Inv(s.(threads := s.threads[t := th]))
  {
    var s' := s.(threads := s.threads[t := th]);
    CountUpdate(s.threads, t, th, AboutToWake);
    assert ThreadOk(s.threads[t], t, ViewOf(s));
    assert ViewOf(s') == ViewOf(s);
  }

  lemma BeginKeepsInv(s: State, a: Step)
    requires Inv(s) && Enabled(s, a) && (a.BeginStart? || a.BeginStop?)
    ensures Inv(Apply(s, a))
  {
    assert ThreadOk(s.threads[a.t], a.t, ViewOf(s));
    LocalStep(s, a.t, Apply(s, a).threads[a.t]);
  }

  lemma LocalLoopKeepsInv(s: State, a: Step)
    requires Inv(s) && Enabled(s, a)
    requires a.RunReturns? || a.PollReturns? || a.HandlerThrows?
             || (a.Loop? && (s.threads[a.t].loop.CheckRun? || s.threads[a.t].loop.CheckPoll?
                             || s.threads[a.t].loop.PolledNone?))
    ensures Inv(Apply(s, a))
  {
    assert ThreadOk(s.threads[a.t], a.t, ViewOf(s));
    LocalStep(s, a.t, Apply(s, a).threads[a.t]);
  }

  /** Leaving a call, and reading the state again, keep a thread in order. */
  lemma ReloadOk(th: Thread, t: nat, v: View)
    requires SharedOk(v) && ThreadOk(th, t, v) && (th.call.StartHave? || th.call.StopHave?)
    ensures ThreadOk(th.(call := NoCall), t, v)
    ensures ThreadOk(th.(call := StartHave(v.service)), t, v)
    ensures ThreadOk(th.(call := StopHave(v.service)), t, v)
    ensures OnService(th) && th.call.StopHave? && Ending(th.call.seen) ==> ThreadOk(th.(call := AskRun), t, v)
  {
  }

  lemma StartTurnKeepsInv(s: State, t: nat, spurious: bool)
    requires Inv(s) && Enabled(s, Call(t, spurious)) && s.threads[t].call.StartHave?
    ensures Inv(Apply(s, Call(t, spurious)))
  {
    var th := s.threads[t];
    ReloadOk(th, t, ViewOf(s));
    var seen := th.call.seen;
    if seen.Running? || seen.Starting? || OnService(th) {
      LocalStep(s, t, th.(call := NoCall));
    } else if seen.Stopping? || s.service != seen || spurious {
      LocalStep(s, t, th.(call := StartHave(s.service)));
    } else {
      StartCasKeepsInv(s, t);
    }
  }

  lemma StopTurnKeepsInv(s: State, t: nat, spurious: bool)
    requires Inv(s) && Enabled(s, Call(t, spurious)) && s.threads[t].call.StopHave?
    ensures Inv(Apply(s, Call(t, spurious)))
  {
    var th := s.threads[t];
    ReloadOk(th, t, ViewOf(s));
    var seen := th.call.seen;
    if !OnService(th) && s.service == seen && !spurious && (seen.Running? || seen.StopRequested?) {
      StopCasKeepsInv(s, t);
    } else if OnService(th) && s.service == seen && !spurious && seen.Running? {
      AskCasKeepsInv(s, t);
    } else {
      LocalStep(s, t, th.(call := if seen.Stopped? then NoCall
                                  else if OnService(th) && Ending(seen) then AskRun
                                  else StopHave(s.service)));
    }
  }

  /** How a step of thread t may change what the other threads see. */
  predicate Moves(v: View, v': View, t: nat) {
    || (v.service.Stopped? && v' == v.(service := Starting, owner := Some(t), ownerCall := StartRun))
    || (v.service.StopRequested? && v' == v.(service := Stopping, owner := Some(t), ownerCall := StartJoin))
    || ((v.service.Running? || v.service.StopRequested?)
        && v' == v.(service := Stopping, owner := Some(t), ownerCall := StopRun))
    || (v.service.Running? && Current(v, t) && v' == v.(service := StopRequested))
    || (v.owner == Some(t) && OwnerMoves(v, v'))
    || (v' == v.(busy := true, wakers := v.wakers + 1))
    || (v' == v.(iocStopped := true, wakers := v'.wakers))
    || (Current(v, t) && (v' == v.(run := false) || v' == v.(iocStopped := false)))
  }

  predicate OwnerMoves(v: View, v': View) {
    match v.ownerCall
    case StartJoin => v' == v.(handle := None, ownerCall := StartClaim)
    case StartClaim => v' == v.(service := Starting, ownerCall := StartRun)
    case StartRun => v' == v.(run := true, ownerCall := StartSpawn)
    case StartSpawn => v' == v.(count := v.count + 1, ownerCall := StartAssign(v.count))
    case StartAssign(made) => v' == v.(handle := Some(made), ownerCall := StartDone)
    case StartDone => v' == v.(service := Running, owner := None, ownerCall := NoCall)
    case StopRun => v' == v.(run := false, ownerCall := if v.run then StopIoc else StopJoin)
    case StopIoc => v' == v.(iocStopped := true, ownerCall := StopJoin)
    case StopJoin => v' == v.(handle := None, ownerCall := StopDone)
    case StopDone => v' == v.(service := Stopped, owner := None, ownerCall := NoCall)
    case _ => false
  }

  lemma OwnerKeepsOther(th: Thread, u: nat, t: nat, v: View, v': View)
    requires SharedOk(v) && ThreadOk(th, u, v) && u != t && u < v.count && v.owner == Some(t) && OwnerMoves(v, v')
    requires v.handle == Some(u) && v'.handle.None? ==> !Live(th)
    ensures ThreadOk(th, u, v')
  {
  }

  /** A thread that does not move stays in order; a thread that is let go of by a join is over. */
  lemma OtherKeepsOk(th: Thread, u: nat, t: nat, v: View, v': View)
    requires SharedOk(v) && ThreadOk(th, u, v) && u != t && u < v.count && Moves(v, v', t)
    requires v.handle == Some(u) && v'.handle.None? ==> !Live(th)
    ensures ThreadOk(th, u, v')
  {
    if v.owner == Some(t) && OwnerMoves(v, v') {
      OwnerKeepsOther(th, u, t, v, v');
    }
  }

  lemma Assemble(s: State, s': State, t: nat)
    requires Inv(s) && t < |s.threads| && |s.threads| <= |s'.threads| <= |s.threads| + 1
    requires forall u :: 0 <= u < |s.threads| && u != t ==> s'.threads[u] == s.threads[u]
    requires Moves(ViewOf(s), ViewOf(s'), t) && SharedOk(ViewOf(s')) && ThreadOk(s'.threads[t], t, ViewOf(s'))
    requires |s'.threads| > |s.threads| ==> ThreadOk(s'.threads[|s.threads|], |s.threads|, ViewOf(s'))
    requires s.handle.Some? && s'.handle.None? ==>
               s.handle.value < |s.threads| && !Live(s.threads[s.handle.value])
    ensures Inv(s')
  {
    var v, v' := ViewOf(s), ViewOf(s');
    forall u | 0 <= u < |s'.threads| ensures ThreadOk(s'.threads[u], u, v') {
      if u != t && u < |s.threads| {
        OtherKeepsOk(s.threads[u], u, t, v, v');
      }
    }
  }

  lemma StartCasKeepsInv(s: State, t: nat)
    requires Inv(s) && Enabled(s, Call(t, false)) && !OnService(s.threads[t])
    requires s.threads[t].call == StartHave(s.service) && (s.service.Stopped? || s.service.StopRequested?)
    ensures Inv(Apply(s, Call(t, false)))
  {
    var s' := Apply(s, Call(t, false));
    CountUpdate(s.threads, t, s'.threads[t], AboutToWake);
    assert ThreadOk(s.threads[t], t, ViewOf(s));
    Assemble(s, s', t);
  }

  lemma StopCasKeepsInv(s: State, t: nat)
    requires Inv(s) && Enabled(s, Call(t, false)) && !OnService(s.threads[t])
    requires s.threads[t].call == StopHave(s.service) && (s.service.Running? || s.service.StopRequested?)
    ensures Inv(Apply(s, Call(t, false)))
  {
    var s' := Apply(s, Call(t, false));
    CountUpdate(s.threads, t, s'.threads[t], AboutToWake);
    assert ThreadOk(s.threads[t], t, ViewOf(s));
    Assemble(s, s', t);
  }

  lemma AskCasKeepsInv(s: State, t: nat)
    requires Inv(s) && Enabled(s, Call(t, false)) && OnService(s.threads[t])
    requires s.threads[t].call == StopHave(Running) && s.service.Running?
    ensures Inv(Apply(s, Call(t, false)))
  {
    var s' := Apply(s, Call(t, false));
    CountUpdate(s.threads, t, s'.threads[t], AboutToWake);
    assert ThreadOk(s.threads[t], t, ViewOf(s));
    Assemble(s, s', t);
  }

  /** The owner itself stays in order. */
  lemma OwnerOk(th: Thread, t: nat, v: View, v': View)
    requires SharedOk(v) && ThreadOk(th, t, v) && v.owner == Some(t) && OwnerMoves(v, v') && !v.ownerCall.StartSpawn?
    ensures SharedOk(v') && ThreadOk(th.(call := v'.ownerCall), t, v')
  {
  }

  ghost predicate OwnerStep(s: State, t: nat, s': State)
    requires t < |s.threads|
  {
    && OwnerMoves(ViewOf(s), ViewOf(s'))
    && s'.threads == s.threads[t := s.threads[t].(call := ViewOf(s').ownerCall)]
    && (s'.handle.None? ==> s.handle.None? || Joining(s.threads[t].call))
  }

  predicate Joining(c: CallPc) { c.StartJoin? || c.StopJoin? }

  lemma StartOwnerSteps(s: State, t: nat, spurious: bool)
    requires Enabled(s, Call(t, spurious)) && s.owner == Some(t) && !s.threads[t].call.StartSpawn?
    requires InStart(s.threads[t].call) || s.threads[t].call.StartJoin? || s.threads[t].call.StartClaim?
    ensures OwnerStep(s, t, CallStep(s, t, spurious))
  {
    CountUpdate(s.threads, t, CallStep(s, t, spurious).threads[t], AboutToWake);
  }

  lemma StopOwnerSteps(s: State, t: nat, spurious: bool)
    requires Enabled(s, Call(t, spurious)) && s.owner == Some(t)
    requires s.threads[t].call.StopRun? || s.threads[t].call.StopIoc? || s.threads[t].call.StopJoin?
             || s.threads[t].call.StopDone?
    ensures OwnerStep(s, t, CallStep(s, t, spurious))
  {
    CountUpdate(s.threads, t, CallStep(s, t, spurious).threads[t], AboutToWake);
  }

  lemma OwnerKeepsInv(s: State, t: nat, spurious: bool)
    requires Inv(s) && Enabled(s, Call(t, spurious)) && Touches(s.threads[t].call) && !s.threads[t].call.StartSpawn?
    ensures Inv(CallStep(s, t, spurious))
  {
    var s', v := CallStep(s, t, spurious), ViewOf(s);
    assert ThreadOk(s.threads[t], t, v);
    if InStart(s.threads[t].call) || s.threads[t].call.StartJoin? || s.threads[t].call.StartClaim? {
      StartOwnerSteps(s, t, spurious);
    } else {
      StopOwnerSteps(s, t, spurious);
    }
    OwnerOk(s.threads[t], t, v, ViewOf(s'));
    Assemble(s, s', t);
  }

  /** The spawned state, seen through its view. */
  lemma SpawnView(s: State, t: nat)
    requires t < |s.threads| && s.owner == Some(t) && s.threads[t].call.StartSpawn?
    ensures ViewOf(CallStep(s, t, false)) == ViewOf(s).(count := |s.threads| + 1, ownerCall := StartAssign(|s.threads|))
  {
    var x, y := s.threads[t].(call := StartAssign(|s.threads|)), Thread(Begin, NoCall, 0);
    CountUpdateAppend(s.threads, t, x, y, AboutToWake);
    assert CallStep(s, t, false).threads == s.threads[t := x] + [y];
  }

  lemma SpawnOk(th: Thread, t: nat, v: View)
    requires SharedOk(v) && ThreadOk(th, t, v) && th.call.StartSpawn?
    ensures
      var v' := v.(count := v.count + 1, ownerCall := StartAssign(v.count));
      && SharedOk(v') && ThreadOk(Thread(Begin, NoCall, 0), v.count, v')
      && ThreadOk(th.(call := StartAssign(v.count)), t, v')
  {
  }

  lemma StartSpawnKeepsInv(s: State, t: nat, spurious: bool)
    requires Inv(s) && Enabled(s, Call(t, spurious)) && s.threads[t].call.StartSpawn?
    ensures Inv(Apply(s, Call(t, spurious)))
  {
    var s' := CallStep(s, t, false);
    SpawnOk(s.threads[t], t, ViewOf(s));
    SpawnView(s, t);
    assert s'.threads[t] == s.threads[t].(call := StartAssign(|s.threads|));
    Assemble(s, s', t);
  }

  lemma AskRunKeepsInv(s: State, t: nat, spurious: bool)
    requires Inv(s) && Enabled(s, Call(t, spurious)) && s.threads[t].call.AskRun?
    ensures Inv(Apply(s, Call(t, spurious)))
  {
    var s' := Apply(s, Call(t, spurious));
    CountUpdate(s.threads, t, s'.threads[t], AboutToWake);
    assert ThreadOk(s.threads[t], t, ViewOf(s));
    Assemble(s, s', t);
  }

  lemma WakeKeepsInv(s: State, t: nat, spurious: bool)
    requires Inv(s) && Enabled(s, Call(t, spurious)) && (s.threads[t].call.AskIoc? || s.threads[t].call.PollIoc?)
    ensures Inv(Apply(s, Call(t, spurious)))
  {
    var s' := Apply(s, Call(t, spurious));
    CountUpdate(s.threads, t, s'.threads[t], AboutToWake);
    assert ThreadOk(s.threads[t], t, ViewOf(s));
    Assemble(s, s', t);
  }

  lemma BusyOnKeepsInv(s: State, t: nat)
    requires Inv(s) && Enabled(s, BusyOn(t))
    ensures Inv(Apply(s, BusyOn(t)))
  {
    if !s.busy {
      var s' := Apply(s, BusyOn(t));
      CountUpdate(s.threads, t, s'.threads[t], AboutToWake);
      assert ThreadOk(s.threads[t], t, ViewOf(s));
      Assemble(s, s', t);
    }
  }

  /** The loop steps that restart or stop the io_context. */
  lemma ContextLoopKeepsInv(s: State, t: nat)
    requires Inv(s) && Enabled(s, Loop(t))
    requires s.threads[t].loop.Begin? || s.threads[t].loop.Restart? || s.threads[t].loop.Exiting?
    ensures Inv(Apply(s, Loop(t)))
  {
    var s' := Apply(s, Loop(t));
    CountUpdate(s.threads, t, s'.threads[t], AboutToWake);
    assert ThreadOk(s.threads[t], t, ViewOf(s));
    Assemble(s, s', t);
  }

  lemma StepKeepsInv(s: State, a: Step)
    requires Inv(s) && Enabled(s, a)
    ensures Inv(Apply(s, a))
  {
    match a
    case BeginStart(_) => BeginKeepsInv(s, a);
    case BeginStop(_) => BeginKeepsInv(s, a);
    case BusyOff(_) => assert Inv(s.(busy := false));
    case BusyOn(t) => BusyOnKeepsInv(s, t);
    case Loop(t) =>
      if s.threads[t].loop.CheckRun? || s.threads[t].loop.CheckPoll? || s.threads[t].loop.PolledNone? {
        LocalLoopKeepsInv(s, a);
      } else {
        ContextLoopKeepsInv(s, t);
      }
    case Call(t, spurious) => CallKeepsInv(s, t, spurious);
    case _ => LocalLoopKeepsInv(s, a);
  }

  lemma CallKeepsInv(s: State, t: nat, spurious: bool)
    requires Inv(s) && Enabled(s, Call(t, spurious))
    ensures Inv(Apply(s, Call(t, spurious)))
  {
    match s.threads[t].call
    case StartHave(_) => StartTurnKeepsInv(s, t, spurious);
    case StopHave(_) => StopTurnKeepsInv(s, t, spurious);
    case StartSpawn => StartSpawnKeepsInv(s, t, spurious);
    case AskRun => AskRunKeepsInv(s, t, spurious);
    case AskIoc => WakeKeepsInv(s, t, spurious);
    case PollIoc => WakeKeepsInv(s, t, spurious);
    case _ => OwnerKeepsInv(s, t, spurious);
  }

  lemma {:induction false} RunKeepsInv(s: State, sched: seq<Step>)
    requires Inv(s) && Run(s, sched).Some?
    ensures Inv(Run(s, sched).value)
    decreases |sched|
  {
    if sched != [] {
      StepKeepsInv(s, sched[0]);
      RunKeepsInv(Apply(s, sched[0]), sched[1..]);
    }
  }

  lemma ReachableInv(s: State)
    requires Reachable(s)
    ensures Inv(s)
  {
    var s0: State, sched: seq<Step> :| Init(s0) && Run(s0, sched) == Some(s);
    InitInv(s0);
    RunKeepsInv(s0, sched);
  }

  // ---- main results ----

  /** Never two threads at a point that touches service_thread_, and that point is one of an owned state. */
  lemma ExclusiveOwner(s: State, t: nat, u: nat)
    requires Reachable(s) && t < |s.threads| && u < |s.threads|
    requires Touches(s.threads[t].call) && Touches(s.threads[u].call)
    ensures t == u && !OnService(s.threads[t]) && (s.service.Starting? || s.service.Stopping?)
  {
    ReachableInv(s);
    assert ThreadOk(s.threads[t], t, ViewOf(s)) && ThreadOk(s.threads[u], u, ViewOf(s));
  }

  /** A join finds a joinable thread other than the caller, an assignment finds none, and `stopped` leaves
      nothing to join and nothing running. */
  lemma ThreadObjectSafe(s: State, t: nat)
    requires Reachable(s) && t < |s.threads|
    ensures s.threads[t].call.StartJoin? || s.threads[t].call.StopJoin? ==>
              s.handle.Some? && s.handle.value < |s.threads| && s.handle.value != t
              && OnService(s.threads[s.handle.value])
    ensures s.threads[t].call.StartAssign? ==> s.handle.None?
    ensures s.service.Stopped? ==> s.handle.None? && !Live(s.threads[t])
    ensures s.handle.None? && Live(s.threads[t]) ==> s.service.Starting?
  {
    ReachableInv(s);
    var v := ViewOf(s);
    assert ThreadOk(s.threads[t], t, v);
    if s.handle.Some? {
      assert ThreadOk(s.threads[s.handle.value], s.handle.value, v);
    }
  }

  /** There is never more than one service thread alive. */
  lemma OneServiceThread(s: State, j: nat, k: nat)
    requires Reachable(s) && j < |s.threads| && k < |s.threads| && Live(s.threads[j]) && Live(s.threads[k])
    ensures j == k
  {
    ReachableInv(s);
    assert ThreadOk(s.threads[j], j, ViewOf(s)) && ThreadOk(s.threads[k], k, ViewOf(s));
  }

  /** Once a stop from outside the service thread has found or made the service stopped, every service thread is
      over that was there when it began. */
  lemma JoinedIsOver(s: State, t: nat, k: nat)
    requires Inv(s) && t < |s.threads| && !OnService(s.threads[t]) && k < s.threads[t].existed
    requires s.threads[t].call == StopHave(Stopped) || s.threads[t].call.StopDone?
    ensures k < |s.threads| && !Live(s.threads[k])
  {
    assert ThreadOk(s.threads[t], t, ViewOf(s));
    assert ThreadOk(s.threads[k], k, ViewOf(s));
  }

  /** `running` means run_ is true, and a loop that may block in run() with run_ false is, or is about to be,
      woken by a stop of the io_context. */
  lemma StopNeverLost(s: State, k: nat)
    requires Reachable(s) && k < |s.threads|
    ensures s.service.Running? ==> s.run
    ensures !s.run && (s.threads[k].loop.InRun? || s.threads[k].loop.CheckPoll?) ==>
              s.iocStopped
              || exists t :: 0 <= t < |s.threads| && (s.threads[t].call.StopIoc? || s.threads[t].call.AskIoc?)
  {
    ReachableInv(s);
    var v := ViewOf(s);
    assert ThreadOk(s.threads[k], k, v);
    if v.ownerCall.StopIoc? {
      assert s.threads[s.owner.value].call.StopIoc?;
    }
  }

  /** A start has brought up what it promises: while the state is running, and from the assignment on, the thread
      object holds a service thread that has not seen a reason to leave its loop. */
  lemma RunningIsServed(s: State)
    requires Reachable(s) && (s.service.Running? || ViewOf(s).ownerCall.StartDone?)
    ensures s.handle.Some? && s.handle.value < |s.threads|
    ensures Live(s.threads[s.handle.value]) && !s.threads[s.handle.value].loop.Exiting?
  {
    ReachableInv(s);
    assert ThreadOk(s.threads[s.handle.value], s.handle.value, ViewOf(s));
  }

  /** A service thread that has ended leaves the io_context stopped until the next one begins. */
  lemma EndedLeavesStopped(s: State)
    requires Reachable(s) && s.handle.Some? && s.handle.value < |s.threads| && s.threads[s.handle.value].loop.Finished?
    ensures s.iocStopped && !s.run
  {
    ReachableInv(s);
    assert ThreadOk(s.threads[s.handle.value], s.handle.value, ViewOf(s));
  }

  /** Busy polling switched on reaches a loop blocked in run(). */
  lemma BusyPollWakes(s: State, k: nat)
    requires Reachable(s) && k < |s.threads| && s.busy && s.threads[k].loop.InRun?
    ensures s.iocStopped || exists t :: 0 <= t < |s.threads| && s.threads[t].call.PollIoc?
  {
    ReachableInv(s);
    assert ThreadOk(s.threads[k], k, ViewOf(s));
    CountZero(s.threads, AboutToWake);
  }
}
