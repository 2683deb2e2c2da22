/** What holds in every reachable state of the callback-based HTTP service. */
module HttpEpochProofs {
  import opened Wrappers
  import opened HttpEpoch

  predicate InStart(c: CallPc) { c.StartContexts? || c.StartIo? || c.StartCallbacks? }

  predicate InStop(c: CallPc) { c.Bump? || c.StopIo? || c.StopCallbacks? || c.Join? || c.StopDone? }

  predicate NoThreads(c: CallPc) { c.StartContexts? || c.StartIo? }

  function OwnerCall(s: State): CallPc {
    if s.owner.Some? && s.owner.value < |s.callers| then s.callers[s.owner.value] else NoCall
  }

  /** Starting and stopping have one owner, and the service threads live from its start to its join. */
  ghost predicate Owned(s: State) {
    && (forall t :: 0 <= t < |s.callers| ==> (InStart(s.callers[t]) || InStop(s.callers[t]) <==> s.owner == Some(t)))
    && (s.owner.Some? ==> s.owner.value < |s.callers|)
    && (s.service.Starting? <==> InStart(OwnerCall(s)))
    && (s.service.Stopping? <==> InStop(OwnerCall(s)))
    && (s.service.Stopped? || NoThreads(OwnerCall(s)) || OwnerCall(s).StopDone? ==> AllGone(s))
    && (s.service.Stopped? || NoThreads(OwnerCall(s)) ==> s.callbacks == [])
    && (OwnerCall(s).StopCallbacks? || OwnerCall(s).Join? ==> s.ioStopped)
    && (OwnerCall(s).Join? ==> s.callbacksStopped)
  }

  /** Request r has passed its epoch check and the callback is about to start. */
  ghost predicate Passed(s: State, r: nat) {
    s.io == IoAct(r) || exists w :: 0 <= w < |s.callbacks| && s.callbacks[w] == CbAct(r)
  }

  predicate RequestOk(q: Request, epoch: nat) {
    && q.epoch <= epoch
    && q.starts == (if q.phase.Started? then 1 else 0)
  }

  /** A service thread and the request it works on. */
  predicate IoOk(io: IoPc, requests: seq<Request>) {
    io.IoCheck? || io.IoAct? ==> io.r < |requests| && requests[io.r].phase.Delivering?
  }

  predicate CallbackOk(c: CallbackPc, w: nat, requests: seq<Request>) {
    c.CbCheck? || c.CbAct? ==> c.r < |requests| && requests[c.r].phase == Taken(w)
  }

  /** Between the bump and the join a request of the old epoch may be past its check; at no other time. */
  ghost predicate Fresh(s: State) {
    !(OwnerCall(s).StopIo? || OwnerCall(s).StopCallbacks? || OwnerCall(s).Join?) ==>
      && (s.io.IoAct? && s.io.r < |s.requests| ==> s.requests[s.io.r].epoch == s.epoch)
      && (forall w :: 0 <= w < |s.callbacks| && s.callbacks[w].CbAct? && s.callbacks[w].r < |s.requests| ==>
            s.requests[s.callbacks[w].r].epoch == s.epoch)
  }

  ghost predicate Inv(s: State) {
    && Owned(s)
    && (forall r :: 0 <= r < |s.requests| ==> RequestOk(s.requests[r], s.epoch))
    && IoOk(s.io, s.requests)
    && (forall w :: 0 <= w < |s.callbacks| ==> CallbackOk(s.callbacks[w], w, s.requests))
    && Fresh(s)
  }

  lemma InitInv(s: State)
    requires Init(s)
    ensures Inv(s)
  {
  }

  lemma StartKeepsInv(s: State, t: nat)
    requires Inv(s) && Enabled(s, Start(t))
    ensures Inv(Apply(s, Start(t)))
  {
  }

  lemma ShutdownKeepsInv(s: State, t: nat)
    requires Inv(s) && Enabled(s, Shutdown(t))
    ensures Inv(Apply(s, Shutdown(t)))
  {
  }

  /** A caller that owns nothing may go anywhere that owns nothing. */
  lemma CallerKeepsInv(s: State, t: nat, c: CallPc)
    requires Inv(s) && t < |s.callers| && s.owner != Some(t) && !InStart(c) && !InStop(c)
    ensures Inv(At(s, t, c))
  {
    assert OwnerCall(At(s, t, c)) == OwnerCall(s);
  }

  lemma StopCasKeepsInv(s: State, t: nat)
    requires Inv(s) && t < |s.callers| && s.callers[t] == StopHave(Running) && s.service.Running?
    ensures Inv(At(s, t, Bump).(service := Stopping, owner := Some(t)))
  {
  }

  lemma StopTurnKeepsInv(s: State, t: nat, spurious: bool)
    requires Inv(s) && Enabled(s, Call(t, 0, spurious)) && s.callers[t].StopHave?
    ensures Inv(Apply(s, Call(t, 0, spurious)))
  {
    var seen := s.callers[t].seen;
    if seen.Running? && s.service.Running? && !spurious {
      StopCasKeepsInv(s, t);
    } else if seen.Running? || seen.Starting? {
      CallerKeepsInv(s, t, StopHave(s.service));
    } else {
      CallerKeepsInv(s, t, NoCall);
    }
  }

  lemma ContextsKeepInv(s: State, t: nat, threads: nat)
    requires Inv(s) && Enabled(s, Call(t, threads, false)) && s.callers[t].StartContexts?
    ensures Inv(Apply(s, Call(t, threads, false)))
  {
  }

  lemma StartIoKeepsInv(s: State, t: nat)
    requires Inv(s) && Enabled(s, Call(t, 0, false)) && s.callers[t].StartIo?
    ensures Inv(Apply(s, Call(t, 0, false)))
  {
  }

  lemma NewThreadKeepsInv(s: State, t: nat)
    requires Inv(s) && Enabled(s, Call(t, 0, false))
    requires s.callers[t].StartCallbacks? && |s.callbacks| < s.callers[t].threads
    ensures Inv(Apply(s, Call(t, 0, false)))
  {
    var s' := Apply(s, Call(t, 0, false));
    assert OwnerCall(s') == OwnerCall(s);
  }

  lemma OwnerMovesKeepInv(s: State, t: nat)
    requires Inv(s) && Enabled(s, Call(t, 0, false))
    requires s.callers[t].Bump? || s.callers[t].StopIo? || s.callers[t].StopCallbacks?
    ensures Inv(Apply(s, Call(t, 0, false)))
  {
  }

  lemma JoinKeepsInv(s: State, t: nat)
    requires Inv(s) && Enabled(s, Call(t, 0, false)) && s.callers[t].Join?
    ensures Inv(Apply(s, Call(t, 0, false)))
  {
  }

  lemma OwnerLeavesKeepInv(s: State, t: nat)
    requires Inv(s) && Enabled(s, Call(t, 0, false)) && (s.callers[t].StartCallbacks? || s.callers[t].StopDone?)
    requires s.callers[t].StartCallbacks? ==> |s.callbacks| >= s.callers[t].threads
    ensures Inv(Apply(s, Call(t, 0, false)))
  {
  }

  lemma CallKeepsInv(s: State, t: nat, threads: nat, spurious: bool)
    requires Inv(s) && Enabled(s, Call(t, threads, spurious))
    ensures Inv(Apply(s, Call(t, threads, spurious)))
  {
    match s.callers[t]
    case StopHave(_) => StopTurnKeepsInv(s, t, spurious);
    case StartContexts => ContextsKeepInv(s, t, threads);
    case StartIo(_) => StartIoKeepsInv(s, t);
    case StartCallbacks(n) => if |s.callbacks| < n { NewThreadKeepsInv(s, t); } else { OwnerLeavesKeepInv(s, t); }
    case Join => JoinKeepsInv(s, t);
    case Bump => OwnerMovesKeepInv(s, t);
    case StopIo => OwnerMovesKeepInv(s, t);
    case StopCallbacks => OwnerMovesKeepInv(s, t);
    case _ => OwnerLeavesKeepInv(s, t);
  }

  lemma RequestKeepsInv(s: State, hasExecutor: bool)
    requires Inv(s)
    ensures Inv(Apply(s, NewRequest(hasExecutor)))
  {
  }

  lemma IoTakesKeepsInv(s: State, r: nat)
    requires Inv(s) && Enabled(s, IoTakes(r))
    ensures Inv(Apply(s, IoTakes(r)))
  {
  }

  lemma IoPassesKeepsInv(s: State)
    requires Inv(s) && Enabled(s, IoNext) && s.io.IoCheck? && s.requests[s.io.r].epoch == s.epoch
    ensures Inv(Apply(s, IoNext))
  {
  }

  lemma IoChecksKeepsInv(s: State)
    requires Inv(s) && Enabled(s, IoNext) && s.io.IoCheck?
    ensures Inv(Apply(s, IoNext))
  {
    if s.requests[s.io.r].epoch == s.epoch { IoPassesKeepsInv(s); }
    else { IoDoneKeepsInv(s, Apply(s, IoNext).requests[s.io.r]); }
  }

  /** The I/O thread is done with its request, which goes on as q. */
  lemma IoDoneKeepsInv(s: State, q: Request)
    requires Inv(s) && (s.io.IoCheck? || s.io.IoAct?) && q.epoch == s.requests[s.io.r].epoch
    requires !q.phase.Taken? && RequestOk(q, s.epoch)
    ensures Inv(s.(io := IoIdle, requests := s.requests[s.io.r := q]))
  {
    var s' := s.(io := IoIdle, requests := s.requests[s.io.r := q]);
    assert OwnerCall(s') == OwnerCall(s);
  }

  lemma IoActsKeepsInv(s: State)
    requires Inv(s) && Enabled(s, IoNext) && s.io.IoAct?
    ensures Inv(Apply(s, IoNext))
  {
    IoDoneKeepsInv(s, Apply(s, IoNext).requests[s.io.r]);
  }

  lemma CallbackTakesKeepsInv(s: State, w: nat, r: nat)
    requires Inv(s) && Enabled(s, CallbackTakes(w, r))
    ensures Inv(Apply(s, CallbackTakes(w, r)))
  {
  }

  lemma CallbackPassesKeepsInv(s: State, w: nat)
    requires Inv(s) && Enabled(s, CallbackNext(w)) && s.callbacks[w].CbCheck?
    requires s.requests[s.callbacks[w].r].epoch == s.epoch
    ensures Inv(Apply(s, CallbackNext(w)))
  {
  }

  lemma CallbackDropsKeepsInv(s: State, w: nat)
    requires Inv(s) && Enabled(s, CallbackNext(w)) && s.callbacks[w].CbCheck?
    requires s.requests[s.callbacks[w].r].epoch != s.epoch
    ensures Inv(Apply(s, CallbackNext(w)))
  {
  }

  lemma CallbackChecksKeepsInv(s: State, w: nat)
    requires Inv(s) && Enabled(s, CallbackNext(w)) && s.callbacks[w].CbCheck?
    ensures Inv(Apply(s, CallbackNext(w)))
  {
    if s.requests[s.callbacks[w].r].epoch == s.epoch { CallbackPassesKeepsInv(s, w); }
    else { CallbackDropsKeepsInv(s, w); }
  }

  lemma CallbackActsKeepsInv(s: State, w: nat)
    requires Inv(s) && Enabled(s, CallbackNext(w)) && s.callbacks[w].CbAct?
    ensures Inv(Apply(s, CallbackNext(w)))
  {
  }

  lemma ExitKeepsInv(s: State, a: Step)
    requires Inv(s) && Enabled(s, a) && (a.IoExits? || a.CallbackExits?)
    ensures Inv(Apply(s, a))
  {
  }

  lemma StepKeepsInv(s: State, a: Step)
    requires Inv(s) && Enabled(s, a)
    ensures Inv(Apply(s, a))
  {
    match a
    case Start(t) => StartKeepsInv(s, t);
    case Shutdown(t) => ShutdownKeepsInv(s, t);
    case Call(t, threads, spurious) => CallKeepsInv(s, t, threads, spurious);
    case NewRequest(hasExecutor) => RequestKeepsInv(s, hasExecutor);
    case IoTakes(r) => IoTakesKeepsInv(s, r);
    case IoNext => if s.io.IoCheck? { IoChecksKeepsInv(s); } else { IoActsKeepsInv(s); }
    case CallbackTakes(w, r) => CallbackTakesKeepsInv(s, w, r);
    case CallbackNext(w) =>
      if s.callbacks[w].CbCheck? { CallbackChecksKeepsInv(s, w); } else { CallbackActsKeepsInv(s, w); }
    case _ => ExitKeepsInv(s, a);
  }

  lemma {:induction false} RunKeepsInv(s: State, sched: seq<Step>)
    requires Inv(s) && Run(s, sched).Some?
    ensures Inv(Run(s, sched).value)
    decreases |sched|
  {
    if sched != [] {
      StepKeepsInv(s, sched[0]);
      RunKeepsInv(Apply(s, sched[0]), sched[1..]);
    }
  }

  lemma ReachableInv(s: State)
    requires Reachable(s)
    ensures Inv(s)
  {
    var s0: State, sched: seq<Step> :| Init(s0) && Run(s0, sched) == Some(s);
    InitInv(s0);
    RunKeepsInv(s0, sched);
  }

  // ---- main results ----

  /** Request r belongs to an earlier epoch and no service thread is about to start its callback. */
  ghost predicate Abandoned(s: State, r: nat) {
    r < |s.requests| && s.requests[r].epoch < s.epoch && !Passed(s, r)
  }

  /** The shutdown that won the CAS is about to return: it has moved the epoch on, the service threads have
      ended, and every request of an earlier epoch is abandoned. The same holds whenever the service is not
      being stopped. */
  lemma ShutdownAbandons(s: State, t: nat, r: nat)
    requires Reachable(s) && r < |s.requests| && s.requests[r].epoch < s.epoch
    requires !s.service.Stopping? || (t < |s.callers| && s.callers[t].StopDone?)
    ensures Abandoned(s, r)
    ensures t < |s.callers| && s.callers[t].StopDone? ==> AllGone(s)
  {
    ReachableInv(s);
  }

  ghost predicate StaysAbandoned(s: State, a: Step, r: nat)
    requires Enabled(s, a) && r < |s.requests|
  {
    Abandoned(Apply(s, a), r) && Apply(s, a).requests[r].starts == s.requests[r].starts
  }

  lemma CallKeepsAbandoned(s: State, a: Step, r: nat)
    requires Enabled(s, a) && Abandoned(s, r) && a.Call?
    ensures StaysAbandoned(s, a, r)
  {
    CallEpoch(s, a.t, a.threads, a.spurious);
    CallStarts(s, a.t, a.threads, a.spurious);
    var s' := Apply(s, a);
    forall w | 0 <= w < |s'.callbacks| ensures s'.callbacks[w] != CbAct(r) {
      assert s'.callbacks[w] == CbIdle || (w < |s.callbacks| && s'.callbacks[w] == s.callbacks[w]);
    }
  }

  /** Of the service threads a call only creates new ones, which are idle, or forgets them all. */
  ghost predicate NewIdle(s: State, s': State) {
    && (s'.io == s.io || s'.io.IoIdle?)
    && (s'.callbacks == s.callbacks || s'.callbacks == s.callbacks + [CbIdle] || s'.callbacks == [])
  }

  lemma StartCreates(s: State, t: nat, threads: nat, spurious: bool)
    requires Enabled(s, Call(t, threads, spurious)) && InStart(s.callers[t])
    ensures NewIdle(s, CallStep(s, t, threads, spurious))
  {
  }

  lemma StopForgets(s: State, t: nat, threads: nat, spurious: bool)
    requires Enabled(s, Call(t, threads, spurious)) && InStop(s.callers[t])
    ensures NewIdle(s, CallStep(s, t, threads, spurious))
  {
  }

  lemma CallStarts(s: State, t: nat, threads: nat, spurious: bool)
    requires Enabled(s, Call(t, threads, spurious))
    ensures NewIdle(s, CallStep(s, t, threads, spurious))
  {
    if InStart(s.callers[t]) {
      StartCreates(s, t, threads, spurious);
    } else if InStop(s.callers[t]) {
      StopForgets(s, t, threads, spurious);
    }
  }

  lemma IoKeepsAbandoned(s: State, a: Step, r: nat)
    requires Enabled(s, a) && Abandoned(s, r) && (a.IoTakes? || a.IoNext? || a.IoExits?)
    ensures StaysAbandoned(s, a, r)
  {
    assert forall w :: 0 <= w < |s.callbacks| ==> s.callbacks[w] != CbAct(r);
  }

  lemma CallbackKeepsAbandoned(s: State, a: Step, r: nat)
    requires Enabled(s, a) && Abandoned(s, r) && (a.CallbackTakes? || a.CallbackNext? || a.CallbackExits?)
    ensures StaysAbandoned(s, a, r)
  {
    assert forall w :: 0 <= w < |s.callbacks| ==> s.callbacks[w] != CbAct(r);
  }

  /** No step brings an abandoned request back. */
  lemma StepKeepsAbandoned(s: State, a: Step, r: nat)
    requires Enabled(s, a) && Abandoned(s, r)
    ensures StaysAbandoned(s, a, r)
  {
    if a.Call? {
      CallKeepsAbandoned(s, a, r);
    } else if a.IoTakes? || a.IoNext? || a.IoExits? {
      IoKeepsAbandoned(s, a, r);
    } else if a.CallbackTakes? || a.CallbackNext? || a.CallbackExits? {
      CallbackKeepsAbandoned(s, a, r);
    }
  }

  /** An abandoned request never starts its callback on a service thread and never posts it, across any number
      of later restarts and shutdowns. */
  lemma {:induction false} AbandonedForever(s: State, sched: seq<Step>, r: nat)
    requires Inv(s) && Run(s, sched).Some? && Abandoned(s, r)
    ensures
      var s' := Run(s, sched).value;
      Abandoned(s', r) && s'.requests[r].starts == s.requests[r].starts
    decreases |sched|
  {
    if sched != [] {
      StepKeepsAbandoned(s, sched[0], r);
      StepKeepsInv(s, sched[0]);
      AbandonedForever(Apply(s, sched[0]), sched[1..], r);
    }
  }

  /** Caller t still has to move the epoch on from `epoch`, or it has moved on. */
  ghost predicate Bumping(s: State, t: nat, epoch: nat) {
    t < |s.callers| && if s.callers[t].Bump? then s.epoch >= epoch else s.epoch > epoch
  }

  lemma {:induction false} BumpComes(s: State, sched: seq<Step>, t: nat, epoch: nat, r: nat)
    requires Run(s, sched).Some? && Bumping(s, t, epoch) && r < |s.requests|
    ensures
      var s' := Run(s, sched).value;
      Bumping(s', t, epoch) && r < |s'.requests| && s'.requests[r].epoch == s.requests[r].epoch
    decreases |sched|
  {
    if sched != [] {
      BumpStep(s, sched[0], t, epoch, r);
      BumpComes(Apply(s, sched[0]), sched[1..], t, epoch, r);
    }
  }

  lemma BumpStep(s: State, a: Step, t: nat, epoch: nat, r: nat)
    requires Enabled(s, a) && Bumping(s, t, epoch) && r < |s.requests|
    ensures
      var s' := Apply(s, a);
      Bumping(s', t, epoch) && r < |s'.requests| && s'.requests[r].epoch == s.requests[r].epoch
  {
    if a.Call? {
      CallEpoch(s, a.t, a.threads, a.spurious);
      CallAlone(s, a.t, a.threads, a.spurious);
      if a.t == t && !s.callers[t].StopHave? {
        BumpIsOneStep(s, t, a.threads, a.spurious);
      }
    } else if !a.Start? && !a.Shutdown? {
      ThreadEpoch(s, a, r);
    }
  }

  /** A step of a call keeps the requests; the epoch moves at the bump. */
  ghost predicate EpochMoves(s: State, t: nat, s': State)
    requires t < |s.callers|
  {
    s'.requests == s.requests && s'.epoch == s.epoch + (if s.callers[t].Bump? then 1 else 0)
  }

  lemma StartEpoch(s: State, t: nat, threads: nat, spurious: bool)
    requires Enabled(s, Call(t, threads, spurious)) && InStart(s.callers[t])
    ensures EpochMoves(s, t, CallStep(s, t, threads, spurious))
  {
  }

  lemma StopEpoch(s: State, t: nat, threads: nat, spurious: bool)
    requires Enabled(s, Call(t, threads, spurious)) && InStop(s.callers[t])
    ensures EpochMoves(s, t, CallStep(s, t, threads, spurious))
  {
  }

  lemma CallEpoch(s: State, t: nat, threads: nat, spurious: bool)
    requires Enabled(s, Call(t, threads, spurious))
    ensures EpochMoves(s, t, CallStep(s, t, threads, spurious))
  {
    if InStart(s.callers[t]) {
      StartEpoch(s, t, threads, spurious);
    } else if InStop(s.callers[t]) {
      StopEpoch(s, t, threads, spurious);
    }
  }

  /** It keeps every other call. */
  lemma CallAlone(s: State, t: nat, threads: nat, spurious: bool)
    requires Enabled(s, Call(t, threads, spurious))
    ensures Others(s, t, CallStep(s, t, threads, spurious))
  {
    if InStart(s.callers[t]) {
      StartAlone(s, t, threads, spurious);
    } else if InStop(s.callers[t]) {
      StopAlone(s, t, threads, spurious);
    }
  }

  ghost predicate Others(s: State, t: nat, s': State)
    requires t < |s.callers|
  {
    |s'.callers| == |s.callers| && forall u :: 0 <= u < |s.callers| && u != t ==> s'.callers[u] == s.callers[u]
  }

  lemma StartAlone(s: State, t: nat, threads: nat, spurious: bool)
    requires Enabled(s, Call(t, threads, spurious)) && InStart(s.callers[t])
    ensures Others(s, t, CallStep(s, t, threads, spurious))
  {
  }

  lemma StopAlone(s: State, t: nat, threads: nat, spurious: bool)
    requires Enabled(s, Call(t, threads, spurious)) && InStop(s.callers[t])
    ensures Others(s, t, CallStep(s, t, threads, spurious))
  {
  }

  /** A bump takes one step. */
  lemma BumpIsOneStep(s: State, t: nat, threads: nat, spurious: bool)
    requires Enabled(s, Call(t, threads, spurious)) && !s.callers[t].StopHave?
    ensures t < |CallStep(s, t, threads, spurious).callers| && !CallStep(s, t, threads, spurious).callers[t].Bump?
  {
    if s.callers[t].StartCallbacks? && |s.callbacks| < s.callers[t].threads {
      assert CallStep(s, t, threads, spurious).callers == s.callers;
    }
  }

  /** A step of a service thread or of a request keeps the calls and the epochs. */
  lemma ThreadEpoch(s: State, a: Step, r: nat)
    requires Enabled(s, a) && !a.Call? && !a.Start? && !a.Shutdown? && r < |s.requests|
    ensures
      var s' := Apply(s, a);
      && s'.callers == s.callers && s'.epoch == s.epoch
      && r < |s'.requests| && s'.requests[r].epoch == s.requests[r].epoch
  {
  }

  /** A shutdown that has won the CAS abandons every request made by then: when it is about to return, and in any
      later state that is not being stopped again, none of them will ever start its callback. */
  lemma ShutdownReturns(s: State, sched: seq<Step>, t: nat, r: nat)
    requires Reachable(s) && Run(s, sched).Some?
    requires t < |s.callers| && s.callers[t].Bump? && r < |s.requests|
    requires
      var s' := Run(s, sched).value;
      !s'.service.Stopping? || (t < |s'.callers| && s'.callers[t].StopDone?)
    ensures Abandoned(Run(s, sched).value, r)
  {
    ReachableInv(s);
    RunKeepsInv(s, sched);
    BumpComes(s, sched, t, s.epoch, r);
    var s' := Run(s, sched).value;
    assert s'.requests[r].epoch <= s.epoch;
  }

  /** Every delivery starts its callback once at most. */
  lemma StartedOnce(s: State, r: nat)
    requires Reachable(s) && r < |s.requests|
    ensures s.requests[r].starts <= 1
    ensures s.requests[r].starts == 1 <==> s.requests[r].phase.Started?
  {
    ReachableInv(s);
  }

  /** The service threads are created and joined by one caller at a time, and none is alive before the I/O
      thread is created. */
  lemma OneOwner(s: State, t: nat, u: nat)
    requires Reachable(s) && t < |s.callers| && u < |s.callers|
    requires InStart(s.callers[t]) || InStop(s.callers[t])
    requires InStart(s.callers[u]) || InStop(s.callers[u])
    ensures t == u
    ensures NoThreads(s.callers[t]) ==> AllGone(s)
  {
    ReachableInv(s);
  }

  /** What a thread of the service does next. */
  predicate ThreadStep(a: Step) { a.IoNext? || a.IoExits? || a.CallbackNext? || a.CallbackExits? }

  function ThreadWork(c: CallbackPc): nat {
    match c
    case CbGone => 0
    case CbIdle => 1
    case CbAct(_) => 2
    case CbCheck(_) => 3
  }

  function CallbackWork(callbacks: seq<CallbackPc>): nat {
    if callbacks == [] then 0 else ThreadWork(callbacks[0]) + CallbackWork(callbacks[1..])
  }

  /** The steps the service threads are away from having ended, if they take up nothing new. */
  function Work(s: State): nat {
    CallbackWork(s.callbacks) + (match s.io case NoIo => 0 case IoIdle => 1 case IoAct(_) => 2 case IoCheck(_) => 3)
  }

  lemma {:induction false} CallbackWorkUpdate(callbacks: seq<CallbackPc>, w: nat, c: CallbackPc)
    requires w < |callbacks|
    ensures CallbackWork(callbacks[w := c]) == CallbackWork(callbacks) - ThreadWork(callbacks[w]) + ThreadWork(c)
  {
    if w > 0 {
      assert callbacks[w := c][1..] == callbacks[1..][w - 1 := c];
      CallbackWorkUpdate(callbacks[1..], w - 1, c);
    } else {
      assert callbacks[w := c][1..] == callbacks[1..];
    }
  }

  lemma CallbackThreadSteps(s: State, a: Step)
    requires Enabled(s, a) && (a.CallbackNext? || a.CallbackExits?)
    ensures
      var s' := Apply(s, a);
      && a.w < |s'.callbacks| && s'.io == s.io && s'.callbacks == s.callbacks[a.w := s'.callbacks[a.w]]
      && ThreadWork(s'.callbacks[a.w]) < ThreadWork(s.callbacks[a.w])
  {
  }

  lemma ThreadStepWorks(s: State, a: Step)
    requires Enabled(s, a) && ThreadStep(a)
    ensures Work(Apply(s, a)) < Work(s)
  {
    if a.CallbackNext? || a.CallbackExits? {
      CallbackThreadSteps(s, a);
      CallbackWorkUpdate(s.callbacks, a.w, Apply(s, a).callbacks[a.w]);
    }
  }

  /** A shutdown never joins in vain: while it waits, no thread takes up new work, one that is alive can go on,
      and each step of a thread leaves less work than there was before. */
  lemma JoinGoesOn(s: State, t: nat)
    requires Reachable(s) && t < |s.callers| && s.callers[t].Join?
    ensures forall a: Step :: a.IoTakes? || a.CallbackTakes? ==> !Enabled(s, a)
    ensures forall a: Step :: Enabled(s, a) && ThreadStep(a) ==> Work(Apply(s, a)) < Work(s)
    ensures Enabled(s, Call(t, 0, false)) || exists a: Step :: ThreadStep(a) && Enabled(s, a)
  {
    ReachableInv(s);
    forall a: Step | Enabled(s, a) && ThreadStep(a) ensures Work(Apply(s, a)) < Work(s) {
      ThreadStepWorks(s, a);
    }
    if !s.io.NoIo? {
      assert ThreadStep(if s.io.IoIdle? then IoExits else IoNext);
    } else if !AllGone(s) {
      var w :| 0 <= w < |s.callbacks| && !s.callbacks[w].CbGone?;
      assert ThreadStep(if s.callbacks[w].CbIdle? then CallbackExits(w) else CallbackNext(w));
    }
  }
}
