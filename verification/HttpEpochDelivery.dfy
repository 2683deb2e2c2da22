/** What becomes of a request: it is dropped for no other reason than a shutdown, and never mislaid. */
module HttpEpochDelivery {
  import opened Wrappers
  import opened HttpEpoch
  import opened HttpEpochProofs

  // ---- requests ----

  /** Only a request of an earlier epoch is dropped, and only one without an executor goes to the callback threads. */
  predicate FateOk(q: Request, epoch: nat) {
    && (q.phase.Dropped? ==> q.epoch < epoch)
    && (q.phase.Queued? || q.phase.Taken? ==> !q.hasExecutor)
  }

  /** A request a thread has taken is in the hands of that thread. */
  predicate InHand(q: Request, r: nat, io: IoPc, callbacks: seq<CallbackPc>) {
    && (q.phase.Delivering? ==> io == IoCheck(r) || io == IoAct(r))
    && (q.phase.Taken? ==>
          q.phase.w < |callbacks| && (callbacks[q.phase.w] == CbCheck(r) || callbacks[q.phase.w] == CbAct(r)))
  }

  ghost predicate Fates(s: State) {
    forall r :: 0 <= r < |s.requests| ==>
      FateOk(s.requests[r], s.epoch) && InHand(s.requests[r], r, s.io, s.callbacks)
  }

  lemma CallKeepsFates(s: State, t: nat, threads: nat, spurious: bool)
    requires Inv(s) && Fates(s) && Enabled(s, Call(t, threads, spurious))
    ensures Fates(CallStep(s, t, threads, spurious))
  {
    var s' := CallStep(s, t, threads, spurious);
    CallEpoch(s, t, threads, spurious);
    CallStarts(s, t, threads, spurious);
    CallForgetsNothing(s, t, threads, spurious);
    forall r | 0 <= r < |s'.requests|
      ensures FateOk(s'.requests[r], s'.epoch) && InHand(s'.requests[r], r, s'.io, s'.callbacks)
    {
      assert FateOk(s.requests[r], s.epoch) && InHand(s.requests[r], r, s.io, s.callbacks);
    }
  }

  /** Threads are created and forgotten only where there is none that is at work. */
  ghost predicate ForgetsNothing(s: State, s': State) {
    && (s'.io == s.io || s.io.NoIo?)
    && (s'.callbacks == [] ==> forall w :: 0 <= w < |s.callbacks| ==> s.callbacks[w].CbGone?)
  }

  lemma StartForgetsNothing(s: State, t: nat, threads: nat, spurious: bool)
    requires Enabled(s, Call(t, threads, spurious)) && InStart(s.callers[t])
    requires NoThreads(s.callers[t]) ==> s.io.NoIo?
    ensures ForgetsNothing(s, CallStep(s, t, threads, spurious))
  {
  }

  lemma StopForgetsNothing(s: State, t: nat, threads: nat, spurious: bool)
    requires Enabled(s, Call(t, threads, spurious)) && !InStart(s.callers[t])
    requires s.callers[t].StopDone? ==> AllGone(s)
    ensures s.callbacks != [] ==> ForgetsNothing(s, CallStep(s, t, threads, spurious))
    ensures CallStep(s, t, threads, spurious).io == s.io
  {
  }

  lemma CallForgetsNothing(s: State, t: nat, threads: nat, spurious: bool)
    requires Inv(s) && Enabled(s, Call(t, threads, spurious))
    ensures ForgetsNothing(s, CallStep(s, t, threads, spurious))
  {
    if InStart(s.callers[t]) {
      StartForgetsNothing(s, t, threads, spurious);
    } else {
      StopForgetsNothing(s, t, threads, spurious);
    }
  }

  lemma IoKeepsFates(s: State)
    requires Inv(s) && Fates(s) && Enabled(s, IoNext)
    ensures Fates(IoStep(s))
  {
    var s', r := IoStep(s), s.io.r;
    assert RequestOk(s.requests[r], s.epoch);
    IoTurns(s);
    forall q | 0 <= q < |s'.requests|
      ensures FateOk(s'.requests[q], s'.epoch) && InHand(s'.requests[q], q, s'.io, s'.callbacks)
    {
      assert FateOk(s.requests[q], s.epoch) && InHand(s.requests[q], q, s.io, s.callbacks);
    }
  }

  /** What a step of the I/O thread makes of the request it has, and of itself. */
  lemma IoTurns(s: State)
    requires Enabled(s, IoNext) && s.requests[s.io.r].epoch <= s.epoch
    ensures
      var s', r := IoStep(s), s.io.r;
      && r < |s'.requests| && s' == s.(io := s'.io, requests := s.requests[r := s'.requests[r]])
      && (s'.io == IoAct(r) ==> s'.requests[r] == s.requests[r])
      && (s'.io != IoAct(r) ==> FateOk(s'.requests[r], s.epoch) && !s'.requests[r].phase.Taken?
                                && !s'.requests[r].phase.Delivering?)
  {
  }

  lemma CallbackKeepsFates(s: State, w: nat)
    requires Inv(s) && Fates(s) && Enabled(s, CallbackNext(w))
    ensures Fates(CallbackStep(s, w))
  {
    var s', r := CallbackStep(s, w), s.callbacks[w].r;
    assert RequestOk(s.requests[r], s.epoch) && CallbackOk(s.callbacks[w], w, s.requests);
    CallbackTurns(s, w);
    forall q | 0 <= q < |s'.requests|
      ensures FateOk(s'.requests[q], s'.epoch) && InHand(s'.requests[q], q, s'.io, s'.callbacks)
    {
      assert FateOk(s.requests[q], s.epoch) && InHand(s.requests[q], q, s.io, s.callbacks);
    }
  }

  /** What a step of callback thread w makes of the request it has, and of itself. */
  lemma CallbackTurns(s: State, w: nat)
    requires Enabled(s, CallbackNext(w)) && s.requests[s.callbacks[w].r].epoch <= s.epoch
    ensures
      var s', r := CallbackStep(s, w), s.callbacks[w].r;
      && w < |s'.callbacks| && r < |s'.requests|
      && s' == s.(callbacks := s.callbacks[w := s'.callbacks[w]], requests := s.requests[r := s'.requests[r]])
      && (s'.callbacks[w] == CbAct(r) ==> s'.requests[r] == s.requests[r])
      && (s'.callbacks[w] != CbAct(r) ==>
            s'.requests[r].phase.Started? || (s'.requests[r].phase.Dropped? && s'.requests[r].epoch < s.epoch))
  {
  }

  lemma TakeKeepsFates(s: State, a: Step)
    requires Inv(s) && Fates(s) && Enabled(s, a)
    requires !a.Call? && !a.IoNext? && !a.CallbackNext?
    ensures Fates(Apply(s, a))
  {
    var s' := Apply(s, a);
    forall q | 0 <= q < |s'.requests|
      ensures FateOk(s'.requests[q], s'.epoch) && InHand(s'.requests[q], q, s'.io, s'.callbacks)
    {
      assert q < |s.requests| ==> FateOk(s.requests[q], s.epoch) && InHand(s.requests[q], q, s.io, s.callbacks);
    }
  }

  lemma StepKeepsFates(s: State, a: Step)
    requires Inv(s) && Fates(s) && Enabled(s, a)
    ensures Fates(Apply(s, a))
  {
    if a.Call? { CallKeepsFates(s, a.t, a.threads, a.spurious); }
    else if a.IoNext? { IoKeepsFates(s); }
    else if a.CallbackNext? { CallbackKeepsFates(s, a.w); }
    else { TakeKeepsFates(s, a); }
  }

  // ---- threads ----

  /** The service threads are there while the service runs, and callbacks run inline exactly if there is no callback
      thread to run them. */
  ghost predicate Staffed(s: State) {
    var c := OwnerCall(s);
    && (c.StartIo? ==> !s.ioStopped && !s.callbacksStopped && (s.inlineCallbacks <==> c.threads == 0))
    && (c.StartCallbacks? ==> (s.inlineCallbacks <==> c.threads == 0) && |s.callbacks| <= c.threads)
    && (s.service.Running? ==> (s.inlineCallbacks <==> s.callbacks == []))
    && (c.StartCallbacks? || s.service.Running? ==>
          && !s.ioStopped && !s.callbacksStopped && !s.io.NoIo?
          && forall w :: 0 <= w < |s.callbacks| ==> !s.callbacks[w].CbGone?)
  }

  lemma StartKeepsStaffed(s: State, t: nat, threads: nat, spurious: bool)
    requires Inv(s) && Staffed(s) && Enabled(s, Call(t, threads, spurious)) && InStart(s.callers[t])
    ensures Staffed(CallStep(s, t, threads, spurious))
  {
  }

  lemma StopKeepsStaffed(s: State, t: nat, threads: nat, spurious: bool)
    requires Inv(s) && Staffed(s) && Enabled(s, Call(t, threads, spurious)) && InStop(s.callers[t])
    ensures Staffed(CallStep(s, t, threads, spurious))
  {
  }

  lemma TurnKeepsStaffed(s: State, t: nat, threads: nat, spurious: bool)
    requires Inv(s) && Staffed(s) && Enabled(s, Call(t, threads, spurious)) && s.callers[t].StopHave?
    ensures Staffed(CallStep(s, t, threads, spurious))
  {
    var seen := s.callers[t].seen;
    if seen.Running? && s.service.Running? && !spurious {
      WinKeepsStaffed(s, t);
    } else {
      CallerKeepsStaffed(s, t, if seen.Running? || seen.Starting? then StopHave(s.service) else NoCall);
    }
  }

  lemma WinKeepsStaffed(s: State, t: nat)
    requires t < |s.callers|
    ensures Staffed(At(s, t, Bump).(service := Stopping, owner := Some(t)))
  {
  }

  lemma CallerKeepsStaffed(s: State, t: nat, c: CallPc)
    requires Staffed(s) && t < |s.callers| && s.owner != Some(t)
    ensures Staffed(At(s, t, c))
  {
    assert OwnerCall(At(s, t, c)) == OwnerCall(s);
  }

  lemma ThreadKeepsStaffed(s: State, a: Step)
    requires Inv(s) && Staffed(s) && Enabled(s, a) && !a.Call? && !a.Start? && !a.Shutdown?
    ensures Staffed(Apply(s, a))
  {
    ThreadLeavesCalls(s, a);
    if a.IoTakes? || a.IoNext? || a.IoExits? { IoStaffed(s, a); }
  }

  lemma IoStaffed(s: State, a: Step)
    requires Enabled(s, a) && (a.IoTakes? || a.IoNext? || a.IoExits?)
    ensures
      var s' := Apply(s, a);
      && s' == s.(io := s'.io, requests := s'.requests) && (s'.io.NoIo? ==> s.ioStopped)
  {
  }

  lemma BeginKeepsStaffed(s: State, a: Step)
    requires Inv(s) && Staffed(s) && Enabled(s, a) && (a.Start? || a.Shutdown?)
    ensures Staffed(Apply(s, a))
  {
  }

  lemma StepKeepsStaffed(s: State, a: Step)
    requires Inv(s) && Staffed(s) && Enabled(s, a)
    ensures Staffed(Apply(s, a))
  {
    if a.Start? || a.Shutdown? { BeginKeepsStaffed(s, a); }
    else if !a.Call? { ThreadKeepsStaffed(s, a); }
    else if InStart(s.callers[a.t]) { StartKeepsStaffed(s, a.t, a.threads, a.spurious); }
    else if InStop(s.callers[a.t]) { StopKeepsStaffed(s, a.t, a.threads, a.spurious); }
    else { TurnKeepsStaffed(s, a.t, a.threads, a.spurious); }
  }

  lemma {:induction false} RunKeepsDelivery(s: State, sched: seq<Step>)
    requires Inv(s) && Fates(s) && Staffed(s) && Run(s, sched).Some?
    ensures Fates(Run(s, sched).value) && Staffed(Run(s, sched).value)
    decreases |sched|
  {
    if sched != [] {
      StepKeepsInv(s, sched[0]);
      StepKeepsFates(s, sched[0]);
      StepKeepsStaffed(s, sched[0]);
      RunKeepsDelivery(Apply(s, sched[0]), sched[1..]);
    }
  }

  lemma ReachableDelivery(s: State)
    requires Reachable(s)
    ensures Inv(s) && Fates(s) && Staffed(s)
  {
    var s0: State, sched: seq<Step> :| Init(s0) && Run(s0, sched) == Some(s);
    InitInv(s0);
    RunKeepsDelivery(s0, sched);
    ReachableInv(s);
  }

  // ---- main results ----

  /** A request is dropped only if a shutdown has moved the epoch on since it was made. */
  lemma DroppedOnlyByShutdown(s: State, r: nat)
    requires Reachable(s) && r < |s.requests| && s.requests[r].phase.Dropped?
    ensures s.requests[r].epoch < s.epoch && s.requests[r].starts == 0
  {
    ReachableDelivery(s);
    assert FateOk(s.requests[r], s.epoch) && RequestOk(s.requests[r], s.epoch);
  }

  /** No request is mislaid: one that a service thread has taken up is at that thread, and its next step takes it on. */
  lemma TakenIsInHand(s: State, r: nat) returns (a: Step)
    requires Reachable(s) && r < |s.requests| && (s.requests[r].phase.Delivering? || s.requests[r].phase.Taken?)
    ensures Enabled(s, a) && if s.requests[r].phase.Delivering? then a.IoNext? && s.io.r == r
                             else a.CallbackNext? && s.callbacks[a.w].r == r
  {
    ReachableDelivery(s);
    assert InHand(s.requests[r], r, s.io, s.callbacks);
    a := if s.requests[r].phase.Delivering? then IoNext else CallbackNext(s.requests[r].phase.w);
  }

  /** A callback with an executor never reaches the callback threads; it is posted by the I/O thread. */
  lemma ExecutorKeepsItsCallback(s: State, r: nat)
    requires Reachable(s) && r < |s.requests| && s.requests[r].hasExecutor
    ensures !s.requests[r].phase.Queued? && !s.requests[r].phase.Taken?
  {
    ReachableDelivery(s);
    assert FateOk(s.requests[r], s.epoch);
  }

  /** While the service runs its threads are alive and its contexts go on; a callback is queued by a step only if
      there is a callback thread to run it, and run by the I/O thread itself only if there is none. */
  lemma RunningDelivers(s: State, r: nat)
    requires Reachable(s) && s.service.Running?
    ensures !s.io.NoIo? && !s.ioStopped && !s.callbacksStopped
    ensures forall w :: 0 <= w < |s.callbacks| ==> !s.callbacks[w].CbGone?
    ensures Enabled(s, IoNext) && r < |s.requests| ==>
              var before, after := s.requests[r].phase, IoStep(s).requests[r].phase;
              && (!before.Queued? && after.Queued? ==> s.callbacks != [])
              && (!before.Started? && after.Started? ==> s.requests[r].hasExecutor || s.callbacks == [])
  {
    ReachableDelivery(s);
  }

  /** The service never comes up with fewer threads than it was started with. */
  lemma StartedInFull(s: State, t: nat, threads: nat, spurious: bool)
    requires Reachable(s) && Enabled(s, Call(t, threads, spurious)) && s.callers[t].StartCallbacks?
    requires CallStep(s, t, threads, spurious).service.Running?
    ensures |CallStep(s, t, threads, spurious).callbacks| == s.callers[t].threads
  {
    ReachableDelivery(s);
  }

  // ---- calls ----

  /** A request never leaves the service stopped: it has started it, or found it up or on its way. */
  lemma StartLeavesNoneStopped(s: State, t: nat)
    requires Enabled(s, Start(t))
    ensures !Apply(s, Start(t)).service.Stopped?
  {
  }

  predicate Down(v: Service) { v.Stopped? || v.Stopping? }

  /** At some moment of the run the service is stopped or being stopped. */
  predicate DownSometime(s: State, sched: seq<Step>)
    requires Run(s, sched).Some?
    decreases |sched|
  {
    Down(s.service) || (sched != [] && DownSometime(Apply(s, sched[0]), sched[1..]))
  }

  /** The shutdown of thread t has returned at the end of the run, and not before. */
  predicate ReturnsAt(s: State, sched: seq<Step>, t: nat)
    requires Run(s, sched).Some?
    decreases |sched|
  {
    t < |s.callers| &&
    if s.callers[t].NoCall? then sched == [] else sched != [] && ReturnsAt(Apply(s, sched[0]), sched[1..], t)
  }

  lemma ShutdownStays(s: State, t: nat, threads: nat, spurious: bool)
    requires Enabled(s, Call(t, threads, spurious)) && s.callers[t].StopHave? && !Down(s.callers[t].seen)
    ensures
      var s' := StopTurn(s, t, s.callers[t].seen, spurious);
      && t < |s'.callers|
      && ((s'.callers[t].StopHave? && (!Down(s'.callers[t].seen) || Down(s.service))) || Down(s'.service))
  {
  }

  lemma OthersKeepShutdown(s: State, a: Step, t: nat)
    requires Enabled(s, a) && t < |s.callers| && !s.callers[t].NoCall? && !(a.Call? && a.t == t)
    ensures t < |Apply(s, a).callers| && Apply(s, a).callers[t] == s.callers[t]
  {
    if a.Call? {
      CallAlone(s, a.t, a.threads, a.spurious);
    } else if !a.Start? && !a.Shutdown? {
      ThreadLeavesCalls(s, a);
    }
  }

  lemma ThreadLeavesCalls(s: State, a: Step)
    requires Enabled(s, a) && !a.Call? && !a.Start? && !a.Shutdown?
    ensures Apply(s, a).callers == s.callers && Apply(s, a).owner == s.owner
  {
  }

  lemma {:induction false} ShutdownRuns(s: State, sched: seq<Step>, t: nat)
    requires Run(s, sched).Some? && ReturnsAt(s, sched, t)
    requires s.callers[t].StopHave? && !Down(s.callers[t].seen)
    ensures DownSometime(s, sched)
    decreases |sched|
  {
    var a, s1 := sched[0], Apply(s, sched[0]);
    if a.Call? && a.t == t { ShutdownStays(s, t, a.threads, a.spurious); } else { OthersKeepShutdown(s, a, t); }
    if !Down(s.service) && !Down(s1.service) {
      ShutdownRuns(s1, sched[1..], t);
    }
  }

  /** A shutdown returns only if the service was down, or was being brought down, by it or by somebody else, while
      it was called. */
  lemma ShutdownWorks(s: State, sched: seq<Step>, t: nat)
    requires Enabled(s, Shutdown(t))
    requires Run(Apply(s, Shutdown(t)), sched).Some? && ReturnsAt(Apply(s, Shutdown(t)), sched, t)
    ensures DownSometime(Apply(s, Shutdown(t)), sched)
  {
    if !Down(s.service) {
      ShutdownRuns(Apply(s, Shutdown(t)), sched, t);
    }
  }
}
