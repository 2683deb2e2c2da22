/** The service comes up, goes down and delivers: from every reachable state some schedule takes it there. */
module HttpEpochProgress {
  import opened Wrappers
  import opened HttpEpoch
  import opened HttpEpochProofs
  import opened HttpEpochDelivery

  ghost predicate Good(s: State) { Inv(s) && Fates(s) && Staffed(s) }

  lemma StepKeepsGood(s: State, a: Step)
    requires Good(s) && Enabled(s, a)
    ensures Good(Apply(s, a))
  {
    StepKeepsInv(s, a);
    StepKeepsFates(s, a);
    StepKeepsStaffed(s, a);
  }

  /** A run that begins with step a. */
  lemma Prepend(s: State, a: Step, rest: seq<Step>)
    requires Enabled(s, a) && Run(Apply(s, a), rest).Some?
    ensures Run(s, [a] + rest) == Run(Apply(s, a), rest)
  {
    assert ([a] + rest)[1..] == rest;
  }

  lemma {:induction false} RunAppend(s: State, a: seq<Step>, b: seq<Step>)
    requires Run(s, a).Some? && Run(Run(s, a).value, b).Some?
    ensures Run(s, a + b) == Run(Run(s, a).value, b)
    decreases |a|
  {
    if a == [] {
      assert a + b == b;
    } else {
      assert (a + b)[1..] == a[1..] + b;
      RunAppend(Apply(s, a[0]), a[1..], b);
    }
  }

  // ---- whoever owns the service comes to its end ----

  function Stage(c: CallPc): nat {
    match c
    case Bump => 5
    case StopIo => 4
    case StopCallbacks => 3
    case Join => 2
    case StopDone => 1
    case StartContexts => 3
    case StartIo(_) => 2
    case StartCallbacks(_) => 1
    case _ => 0
  }

  /** Within a stage: the threads still to be created, or the work of those still to end. */
  function Remaining(s: State): nat {
    match OwnerCall(s)
    case StartCallbacks(n) => if |s.callbacks| < n then n - |s.callbacks| else 0
    case Join => Work(s)
    case _ => 0
  }

  /** The step that brings the owner closer: its own, or one of a thread it joins. */
  lemma OwnerMoves(s: State, threads: nat) returns (a: Step)
    requires Good(s) && s.owner.Some?
    ensures Enabled(s, a) && (a == Call(s.owner.value, threads, false) || (OwnerCall(s).Join? && ThreadStep(a)))
    ensures OwnerCall(s).Join? && !AllGone(s) ==> ThreadStep(a)
  {
    a := Call(s.owner.value, threads, false);
    if OwnerCall(s).Join? && !AllGone(s) {
      if !s.io.NoIo? {
        a := if s.io.IoIdle? then IoExits else IoNext;
      } else {
        var w :| 0 <= w < |s.callbacks| && !s.callbacks[w].CbGone?;
        a := if s.callbacks[w].CbIdle? then CallbackExits(w) else CallbackNext(w);
      }
    }
  }

  /** Its own step takes it to its next stage, or creates one more thread, or ends its ownership: a start with the
      service running and its threads in number, a stop with the service stopped. */
  lemma OwnerAdvances(s: State, threads: nat)
    requires Good(s) && s.owner.Some? && Enabled(s, Call(s.owner.value, threads, false))
    ensures
      var s' := CallStep(s, s.owner.value, threads, false);
      if s'.owner.None? then
        && s'.callers[s.owner.value].NoCall?
        && s'.service == (if InStart(OwnerCall(s)) then Running else Stopped)
      else
        && s'.owner == s.owner && s'.service == (if OwnerCall(s').StartContexts? then s'.service else s.service)
        && (InStart(OwnerCall(s')) <==> InStart(OwnerCall(s)))
        && (Stage(OwnerCall(s')) < Stage(OwnerCall(s))
            || (OwnerCall(s') == OwnerCall(s) && Remaining(s') < Remaining(s)))
        && (OwnerCall(s').StartIo? ==> OwnerCall(s').threads == threads)
        && (OwnerCall(s).StartIo? || OwnerCall(s).StartCallbacks? ==> OwnerCall(s').threads == OwnerCall(s).threads)
  {
  }

  lemma ThreadLeavesOwner(s: State, a: Step)
    requires Good(s) && Enabled(s, a) && ThreadStep(a) && OwnerCall(s).Join?
    ensures
      var s' := Apply(s, a);
      && s'.owner == s.owner && OwnerCall(s') == OwnerCall(s) && s'.callers == s.callers && Remaining(s') < Remaining(s)
      && s'.epoch == s.epoch && s'.service == s.service
  {
    ThreadLeavesCalls(s, a);
    ThreadStepWorks(s, a);
  }

  /** How many callback threads the service is to have. */
  function Wanted(c: CallPc, threads: nat): nat { if c.StartIo? || c.StartCallbacks? then c.threads else threads }

  /** Some schedule ends the ownership: a start in a service that runs with the threads it was to have, a stop in
      one that is stopped. */
  lemma {:induction false} OwnerEnds(s: State, threads: nat) returns (sched: seq<Step>)
    requires Good(s) && s.owner.Some?
    ensures Run(s, sched).Some? && Good(Run(s, sched).value)
    ensures
      var s' := Run(s, sched).value;
      && s'.owner.None? && |s'.callers| == |s.callers| && s'.callers[s.owner.value].NoCall?
      && (forall u :: 0 <= u < |s.callers| && u != s.owner.value ==> s'.callers[u] == s.callers[u])
      && s'.service == (if InStart(OwnerCall(s)) then Running else Stopped)
      && (InStart(OwnerCall(s)) ==> |s'.callbacks| == Wanted(OwnerCall(s), threads))
      && s'.epoch >= s.epoch + (if OwnerCall(s).Bump? then 1 else 0)
    decreases Stage(OwnerCall(s)), Remaining(s)
  {
    var a := OwnerMoves(s, threads);
    var s1 := Apply(s, a);
    StepKeepsGood(s, a);
    if ThreadStep(a) {
      ThreadLeavesOwner(s, a);
    } else {
      OwnerAdvances(s, threads);
      CallAlone(s, s.owner.value, threads, false);
      CallEpoch(s, s.owner.value, threads, false);
    }
    if s1.owner.None? {
      sched := [a];
      if InStart(OwnerCall(s)) {
        LastThread(s, threads);
      }
      assert [a] + [] == [a];
      Prepend(s, a, []);
    } else {
      var rest := OwnerEnds(s1, threads);
      sched := [a] + rest;
      Prepend(s, a, rest);
    }
  }

  lemma LastThread(s: State, threads: nat)
    requires Good(s) && s.owner.Some? && InStart(OwnerCall(s))
    requires Enabled(s, Call(s.owner.value, threads, false)) && CallStep(s, s.owner.value, threads, false).owner.None?
    ensures OwnerCall(s).StartCallbacks?
    ensures |CallStep(s, s.owner.value, threads, false).callbacks| == Wanted(OwnerCall(s), threads)
  {
  }

  // ---- start and shutdown ----

  /** A service that is stopped can be started, with as many callback threads as are asked for. */
  lemma CanStart(s: State, t: nat, threads: nat) returns (sched: seq<Step>)
    requires Reachable(s) && s.service.Stopped? && t < |s.callers| && s.callers[t].NoCall?
    ensures Run(s, sched).Some?
    ensures
      var s' := Run(s, sched).value;
      s'.service.Running? && |s'.callbacks| == threads && t < |s'.callers| && s'.callers[t].NoCall?
  {
    ReachableDelivery(s);
    var s1 := Apply(s, Start(t));
    StepKeepsGood(s, Start(t));
    var rest := OwnerEnds(s1, threads);
    sched := [Start(t)] + rest;
    Prepend(s, Start(t), rest);
  }

  /** A service that runs can be shut down; its threads are gone and its epoch has moved on. */
  lemma CanShutdown(s: State, t: nat) returns (sched: seq<Step>)
    requires Reachable(s) && s.service.Running? && t < |s.callers| && s.callers[t].NoCall?
    ensures Run(s, sched).Some?
    ensures
      var s' := Run(s, sched).value;
      s'.service.Stopped? && AllGone(s') && t < |s'.callers| && s'.callers[t].NoCall? && s'.epoch > s.epoch
  {
    ReachableDelivery(s);
    var a, b := Shutdown(t), Call(t, 0, false);
    var s1 := Apply(s, a);
    StepKeepsGood(s, a);
    var s2 := Apply(s1, b);
    assert s1.callers[t] == StopHave(Running);
    StepKeepsGood(s1, b);
    assert s2.callers[t].Bump? && s2.owner == Some(t);
    var rest := OwnerEnds(s2, 0);
    Prepend(s1, b, rest);
    Prepend(s, a, [b] + rest);
    sched := [a] + ([b] + rest);
  }

  // ---- delivery ----

  /** The rest of the service while a request is delivered. */
  predicate Same(s: State, s': State) {
    s'.service == s.service && s'.epoch == s.epoch && s'.callers == s.callers && s'.owner == s.owner
    && |s'.requests| == |s.requests| && |s'.callbacks| == |s.callbacks| && s'.inlineCallbacks == s.inlineCallbacks
  }

  lemma IoMoves(s: State)
    requires Enabled(s, IoNext)
    ensures
      var s' := IoStep(s);
      && Same(s, s') && s'.callbacks == s.callbacks
      && (forall r :: 0 <= r < |s.requests| && r != s.io.r ==> s'.requests[r] == s.requests[r])
      && (if s.io.IoCheck? && s.requests[s.io.r].epoch == s.epoch then s'.io == IoAct(s.io.r) else s'.io.IoIdle?)
  {
  }

  /** The I/O thread finishes what it has. */
  lemma {:induction false} IoIdles(s: State, r: nat) returns (sched: seq<Step>)
    requires Good(s) && s.service.Running? && r < |s.requests| && s.requests[r].phase.InFlight?
    ensures Run(s, sched).Some? && Good(Run(s, sched).value)
    ensures
      var s' := Run(s, sched).value;
      Same(s, s') && s'.io.IoIdle? && s'.requests[r] == s.requests[r]
    decreases if s.io.IoIdle? then 0 else if s.io.IoAct? then 1 else 2
  {
    if s.io.IoIdle? {
      sched := [];
    } else {
      IoMoves(s);
      StepKeepsGood(s, IoNext);
      var rest := IoIdles(Apply(s, IoNext), r);
      sched := [IoNext] + rest;
      Prepend(s, IoNext, rest);
    }
  }

  lemma CallbackMoves(s: State, w: nat)
    requires Enabled(s, CallbackNext(w))
    ensures
      var s' := CallbackStep(s, w);
      && Same(s, s')
      && (forall r :: 0 <= r < |s.requests| && r != s.callbacks[w].r ==> s'.requests[r] == s.requests[r])
      && (if s.callbacks[w].CbCheck? && s.requests[s.callbacks[w].r].epoch == s.epoch
          then s'.callbacks[w] == CbAct(s.callbacks[w].r) else s'.callbacks[w].CbIdle?)
  {
  }

  /** Callback thread w finishes what it has. */
  lemma {:induction false} CallbackIdles(s: State, w: nat, r: nat) returns (sched: seq<Step>)
    requires Good(s) && s.service.Running? && w < |s.callbacks| && r < |s.requests| && s.requests[r].phase.Queued?
    ensures Run(s, sched).Some? && Good(Run(s, sched).value)
    ensures
      var s' := Run(s, sched).value;
      Same(s, s') && s'.callbacks[w].CbIdle? && s'.requests[r] == s.requests[r]
    decreases if s.callbacks[w].CbIdle? then 0 else if s.callbacks[w].CbAct? then 1 else 2
  {
    if s.callbacks[w].CbIdle? {
      sched := [];
    } else {
      assert CallbackOk(s.callbacks[w], w, s.requests);
      CallbackMoves(s, w);
      StepKeepsGood(s, CallbackNext(w));
      var rest := CallbackIdles(Apply(s, CallbackNext(w)), w, r);
      sched := [CallbackNext(w)] + rest;
      Prepend(s, CallbackNext(w), rest);
    }
  }

  /** What delivery comes to. */
  predicate Delivered(q: Request, epoch: nat) { if q.epoch == epoch then q.phase.Started? else q.phase.Dropped? }

  lemma CallbackRuns(s: State, w: nat, r: nat) returns (sched: seq<Step>)
    requires Good(s) && w < |s.callbacks| && s.callbacks[w].CbIdle? && s.service.Running?
    requires r < |s.requests| && s.requests[r].phase.Queued?
    ensures Run(s, sched).Some? && Same(s, Run(s, sched).value)
    ensures Delivered(Run(s, sched).value.requests[r], s.epoch)
  {
    var s1 := Apply(s, CallbackTakes(w, r));
    var s2 := Apply(s1, CallbackNext(w));
    if s.requests[r].epoch == s.epoch {
      var s3 := Apply(s2, CallbackNext(w));
      Prepend(s2, CallbackNext(w), []);
      Prepend(s1, CallbackNext(w), [CallbackNext(w)] + []);
      Prepend(s, CallbackTakes(w, r), [CallbackNext(w)] + ([CallbackNext(w)] + []));
      sched := [CallbackTakes(w, r)] + ([CallbackNext(w)] + ([CallbackNext(w)] + []));
    } else {
      Prepend(s1, CallbackNext(w), []);
      Prepend(s, CallbackTakes(w, r), [CallbackNext(w)] + []);
      sched := [CallbackTakes(w, r)] + ([CallbackNext(w)] + []);
    }
  }

  /** The I/O thread takes an answered request: it starts its callback, queues it, or drops it. */
  lemma IoRuns(s: State, r: nat) returns (sched: seq<Step>)
    requires Good(s) && s.io.IoIdle? && s.service.Running? && r < |s.requests| && s.requests[r].phase.InFlight?
    ensures Run(s, sched).Some? && Good(Run(s, sched).value) && Same(s, Run(s, sched).value)
    ensures
      var q := Run(s, sched).value.requests[r];
      && q.epoch == s.requests[r].epoch
      && (Delivered(q, s.epoch) || (q.phase.Queued? && s.callbacks != []))
  {
    var s1 := Apply(s, IoTakes(r));
    StepKeepsGood(s, IoTakes(r));
    var s2 := Apply(s1, IoNext);
    StepKeepsGood(s1, IoNext);
    if s.requests[r].epoch == s.epoch {
      var s3 := Apply(s2, IoNext);
      StepKeepsGood(s2, IoNext);
      Prepend(s2, IoNext, []);
      Prepend(s1, IoNext, [IoNext] + []);
      Prepend(s, IoTakes(r), [IoNext] + ([IoNext] + []));
      sched := [IoTakes(r)] + ([IoNext] + ([IoNext] + []));
    } else {
      Prepend(s1, IoNext, []);
      Prepend(s, IoTakes(r), [IoNext] + []);
      sched := [IoTakes(r)] + ([IoNext] + []);
    }
  }

  /** A request in flight while the service runs can be delivered: its callback is started if no shutdown has moved
      the epoch on since it was made, and it is dropped if one has. */
  lemma CanDeliver(s: State, r: nat) returns (sched: seq<Step>)
    requires Reachable(s) && s.service.Running? && r < |s.requests| && s.requests[r].phase.InFlight?
    ensures Run(s, sched).Some? && r < |Run(s, sched).value.requests|
    ensures Delivered(Run(s, sched).value.requests[r], s.epoch)
  {
    ReachableDelivery(s);
    var idle := IoIdles(s, r);
    var s1 := Run(s, idle).value;
    var io := IoRuns(s1, r);
    var s2 := Run(s1, io).value;
    RunAppend(s, idle, io);
    sched := idle + io;
    if s2.requests[r].phase.Queued? {
      var free := CallbackIdles(s2, 0, r);
      var s3 := Run(s2, free).value;
      var last := CallbackRuns(s3, 0, r);
      RunAppend(s2, free, last);
      RunAppend(s, idle + io, free + last);
      sched := idle + io + (free + last);
    }
  }

  /** Every request that is made while the service runs is taken in, and can be delivered. */
  lemma NewRequestCanRun(s: State, hasExecutor: bool) returns (sched: seq<Step>)
    requires Reachable(s) && s.service.Running?
    ensures Run(s, [NewRequest(hasExecutor)] + sched).Some?
    ensures
      var s' := Run(s, [NewRequest(hasExecutor)] + sched).value;
      |s'.requests| > |s.requests| && s'.requests[|s.requests|].phase.Started?
  {
    var a := NewRequest(hasExecutor);
    var s1 := Apply(s, a);
    ReachableNext(s, a);
    sched := CanDeliver(s1, |s.requests|);
    Prepend(s, a, sched);
    EpochStays(s1, sched, |s.requests|);
  }

  lemma ReachableNext(s: State, a: Step)
    requires Reachable(s) && Enabled(s, a)
    ensures Reachable(Apply(s, a))
  {
    var s0: State, sched: seq<Step> :| Init(s0) && Run(s0, sched) == Some(s);
    Prepend(s, a, []);
    RunAppend(s0, sched, [a] + []);
  }

  lemma {:induction false} EpochStays(s: State, sched: seq<Step>, r: nat)
    requires Run(s, sched).Some? && r < |s.requests|
    ensures r < |Run(s, sched).value.requests| && Run(s, sched).value.requests[r].epoch == s.requests[r].epoch
    decreases |sched|
  {
    if sched != [] {
      var a := sched[0];
      if a.Call? { CallEpoch(s, a.t, a.threads, a.spurious); }
      else if !a.Start? && !a.Shutdown? { ThreadEpoch(s, a, r); }
      EpochStays(Apply(s, a), sched[1..], r);
    }
  }
}
