/** What a call has achieved when it returns, whichever way it returns. */
module ServiceThreadReturns {
  import opened Wrappers
  import opened ServiceThread
  import opened ServiceThreadProofs

  /** The call of thread t has returned at the end of the run, and not before. */
  predicate ReturnsAt(s: State, sched: seq<Step>, t: nat)
    requires Run(s, sched).Some?
    decreases |sched|
  {
    t < |s.threads| &&
    if s.threads[t].call.NoCall? then sched == [] else sched != [] && ReturnsAt(Apply(s, sched[0]), sched[1..], t)
  }

  /** A step of thread t leaves every other thread alone. */
  ghost predicate Elsewhere(s: State, t: nat, s': State) {
    && t < |s.threads| <= |s'.threads|
    && forall u :: 0 <= u < |s.threads| && u != t ==> s'.threads[u] == s.threads[u]
  }

  /** A step of a call moves that call, and neither the loop of its thread nor what the thread remembers. */
  ghost predicate CallOnly(s: State, t: nat, s': State) {
    && Elsewhere(s, t, s')
    && s'.threads[t].loop == s.threads[t].loop && s'.threads[t].existed == s.threads[t].existed
  }

  lemma TurnFrame(s: State, t: nat, spurious: bool)
    requires Enabled(s, Call(t, spurious)) && (s.threads[t].call.StartHave? || s.threads[t].call.StopHave?)
    ensures CallOnly(s, t, CallStep(s, t, spurious))
  {
  }

  lemma OwnFrame(s: State, t: nat, spurious: bool)
    requires Enabled(s, Call(t, spurious)) && Touches(s.threads[t].call)
    ensures CallOnly(s, t, CallStep(s, t, spurious))
  {
  }

  lemma CallFrame(s: State, t: nat, spurious: bool)
    requires Enabled(s, Call(t, spurious))
    ensures CallOnly(s, t, CallStep(s, t, spurious))
  {
    if s.threads[t].call.StartHave? || s.threads[t].call.StopHave? { TurnFrame(s, t, spurious); }
    else if Touches(s.threads[t].call) { OwnFrame(s, t, spurious); }
  }

  /** Any other step is one of a thread that is in no call. */
  lemma StepFrame(s: State, a: Step)
    requires Enabled(s, a) && !a.Call?
    ensures Elsewhere(s, a.t, Apply(s, a))
    ensures s.threads[a.t].call.NoCall?
  {
  }

  /** Only a step of thread t itself moves its call; no step makes an external thread a service thread. */
  lemma OthersKeepCall(s: State, a: Step, t: nat)
    requires Enabled(s, a) && t < |s.threads| && !s.threads[t].call.NoCall? && !(a.Call? && a.t == t)
    ensures t < |Apply(s, a).threads| && Apply(s, a).threads[t] == s.threads[t]
  {
    if a.Call? { CallFrame(s, a.t, a.spurious); } else { StepFrame(s, a); }
  }

  // ---- stop ----

  predicate InStopCall(c: CallPc) {
    c.StopHave? || c.StopRun? || c.StopIoc? || c.StopJoin? || c.StopDone? || c.AskRun? || c.AskIoc?
  }

  /** A stop goes on as a stop, on the thread it began on. */
  lemma StopStays(s: State, t: nat, spurious: bool)
    requires Enabled(s, Call(t, spurious)) && InStopCall(s.threads[t].call)
    ensures t < |CallStep(s, t, spurious).threads|
    ensures
      var c := CallStep(s, t, spurious).threads[t].call;
      InStopCall(c) || c.NoCall?
  {
    CallFrame(s, t, spurious);
  }

  /** Where a stop can return. */
  lemma StopExits(s: State, t: nat, spurious: bool)
    requires Enabled(s, Call(t, spurious)) && InStopCall(s.threads[t].call)
    requires t < |CallStep(s, t, spurious).threads| && CallStep(s, t, spurious).threads[t].call.NoCall?
    ensures
      || s.threads[t].call == StopHave(Stopped) || s.threads[t].call.StopDone?
      || (s.threads[t].call.AskRun? && !CallStep(s, t, spurious).run)
      || (s.threads[t].call.AskIoc? && CallStep(s, t, spurious).run == s.run)
  {
  }

  /** Only a stop that has found or made the service stopped leaves from outside the service thread; one from a
      callback leaves with run_ false. */
  lemma StopLeaves(s: State, t: nat, spurious: bool)
    requires Inv(s) && Enabled(s, Call(t, spurious)) && InStopCall(s.threads[t].call)
    requires t < |CallStep(s, t, spurious).threads| && CallStep(s, t, spurious).threads[t].call.NoCall?
    ensures
      var s' := CallStep(s, t, spurious);
      if OnService(s.threads[t]) then !s'.run
      else forall k :: 0 <= k < s.threads[t].existed && k < |s'.threads| ==> !Live(s'.threads[k])
  {
    assert ThreadOk(s.threads[t], t, ViewOf(s));
    StopExits(s, t, spurious);
    CallFrame(s, t, spurious);
    if !OnService(s.threads[t]) {
      forall k | 0 <= k < s.threads[t].existed ensures k < |s.threads| && !Live(s.threads[k]) {
        JoinedIsOver(s, t, k);
      }
    }
  }

  lemma {:induction false} StopRuns(s: State, sched: seq<Step>, t: nat, n: nat)
    requires Inv(s) && Run(s, sched).Some? && ReturnsAt(s, sched, t)
    requires InStopCall(s.threads[t].call) && s.threads[t].existed == n
    ensures
      var s' := Run(s, sched).value;
      if OnService(s.threads[t]) then !s'.run
      else forall k :: 0 <= k < n && k < |s'.threads| ==> !Live(s'.threads[k])
    decreases |sched|
  {
    var a := sched[0];
    var own := a.Call? && a.t == t;
    if own { StopStays(s, t, a.spurious); CallFrame(s, t, a.spurious); } else { OthersKeepCall(s, a, t); }
    if Apply(s, a).threads[t].call.NoCall? {
      StopLeaves(s, t, a.spurious);
      assert Run(s, sched) == Some(Apply(s, a));
    } else {
      StepKeepsInv(s, a);
      StopRuns(Apply(s, a), sched[1..], t, n);
    }
  }

  /** A stop from outside the service thread returns with every service thread ended that was there when it began;
      a stop from a callback returns with the loop asked to end. Whichever way it returns. */
  lemma StopWorks(s: State, sched: seq<Step>, t: nat)
    requires Reachable(s) && Enabled(s, BeginStop(t))
    requires Run(Apply(s, BeginStop(t)), sched).Some? && ReturnsAt(Apply(s, BeginStop(t)), sched, t)
    ensures
      var s' := Run(Apply(s, BeginStop(t)), sched).value;
      if OnService(s.threads[t]) then !s'.run
      else forall k :: 0 <= k < |s.threads| && k < |s'.threads| ==> !Live(s'.threads[k])
  {
    ReachableInv(s);
    StepKeepsInv(s, BeginStop(t));
    StopRuns(Apply(s, BeginStop(t)), sched, t, |s.threads|);
  }

  // ---- start ----

  predicate Up(v: Service) { v.Starting? || v.Running? }

  /** At some moment of the run the service is up or being brought up. */
  predicate UpSometime(s: State, sched: seq<Step>)
    requires Run(s, sched).Some?
    decreases |sched|
  {
    Up(s.service) || (sched != [] && UpSometime(Apply(s, sched[0]), sched[1..]))
  }

  /** A start that has not seen the service up: it looks at the state, or joins a thread it is to replace. */
  predicate Starts(c: CallPc) { (c.StartHave? && !Up(c.seen)) || c.StartJoin? || c.StartClaim? }

  lemma StartStays(s: State, t: nat, spurious: bool)
    requires Enabled(s, Call(t, spurious)) && Starts(s.threads[t].call) && !OnService(s.threads[t])
    ensures
      var s' := CallStep(s, t, spurious);
      && t < |s'.threads| && !OnService(s'.threads[t])
      && (Starts(s'.threads[t].call) || Up(s'.service) || (s'.threads[t].call.StartHave? && Up(s.service)))
  {
  }

  lemma {:induction false} StartRuns(s: State, sched: seq<Step>, t: nat)
    requires Run(s, sched).Some? && ReturnsAt(s, sched, t)
    requires Starts(s.threads[t].call) && !OnService(s.threads[t])
    ensures UpSometime(s, sched)
    decreases |sched|
  {
    var a, s1 := sched[0], Apply(s, sched[0]);
    if a.Call? && a.t == t { StartStays(s, t, a.spurious); } else { OthersKeepCall(s, a, t); }
    if !Up(s.service) && !Up(s1.service) {
      StartRuns(s1, sched[1..], t);
    }
  }

  /** A start from outside the service thread returns only if the service was up, or was being brought up, by it
      or by somebody else, while it was called. */
  lemma StartWorks(s: State, sched: seq<Step>, t: nat)
    requires Enabled(s, BeginStart(t)) && !OnService(s.threads[t])
    requires Run(Apply(s, BeginStart(t)), sched).Some? && ReturnsAt(Apply(s, BeginStart(t)), sched, t)
    ensures UpSometime(Apply(s, BeginStart(t)), sched)
  {
    if !Up(s.service) {
      StartRuns(Apply(s, BeginStart(t)), sched, t);
    }
  }

  // ---- the loop ----

  /** With busy polling switched off, and not on again, the loop never polls anew: it goes back to blocking. */
  lemma {:induction false} BusyOffHolds(s: State, sched: seq<Step>, t: nat)
    requires Enabled(s, BusyOff(t)) && Run(Apply(s, BusyOff(t)), sched).Some?
    requires forall a :: a in sched ==> !a.BusyOn?
    ensures !Run(Apply(s, BusyOff(t)), sched).value.busy
  {
    StaysOff(Apply(s, BusyOff(t)), sched);
  }

  lemma StepStaysOff(s: State, a: Step)
    requires Enabled(s, a) && !s.busy && !a.BusyOn?
    ensures !Apply(s, a).busy
  {
  }

  lemma {:induction false} StaysOff(s: State, sched: seq<Step>)
    requires !s.busy && Run(s, sched).Some? && forall a :: a in sched ==> !a.BusyOn?
    ensures !Run(s, sched).value.busy
    decreases |sched|
  {
    if sched != [] {
      assert sched[0] in sched;
      StepStaysOff(s, sched[0]);
      StaysOff(Apply(s, sched[0]), sched[1..]);
    }
  }

  /** A loop begins to poll exactly while busy polling is on, and to block exactly while it is off. */
  lemma LoopFollowsSwitch(s: State, a: Step, k: nat)
    requires Enabled(s, a) && k < |s.threads|
    ensures k < |Apply(s, a).threads|
    ensures !s.threads[k].loop.InPoll? && Apply(s, a).threads[k].loop.InPoll? ==> s.busy
    ensures !s.threads[k].loop.InRun? && Apply(s, a).threads[k].loop.InRun? ==> !s.busy
  {
    if a.Call? { CallFrame(s, a.t, a.spurious); } else { StepFrame(s, a); OwnLoopFollowsSwitch(s, a); }
  }

  lemma OwnLoopFollowsSwitch(s: State, a: Step)
    requires Enabled(s, a) && !a.Call?
    ensures a.t < |Apply(s, a).threads|
    ensures !s.threads[a.t].loop.InPoll? && Apply(s, a).threads[a.t].loop.InPoll? ==> s.busy
    ensures !s.threads[a.t].loop.InRun? && Apply(s, a).threads[a.t].loop.InRun? ==> !s.busy
  {
  }

  /** The loop of thread k's way to a context that is not stopped. */
  function Clearer(s: State, k: nat): Step
    requires k < |s.threads|
  {
    if s.threads[k].loop.InRun? then RunReturns(k)
    else if s.threads[k].loop.InPoll? then PollReturns(k, true)
    else Loop(k)
  }

  function ClearRank(l: LoopPc): nat {
    match l
    case CheckRun => 5
    case CheckPoll => 4
    case InRun => 3
    case InPoll => 3
    case PolledNone => 2
    case Restart => 1
    case Begin => 1
    case _ => 0
  }

  lemma ClearerMoves(s: State, k: nat)
    requires k < |s.threads| && s.threads[k].call.NoCall? && s.run && s.iocStopped
    requires Live(s.threads[k]) && !s.threads[k].loop.Exiting?
    ensures Enabled(s, Clearer(s, k))
    ensures
      var s' := Apply(s, Clearer(s, k));
      && k < |s'.threads| && s'.threads[k].call.NoCall? && s'.run && Live(s'.threads[k]) && !s'.threads[k].loop.Exiting?
      && (s'.iocStopped ==> ClearRank(s'.threads[k].loop) < ClearRank(s.threads[k].loop))
  {
  }

  /** A stop of the io_context that was not meant to end the service, such as that of a busy-poll switch, is undone
      by the loop within six of its steps: the service goes on serving. */
  lemma {:induction false} ServesAgain(s: State, k: nat) returns (sched: seq<Step>)
    requires k < |s.threads| && s.threads[k].call.NoCall? && s.run && Live(s.threads[k]) && !s.threads[k].loop.Exiting?
    ensures Run(s, sched).Some? && |sched| <= ClearRank(s.threads[k].loop) + 1
    ensures
      var s' := Run(s, sched).value;
      && k < |s'.threads| && !s'.iocStopped && s'.run && Live(s'.threads[k]) && !s'.threads[k].loop.Exiting?
    decreases ClearRank(s.threads[k].loop)
  {
    if !s.iocStopped {
      sched := [];
    } else {
      var a := Clearer(s, k);
      ClearerMoves(s, k);
      var s1 := Apply(s, a);
      if s1.iocStopped {
        var rest := ServesAgain(s1, k);
        sched := [a] + rest;
        assert sched[1..] == rest;
      } else {
        sched := [a];
        assert sched[1..] == [];
      }
    }
  }
}
