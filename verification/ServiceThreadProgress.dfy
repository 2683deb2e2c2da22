/** Freedom from deadlock: whoever owns the thread object can always be brought to give it up. */
module ServiceThreadProgress {
  import opened Wrappers
  import opened ServiceThread
  import opened ServiceThreadProofs

  /** Thread t is in a loop that only yields, or in a join that is not over. */
  predicate Waiting(s: State, t: nat)
    requires t < |s.threads|
  {
    var th := s.threads[t];
    || (th.call == StartHave(Stopping) && !OnService(th) && s.service.Stopping?)
    || (th.call == StopHave(Starting) && s.service.Starting?)
    || (th.call == StopHave(Stopping) && !OnService(th) && s.service.Stopping?)
    || ((th.call.StartJoin? || th.call.StopJoin?) && !JoinReady(s))
  }

  /** The step that brings the owner closer to its end: its own, or one of the thread it joins. */
  function Mover(s: State): Step
    requires s.owner.Some? && s.owner.value < |s.threads|
    requires s.handle.Some? ==> s.handle.value < |s.threads|
  {
    var c := s.threads[s.owner.value].call;
    if s.handle.None? || JoinReady(s) || !(c.StartJoin? || c.StopJoin?) then Call(s.owner.value, false)
    else
      var k := s.handle.value;
      if !s.threads[k].call.NoCall? then Call(k, false)
      else if s.threads[k].loop.InRun? then RunReturns(k)
      else if s.threads[k].loop.InPoll? then PollReturns(k, false)
      else Loop(k)
  }

  function OwnerRank(c: CallPc): nat {
    match c
    case StartJoin => 6
    case StartClaim => 5
    case StartRun => 4
    case StartSpawn => 3
    case StartAssign(_) => 2
    case StartDone => 1
    case StopRun => 4
    case StopIoc => 3
    case StopJoin => 2
    case StopDone => 1
    case _ => 0
  }

  function CallRank(c: CallPc): (r: nat)
    ensures r < 10
  {
    match c
    case NoCall => 0
    case StopHave(seen) => if seen.Stopping? then 4 else 5
    case AskRun => 3
    case AskIoc => 2
    case _ => 1
  }

  function LoopRank(l: LoopPc): (r: nat)
    ensures r < 10
  {
    match l
    case CheckPoll => 9
    case InRun => 8
    case InPoll => 8
    case Begin => 7
    case PolledNone => 7
    case Restart => 6
    case CheckRun => 5
    case Exiting => 4
    case _ => 0
  }

  function ThreadRank(th: Thread): (r: nat)
    ensures r < 100
  {
    10 * LoopRank(th.loop) + CallRank(th.call)
  }

  /** How far the owner is from giving the thread object up, and, while it joins, the joined thread from its end. */
  function Measure(s: State): nat {
    200 * OwnerRank(ViewOf(s).ownerCall)
    + (if Joining(ViewOf(s).ownerCall) && s.handle.Some? && s.handle.value < |s.threads|
       then ThreadRank(s.threads[s.handle.value])
       else 0)
  }

  // ---- every run of an owner is bounded ----

  /** A step of the owner, or of the thread it joins. */
  predicate OwnStep(s: State, a: Step)
    requires s.owner.Some?
  {
    || (a.Call? && a.t == s.owner.value)
    || (Joining(ViewOf(s).ownerCall) && s.handle == Some(a.t) && !IsNewCall(a) && !a.BusyOff?)
  }

  predicate IsNewCall(a: Step) { a.BeginStart? || a.BeginStop? || a.BusyOn? }

  /** A step of the owner. */
  lemma OwnerCallLowers(s: State, o: nat, spurious: bool)
    requires Enabled(s, Call(o, spurious)) && Touches(s.threads[o].call) && s.owner == Some(o)
    ensures
      var s' := CallStep(s, o, spurious);
      && o < |s'.threads| && OwnerRank(s'.threads[o].call) < OwnerRank(s.threads[o].call)
      && (s'.owner == s.owner || s'.owner.None?)
  {
  }

  lemma OwnerStepLowers(s: State, spurious: bool)
    requires Inv(s) && s.owner.Some? && Enabled(s, Call(s.owner.value, spurious))
    ensures Measure(Apply(s, Call(s.owner.value, spurious))) < Measure(s)
  {
    assert ThreadOk(s.threads[s.owner.value], s.owner.value, ViewOf(s));
    OwnerCallLowers(s, s.owner.value, spurious);
  }

  /** A step that leaves all but the rank of the joined thread as it is. */
  lemma JoinedLowers(s: State, s': State, k: nat)
    requires s.handle == Some(k) == s'.handle && k < |s.threads| && |s'.threads| == |s.threads|
    requires s'.owner == s.owner && s.owner.Some? && s.owner.value < |s.threads|
    requires s'.threads[s.owner.value] == s.threads[s.owner.value] && Joining(s.threads[s.owner.value].call)
    requires ThreadRank(s'.threads[k]) < ThreadRank(s.threads[k])
    ensures Measure(s') < Measure(s)
  {
  }

  /** A call of the joined thread, which can be no start and finds the state stopping. */
  lemma JoinedCallRanks(s: State, k: nat, spurious: bool)
    requires Enabled(s, Call(k, spurious)) && s.service.Stopping? && OnService(s.threads[k])
    requires !Touches(s.threads[k].call) && s.threads[k].call != StopHave(Stopped)
    ensures
      var s' := CallStep(s, k, spurious);
      && |s'.threads| == |s.threads| && s'.handle == s.handle && s'.owner == s.owner
      && s'.threads == s.threads[k := s'.threads[k]] && ThreadRank(s'.threads[k]) < ThreadRank(s.threads[k])
  {
  }

  lemma JoinedCallLowers(s: State, k: nat, spurious: bool)
    requires Inv(s) && Joining(ViewOf(s).ownerCall) && s.handle == Some(k) && Enabled(s, Call(k, spurious))
    requires s.owner != Some(k)
    ensures Measure(Apply(s, Call(k, spurious))) < Measure(s)
  {
    assert ThreadOk(s.threads[k], k, ViewOf(s));
    JoinedCallRanks(s, k, spurious);
    JoinedLowers(s, CallStep(s, k, spurious), k);
  }

  predicate IsLoopStep(a: Step, k: nat) {
    a == Loop(k) || a == RunReturns(k) || a == HandlerThrows(k) || (a.PollReturns? && a.t == k)
  }

  /** The loop of the joined thread, with run_ false. */
  lemma JoinedLoopRanks(s: State, k: nat, a: Step)
    requires Enabled(s, a) && IsLoopStep(a, k) && !s.run
    ensures
      var s' := Apply(s, a);
      && |s'.threads| == |s.threads| && s'.handle == s.handle && s'.owner == s.owner
      && s'.threads == s.threads[k := s'.threads[k]] && ThreadRank(s'.threads[k]) < ThreadRank(s.threads[k])
  {
  }

  lemma JoinedLoopLowers(s: State, k: nat, a: Step)
    requires Inv(s) && Joining(ViewOf(s).ownerCall) && s.handle == Some(k) && Enabled(s, a) && IsLoopStep(a, k)
    ensures Measure(Apply(s, a)) < Measure(s)
  {
    assert ThreadOk(s.threads[k], k, ViewOf(s));
    JoinedLoopRanks(s, k, a);
    JoinedLowers(s, Apply(s, a), k);
  }

  lemma OwnStepLowers(s: State, a: Step)
    requires Inv(s) && s.owner.Some? && Enabled(s, a) && OwnStep(s, a)
    ensures Measure(Apply(s, a)) < Measure(s)
  {
    if a.Call? && a.t == s.owner.value {
      OwnerStepLowers(s, a.spurious);
    } else if a.Call? {
      JoinedCallLowers(s, a.t, a.spurious);
    } else {
      JoinedLoopLowers(s, a.t, a);
    }
  }

  /** No compare-and-swap wins while the thread object is owned. */
  lemma NoWinner(s: State, t: nat, spurious: bool)
    requires (s.service.Starting? || s.service.Stopping?) && Enabled(s, Call(t, spurious))
    requires s.threads[t].call.StartHave? || s.threads[t].call.StopHave?
    ensures var s' := Apply(s, Call(t, spurious)); t < |s'.threads| && s' == At(s, t, s'.threads[t].call)
  {
  }

  lemma OtherTurnKeeps(s: State, t: nat, spurious: bool)
    requires Inv(s) && s.owner.Some? && Enabled(s, Call(t, spurious)) && !OwnStep(s, Call(t, spurious))
    requires s.threads[t].call.StartHave? || s.threads[t].call.StopHave?
    ensures Apply(s, Call(t, spurious)).owner == s.owner && Measure(Apply(s, Call(t, spurious))) == Measure(s)
  {
    assert ThreadOk(s.threads[t], t, ViewOf(s));
    NoWinner(s, t, spurious);
  }

  lemma OtherCallKeeps(s: State, t: nat, spurious: bool)
    requires Inv(s) && s.owner.Some? && Enabled(s, Call(t, spurious)) && !OwnStep(s, Call(t, spurious))
    ensures Apply(s, Call(t, spurious)).owner == s.owner && Measure(Apply(s, Call(t, spurious))) == Measure(s)
  {
    assert ThreadOk(s.threads[t], t, ViewOf(s));
    if s.threads[t].call.StartHave? || s.threads[t].call.StopHave? {
      OtherTurnKeeps(s, t, spurious);
    } else {
      assert s.threads[t].call.AskRun? || s.threads[t].call.AskIoc? || s.threads[t].call.PollIoc?;
    }
  }

  lemma NewCallKeeps(s: State, a: Step)
    requires Inv(s) && s.owner.Some? && Enabled(s, a) && (IsNewCall(a) || a.BusyOff?)
    ensures Apply(s, a).owner == s.owner
    ensures Measure(Apply(s, a)) <= Measure(s) + (if IsNewCall(a) then 10 else 0)
  {
    assert ThreadOk(s.threads[s.owner.value], s.owner.value, ViewOf(s));
  }

  lemma LoopIsLocal(s: State, a: Step)
    requires Enabled(s, a) && IsLoopStep(a, a.t)
    ensures
      var s' := Apply(s, a);
      && |s'.threads| == |s.threads| && s'.threads == s.threads[a.t := s'.threads[a.t]]
      && s'.threads[a.t].call == s.threads[a.t].call && s'.owner == s.owner && s'.handle == s.handle
  {
  }

  lemma OtherLoopKeeps(s: State, a: Step)
    requires Inv(s) && s.owner.Some? && Enabled(s, a) && !OwnStep(s, a) && IsLoopStep(a, a.t)
    ensures Apply(s, a).owner == s.owner && Measure(Apply(s, a)) == Measure(s)
  {
    LoopIsLocal(s, a);
  }

  /** Another thread takes neither the ownership nor the joined thread along; a new call of the joined thread
      adds a few steps. */
  lemma OtherStepKeeps(s: State, a: Step)
    requires Inv(s) && s.owner.Some? && Enabled(s, a) && !OwnStep(s, a)
    ensures Apply(s, a).owner == s.owner
    ensures Measure(Apply(s, a)) <= Measure(s) + (if IsNewCall(a) then 10 else 0)
  {
    if a.Call? {
      OtherCallKeeps(s, a.t, a.spurious);
    } else if IsNewCall(a) || a.BusyOff? {
      NewCallKeeps(s, a);
    } else {
      OtherLoopKeeps(s, a);
    }
  }

  function NewCalls(sched: seq<Step>): nat {
    if sched == [] then 0 else (if IsNewCall(sched[0]) then 1 else 0) + NewCalls(sched[1..])
  }

  /** How many steps of a run the owner and the thread it joins take until the ownership ends. */
  function OwnSteps(s: State, sched: seq<Step>): nat
    requires Run(s, sched).Some?
    decreases |sched|
  {
    if sched == [] || s.owner.None? then 0
    else (if OwnStep(s, sched[0]) then 1 else 0) + OwnSteps(Apply(s, sched[0]), sched[1..])
  }

  /** The mover is at hand: a thread that is being joined does not wait on the owner that joins it, and its loop,
      told to stop, is not blocked. */
  lemma MoverIsEnabled(s: State)
    requires Inv(s) && s.owner.Some?
    ensures Enabled(s, Mover(s)) && OwnStep(s, Mover(s))
  {
    var o := s.owner.value;
    var c := s.threads[o].call;
    assert ThreadOk(s.threads[o], o, ViewOf(s));
    if Joining(c) && !JoinReady(s) {
      assert ThreadOk(s.threads[s.handle.value], s.handle.value, ViewOf(s));
    }
  }

  /** Whatever the schedule, the ownership is over after a bounded number of steps of the owner and of the thread
      it joins: at most the measure, and ten for each new call. With MoverIsEnabled one of them is always possible, so
      nothing but a scheduler that never lets them run can keep the thread object owned. */
  lemma {:induction false} OwnershipIsBounded(s: State, sched: seq<Step>)
    requires Inv(s) && Run(s, sched).Some?
    ensures OwnSteps(s, sched) <= Measure(s) + 10 * NewCalls(sched)
    decreases |sched|
  {
    if sched != [] && s.owner.Some? {
      var a := sched[0];
      StepKeepsInv(s, a);
      if OwnStep(s, a) {
        OwnStepLowers(s, a);
      } else {
        OtherStepKeeps(s, a);
      }
      OwnershipIsBounded(Apply(s, a), sched[1..]);
    }
  }

  /** The owner is starting the service, and joins only to make room for that. */
  predicate StartSide(c: CallPc) { InStart(c) || c.StartJoin? || c.StartClaim? }

  /** A step of the owner keeps it on its way, or ends its call with the service up or down. */
  lemma OwnerArrives(s: State, o: nat, spurious: bool)
    requires Enabled(s, Call(o, spurious)) && Touches(s.threads[o].call) && s.owner == Some(o)
    ensures
      var s', c := CallStep(s, o, spurious), s.threads[o].call;
      o < |s'.threads| &&
      if s'.owner.None? then
        s'.threads[o].call.NoCall? && s'.service == (if StartSide(c) then Running else Stopped)
      else
        s'.owner == s.owner && (StartSide(s'.threads[o].call) <==> StartSide(c))
  {
  }

  /** From every state in which the thread object is owned some schedule ends the ownership: a start with the
      service running, a stop with the service stopped. */
  lemma {:induction false} OwnershipEnds(s: State) returns (sched: seq<Step>)
    requires Inv(s)
    ensures Run(s, sched).Some? && Inv(Run(s, sched).value) && Run(s, sched).value.owner.None?
    ensures |sched| <= Measure(s)
    ensures
      s.owner.Some? ==>
        var s' := Run(s, sched).value;
        && s.owner.value < |s'.threads| && s'.threads[s.owner.value].call.NoCall?
        && s'.service == (if StartSide(ViewOf(s).ownerCall) then Running else Stopped)
    decreases Measure(s)
  {
    if s.owner.None? {
      sched := [];
    } else {
      MoverIsEnabled(s);
      OwnStepLowers(s, Mover(s));
      StepKeepsInv(s, Mover(s));
      MoverKeepsSide(s);
      var rest := OwnershipEnds(Apply(s, Mover(s)));
      sched := [Mover(s)] + rest;
      assert sched[1..] == rest;
    }
  }

  lemma MoverKeepsSide(s: State)
    requires Inv(s) && s.owner.Some? && Enabled(s, Mover(s)) && OwnStep(s, Mover(s)) && Inv(Apply(s, Mover(s)))
    ensures
      var s', o := Apply(s, Mover(s)), s.owner.value;
      if s'.owner.None? then
        && o < |s'.threads| && s'.threads[o].call.NoCall?
        && s'.service == (if StartSide(ViewOf(s).ownerCall) then Running else Stopped)
      else
        s'.owner == s.owner && (StartSide(ViewOf(s').ownerCall) <==> StartSide(ViewOf(s).ownerCall))
  {
    var o := s.owner.value;
    assert ThreadOk(s.threads[o], o, ViewOf(s));
    if Mover(s).Call? && Mover(s).t == o {
      OwnerArrives(s, o, Mover(s).spurious);
    } else {
      JoinedKeepsOwner(s, Mover(s));
    }
  }

  /** A step of the joined thread leaves the owner alone. */
  lemma JoinedKeepsOwner(s: State, a: Step)
    requires Inv(s) && s.owner.Some? && Enabled(s, a) && OwnStep(s, a) && !(a.Call? && a.t == s.owner.value)
    ensures
      var s' := Apply(s, a);
      s'.owner == s.owner && ViewOf(s').ownerCall == ViewOf(s).ownerCall
  {
    var k := a.t;
    assert ThreadOk(s.threads[k], k, ViewOf(s));
    assert ThreadOk(s.threads[s.owner.value], s.owner.value, ViewOf(s));
    if a.Call? { JoinedCallRanks(s, k, a.spurious); } else { LoopIsLocal(s, a); }
  }

  /** No deadlock: a thread that waits can always be released, and by a bounded number of steps. */
  lemma WaiterIsReleased(s: State, t: nat) returns (sched: seq<Step>)
    requires Reachable(s) && t < |s.threads| && Waiting(s, t)
    ensures Run(s, sched).Some? && 0 < |sched| <= 1300
    ensures !Run(s, sched).value.service.Starting? && !Run(s, sched).value.service.Stopping?
    ensures t < |Run(s, sched).value.threads| ==> !Waiting(Run(s, sched).value, t)
  {
    ReachableInv(s);
    assert ThreadOk(s.threads[t], t, ViewOf(s));
    sched := OwnershipEnds(s);
    RunKeepsInv(s, sched);
    var s' := Run(s, sched).value;
    if t < |s'.threads| {
      assert ThreadOk(s'.threads[t], t, ViewOf(s'));
    }
  }
}
