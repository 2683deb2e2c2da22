/** The service comes up and goes down when it is told to, and every call can return. */
module ServiceThreadLifecycle {
  import opened Wrappers
  import opened ServiceThread
  import opened ServiceThreadProofs
  import opened ServiceThreadProgress
  import opened ServiceThreadReturns

  lemma Prepend(s: State, a: Step, rest: seq<Step>)
    requires Enabled(s, a) && Run(Apply(s, a), rest).Some?
    ensures Run(s, [a] + rest) == Run(Apply(s, a), rest)
  {
    assert ([a] + rest)[1..] == rest;
  }

  lemma {:induction false} RunAppend(s: State, a: seq<Step>, b: seq<Step>)
    requires Run(s, a).Some? && Run(Run(s, a).value, b).Some?
    ensures Run(s, a + b) == Run(Run(s, a).value, b)
    decreases |a|
  {
    if a == [] {
      assert a + b == b;
    } else {
      assert (a + b)[1..] == a[1..] + b;
      RunAppend(Apply(s, a[0]), a[1..], b);
    }
  }

  /** A call that has won its compare-and-swap comes to its end. */
  lemma WinnerEnds(s: State, t: nat) returns (sched: seq<Step>)
    requires Inv(s) && s.owner == Some(t)
    ensures Run(s, sched).Some? && Inv(Run(s, sched).value)
    ensures
      var s' := Run(s, sched).value;
      && t < |s'.threads| && s'.threads[t].call.NoCall?
      && s'.service == (if StartSide(s.threads[t].call) then Running else Stopped)
  {
    assert ThreadOk(s.threads[t], t, ViewOf(s));
    sched := OwnershipEnds(s);
  }

  /** A stopped service can be started by any thread outside of it. */
  lemma CanStart(s: State, t: nat) returns (sched: seq<Step>)
    requires Reachable(s) && s.service.Stopped? && t < |s.threads|
    requires s.threads[t].loop.Outside? && s.threads[t].call.NoCall?
    ensures Run(s, sched).Some? && t < |Run(s, sched).value.threads|
    ensures Run(s, sched).value.service.Running? && Run(s, sched).value.threads[t].call.NoCall?
  {
    ReachableInv(s);
    var a, b := BeginStart(t), Call(t, false);
    var s1 := Apply(s, a);
    StepKeepsInv(s, a);
    assert s1.threads[t].call == StartHave(Stopped);
    var s2 := Apply(s1, b);
    StepKeepsInv(s1, b);
    assert s2.owner == Some(t) && s2.threads[t].call.StartRun?;
    var rest := WinnerEnds(s2, t);
    Prepend(s1, b, rest);
    Prepend(s, a, [b] + rest);
    sched := [a] + ([b] + rest);
  }

  /** A service that runs, or was asked to stop by one of its callbacks, can be stopped by any thread outside of it. */
  lemma CanStop(s: State, t: nat) returns (sched: seq<Step>)
    requires Reachable(s) && (s.service.Running? || s.service.StopRequested?) && t < |s.threads|
    requires s.threads[t].loop.Outside? && s.threads[t].call.NoCall?
    ensures Run(s, sched).Some? && t < |Run(s, sched).value.threads|
    ensures Run(s, sched).value.service.Stopped? && Run(s, sched).value.threads[t].call.NoCall?
  {
    ReachableInv(s);
    var a, b := BeginStop(t), Call(t, false);
    var s1 := Apply(s, a);
    StepKeepsInv(s, a);
    assert s1.threads[t].call == StopHave(s.service) && s1.service == s.service;
    var s2 := Apply(s1, b);
    StepKeepsInv(s1, b);
    assert s2.owner == Some(t) && s2.threads[t].call.StopRun?;
    var rest := WinnerEnds(s2, t);
    Prepend(s1, b, rest);
    Prepend(s, a, [b] + rest);
    sched := [a] + ([b] + rest);
  }

  /** A service that was asked to stop can be started again: the old thread is joined first. */
  lemma CanRestart(s: State, t: nat) returns (sched: seq<Step>)
    requires Reachable(s) && s.service.StopRequested? && t < |s.threads|
    requires s.threads[t].loop.Outside? && s.threads[t].call.NoCall?
    ensures Run(s, sched).Some? && t < |Run(s, sched).value.threads|
    ensures Run(s, sched).value.service.Running? && Run(s, sched).value.threads[t].call.NoCall?
  {
    ReachableInv(s);
    var a, b := BeginStart(t), Call(t, false);
    var s1 := Apply(s, a);
    StepKeepsInv(s, a);
    assert s1.threads[t].call == StartHave(StopRequested);
    var s2 := Apply(s1, b);
    StepKeepsInv(s1, b);
    assert s2.owner == Some(t) && s2.threads[t].call.StartJoin?;
    var rest := WinnerEnds(s2, t);
    Prepend(s1, b, rest);
    Prepend(s, a, [b] + rest);
    sched := [a] + ([b] + rest);
  }

  /** A callback can ask the service it runs on to stop; the call returns with the request made and run_ false. */
  lemma CallbackCanStop(s: State, k: nat) returns (sched: seq<Step>)
    requires Reachable(s) && s.service.Running? && k < |s.threads| && s.threads[k].call.NoCall?
    requires s.threads[k].loop.InRun? || s.threads[k].loop.InPoll?
    ensures Run(s, sched).Some? && k < |Run(s, sched).value.threads|
    ensures Run(s, sched).value.service.StopRequested? && !Run(s, sched).value.run
    ensures Run(s, sched).value.threads[k].call.NoCall?
  {
    ReachableInv(s);
    var a, b := BeginStop(k), Call(k, false);
    var s1 := Apply(s, a);
    assert s1.threads[k].call == StopHave(Running) && s1.service.Running?;
    var s2 := Apply(s1, b);
    assert s2.threads[k].call.AskRun? && s2.service.StopRequested?;
    var rest := AskEnds(s2, k);
    Prepend(s1, b, rest);
    Prepend(s, a, [b] + rest);
    sched := [a] + ([b] + rest);
  }

  /** The request itself. */
  lemma AskEnds(s: State, k: nat) returns (sched: seq<Step>)
    requires k < |s.threads| && s.threads[k].call.AskRun?
    ensures Run(s, sched).Some? && k < |Run(s, sched).value.threads|
    ensures Run(s, sched).value.service == s.service && !Run(s, sched).value.run
    ensures Run(s, sched).value.threads[k].call.NoCall?
  {
    var b := Call(k, false);
    var s1 := Apply(s, b);
    if s1.threads[k].call.NoCall? {
      Prepend(s, b, []);
      sched := [b] + [];
    } else {
      assert s1.threads[k].call.AskIoc?;
      Prepend(s1, b, []);
      Prepend(s, b, [b] + []);
      sched := [b] + ([b] + []);
    }
  }

  /** Busy polling can be switched on and off from everywhere. */
  lemma CanSwitch(s: State, t: nat)
    requires MayCall(s, t)
    ensures Enabled(s, BusyOn(t)) && Apply(s, BusyOn(t)).busy
    ensures Enabled(s, BusyOff(t)) && !Apply(s, BusyOff(t)).busy
  {
  }

  // ---- every call can return ----

  function TurnRank(c: CallPc, v: Service): nat {
    match c
    case NoCall => 0
    case PollIoc => 1
    case AskIoc => 1
    case AskRun => 2
    case StartHave(seen) => if seen == v then 3 else 4
    case StopHave(seen) => if seen == v then 3 else 4
    case _ => 0
  }

  lemma TurnMoves(s: State, t: nat)
    requires Inv(s) && s.owner.None? && t < |s.threads| && !s.threads[t].call.NoCall?
    ensures Enabled(s, Call(t, false))
    ensures
      var s' := CallStep(s, t, false);
      && t < |s'.threads|
      && (s'.owner == Some(t)
          || (s'.owner.None?
              && TurnRank(s'.threads[t].call, s'.service) < TurnRank(s.threads[t].call, s.service)))
  {
    assert ThreadOk(s.threads[t], t, ViewOf(s));
  }

  lemma {:induction false} UnownedCallReturns(s: State, t: nat) returns (sched: seq<Step>)
    requires Inv(s) && s.owner.None? && t < |s.threads|
    ensures Run(s, sched).Some? && t < |Run(s, sched).value.threads| && Run(s, sched).value.threads[t].call.NoCall?
    decreases TurnRank(s.threads[t].call, s.service)
  {
    if s.threads[t].call.NoCall? {
      sched := [];
    } else {
      var a := Call(t, false);
      TurnMoves(s, t);
      StepKeepsInv(s, a);
      var rest: seq<Step>;
      if Apply(s, a).owner == Some(t) {
        rest := WinnerEnds(Apply(s, a), t);
      } else {
        rest := UnownedCallReturns(Apply(s, a), t);
      }
      Prepend(s, a, rest);
      sched := [a] + rest;
    }
  }

  /** Whatever call a thread is in, and whatever the others are doing, some schedule lets it return. */
  lemma CallCanReturn(s: State, t: nat) returns (sched: seq<Step>)
    requires Reachable(s) && t < |s.threads|
    ensures Run(s, sched).Some? && t < |Run(s, sched).value.threads| && Run(s, sched).value.threads[t].call.NoCall?
  {
    ReachableInv(s);
    var first := OwnershipEnds(s);
    var s1 := Run(s, first).value;
    ThreadsStay(s, first);
    var rest := UnownedCallReturns(s1, t);
    RunAppend(s, first, rest);
    sched := first + rest;
  }

  lemma {:induction false} ThreadsStay(s: State, sched: seq<Step>)
    requires Run(s, sched).Some?
    ensures |Run(s, sched).value.threads| >= |s.threads|
    decreases |sched|
  {
    if sched != [] {
      StepKeepsThreads(s, sched[0]);
      ThreadsStay(Apply(s, sched[0]), sched[1..]);
    }
  }

  lemma StepKeepsThreads(s: State, a: Step)
    requires Enabled(s, a)
    ensures |Apply(s, a).threads| >= |s.threads|
  {
    if a.Call? { CallFrame(s, a.t, a.spurious); } else { StepFrame(s, a); }
  }
}
