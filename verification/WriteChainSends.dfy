/** What a send has achieved when it returns, and that it can return. */
module WriteChainSends {
  import opened Wrappers
  import opened WriteChain
  import opened WriteChainProofs

  // ---- slots ----

  /** A slot keeps its record and its owner, and stays visible once it is. */
  ghost predicate SlotsKept(s: State, s': State) {
    && |s.slots| <= |s'.slots|
    && forall i :: 0 <= i < |s.slots| ==>
         && s'.slots[i].record == s.slots[i].record && s'.slots[i].owner == s.slots[i].owner
         && (s.slots[i].published ==> s'.slots[i].published)
  }

  lemma StepKeepsSlots(s: State, a: Step)
    requires Enabled(s, a, FENCED)
    ensures SlotsKept(s, Apply(s, a, FENCED))
  {
    if a.Flush? { FlushKeepsSlots(s, a.t); } else if !a.SendReserve? { OtherKeepsSlots(s, a); }
  }

  lemma FlushKeepsSlots(s: State, t: nat)
    requires Enabled(s, Flush(t), FENCED)
    ensures SlotsKept(s, Flushed(s, t))
  {
  }

  lemma OtherKeepsSlots(s: State, a: Step)
    requires Enabled(s, a, FENCED) && !a.Flush? && !a.SendReserve?
    ensures Apply(s, a, FENCED).slots == s.slots
  {
  }

  // ---- what a send has done so far ----

  /** Slot i is one that thread t has reserved since there were n, for a record of the run. */
  ghost predicate Mine(s: State, t: nat, i: int, n: nat, record: Record) {
    n <= i < |s.slots| && s.slots[i].owner == t && s.slots[i].record == record
  }

  ghost predicate SendSoFar(s: State, t: nat, n: nat, record: Record) {
    && t < |s.threads| && n <= |s.slots|
    && match s.threads[t].pc
       case Checked => true
       case Reserved(i) => Mine(s, t, i, n, record)
       case Published(i) => Mine(s, t, i, n, record)
       case _ => exists i :: Mine(s, t, i, n, record) && s.slots[i].published
  }

  predicate IsSend(a: Step) {
    a.SendCheck? || a.SendReserve? || a.SendPublish? || a.SendFence? || a.SendLoad? || a.SendCas? || a.SendPost?
  }

  lemma OthersKeepSend(s: State, a: Step, t: nat)
    requires Enabled(s, a, FENCED) && t < |s.threads| && !(IsSend(a) && a.t == t)
    ensures t < |Apply(s, a, FENCED).threads| && Apply(s, a, FENCED).threads[t].pc == s.threads[t].pc
  {
    if !IsSend(a) { ChainKeepsSend(s, a, t); }
  }

  lemma ChainKeepsSend(s: State, a: Step, t: nat)
    requires Enabled(s, a, FENCED) && t < |s.threads| && !IsSend(a)
    ensures t < |Apply(s, a, FENCED).threads| && Apply(s, a, FENCED).threads[t].pc == s.threads[t].pc
  {
  }

  lemma OthersKeepSoFar(s: State, a: Step, t: nat, n: nat, record: Record)
    requires Enabled(s, a, FENCED) && SendSoFar(s, t, n, record) && !(IsSend(a) && a.t == t)
    ensures SendSoFar(Apply(s, a, FENCED), t, n, record)
  {
    OthersKeepSend(s, a, t);
    StepKeepsSlots(s, a);
    var s' := Apply(s, a, FENCED);
    if i :| Mine(s, t, i, n, record) && s.slots[i].published {
      assert Mine(s', t, i, n, record) && s'.slots[i].published;
    }
  }

  lemma ReserveSoFar(s: State, t: nat, n: nat, record: Record)
    requires Enabled(s, SendReserve(t, record), FENCED) && SendSoFar(s, t, n, record)
    ensures SendSoFar(Apply(s, SendReserve(t, record), FENCED), t, n, record)
  {
  }

  lemma FenceSoFar(s: State, t: nat, n: nat, record: Record)
    requires Inv(s) && Enabled(s, SendFence(t), FENCED) && SendSoFar(s, t, n, record)
    ensures SendSoFar(Apply(s, SendFence(t), FENCED), t, n, record)
  {
    var i, s' := s.threads[t].pc.slot, Apply(s, SendFence(t), FENCED);
    assert s.slots[i].published;
    assert Mine(s', t, i, n, record) && s'.slots[i].published;
  }

  lemma OwnSoFar(s: State, a: Step, t: nat, n: nat, record: Record)
    requires Inv(s) && Enabled(s, a, FENCED) && SendSoFar(s, t, n, record) && IsSend(a) && a.t == t
    requires !s.threads[t].pc.Idle? && (a.SendReserve? ==> a.record == record)
    ensures SendSoFar(Apply(s, a, FENCED), t, n, record)
  {
    if a.SendReserve? { ReserveSoFar(s, t, n, record); }
    else if a.SendFence? { FenceSoFar(s, t, n, record); }
    else {
      StepKeepsSlots(s, a);
      OtherKeepsSlots(s, a);
      LateSoFar(s, a, t, n, record);
    }
  }

  lemma LateSoFar(s: State, a: Step, t: nat, n: nat, record: Record)
    requires Enabled(s, a, FENCED) && SendSoFar(s, t, n, record) && IsSend(a) && a.t == t
    requires a.SendPublish? || a.SendLoad? || a.SendCas? || a.SendPost?
    ensures SendSoFar(Apply(s, a, FENCED), t, n, record)
  {
    var s' := Apply(s, a, FENCED);
    if i :| Mine(s, t, i, n, record) && s.slots[i].published {
      assert Mine(s', t, i, n, record) && s'.slots[i].published;
    }
  }

  /** The send of thread t has returned at the end of the run, and not before. */
  predicate ReturnsAt(s: State, sched: seq<Step>, t: nat)
    requires Run(s, sched, FENCED).Some?
    decreases |sched|
  {
    t < |s.threads| &&
    if s.threads[t].pc.Idle? then sched == []
    else sched != [] && ReturnsAt(Apply(s, sched[0], FENCED), sched[1..], t)
  }

  lemma {:induction false} SendRuns(s: State, sched: seq<Step>, t: nat, n: nat, record: Record)
    requires Inv(s) && Run(s, sched, FENCED).Some? && ReturnsAt(s, sched, t) && SendSoFar(s, t, n, record)
    requires forall r :: SendReserve(t, r) in sched ==> r == record
    ensures SendSoFar(Run(s, sched, FENCED).value, t, n, record)
    ensures Run(s, sched, FENCED).value.threads[t].pc.Idle?
    decreases |sched|
  {
    if !s.threads[t].pc.Idle? {
      var a := sched[0];
      assert a in sched;
      if IsSend(a) && a.t == t { OwnSoFar(s, a, t, n, record); } else { OthersKeepSoFar(s, a, t, n, record); }
      StepKeepsInv(s, a);
      SendRuns(Apply(s, a, FENCED), sched[1..], t, n, record);
    }
  }

  /** A send that is let in and returns has put its record into the queue, behind all that was there, where the
      chain can see it. */
  lemma SendWorks(s: State, sched: seq<Step>, t: nat, record: Record)
    requires Reachable(s, FENCED) && Enabled(s, SendCheck(t), FENCED)
    requires
      var s0 := Apply(s, SendCheck(t), FENCED);
      Run(s0, sched, FENCED).Some? && ReturnsAt(s0, sched, t)
    requires forall r :: SendReserve(t, r) in sched ==> r == record
    ensures
      var s' := Run(Apply(s, SendCheck(t), FENCED), sched, FENCED).value;
      exists i :: |s.slots| <= i < |s'.slots| && s'.slots[i].record == record && s'.slots[i].published
  {
    ReachableInv(s);
    StepKeepsInv(s, SendCheck(t));
    SendRuns(Apply(s, SendCheck(t), FENCED), sched, t, |s.slots|, record);
    var s' := Run(Apply(s, SendCheck(t), FENCED), sched, FENCED).value;
    var i :| Mine(s', t, i, |s.slots|, record) && s'.slots[i].published;
  }

  // ---- a send can return ----

  function SendRank(th: Thread): nat {
    match th.pc
    case Idle => 0
    case Checked => if th.buffer == [] then 7 else 8
    case Reserved(_) => 6
    case Published(_) => if th.buffer == [] then 4 else 5
    case Fenced => 3
    case SawFree => 2
    case Claimed => 1
  }

  /** The next step of a send. */
  function NextOf(th: Thread, t: nat, record: Record): Step {
    match th.pc
    case Idle => SendCheck(t)
    case Checked => if th.buffer == [] then SendReserve(t, record) else Flush(t)
    case Reserved(_) => SendPublish(t)
    case Published(_) => if th.buffer == [] then SendFence(t) else Flush(t)
    case Fenced => SendLoad(t)
    case SawFree => SendCas(t)
    case Claimed => SendPost(t)
  }

  lemma NextIsEnabled(s: State, t: nat, record: Record)
    requires Inv(s) && t < |s.threads| && !s.threads[t].pc.Idle?
    ensures Enabled(s, NextOf(s.threads[t], t, record), FENCED)
  {
    assert BufferOk(s.threads[t], t, s.running);
  }

  lemma NextLowers(s: State, t: nat, record: Record)
    requires Inv(s) && t < |s.threads| && !s.threads[t].pc.Idle?
    requires Enabled(s, NextOf(s.threads[t], t, record), FENCED)
    ensures
      var s' := Apply(s, NextOf(s.threads[t], t, record), FENCED);
      t < |s'.threads| && SendRank(s'.threads[t]) < SendRank(s.threads[t])
  {
    assert BufferOk(s.threads[t], t, s.running);
  }

  /** A send that is under way can return after eight steps of its own and of its store buffer, whatever the chain
      and the others are doing. */
  lemma {:induction false} SendCanReturn(s: State, t: nat, record: Record) returns (sched: seq<Step>)
    requires Inv(s) && t < |s.threads|
    ensures Run(s, sched, FENCED).Some? && |sched| <= SendRank(s.threads[t]) <= 8
    ensures t < |Run(s, sched, FENCED).value.threads| && Run(s, sched, FENCED).value.threads[t].pc.Idle?
    decreases SendRank(s.threads[t])
  {
    if s.threads[t].pc.Idle? {
      sched := [];
    } else {
      var a := NextOf(s.threads[t], t, record);
      NextIsEnabled(s, t, record);
      NextLowers(s, t, record);
      StepKeepsInv(s, a);
      var rest := SendCanReturn(Apply(s, a, FENCED), t, record);
      sched := [a] + rest;
      assert sched[1..] == rest;
    }
  }

  /** A send is let in exactly while the websocket is CONNECTING or CONNECTED. */
  lemma SendIsLetIn(s: State, t: nat)
    requires t < |s.threads| && s.threads[t].pc.Idle? && (t == 0 ==> CallbackPoint(s.chain))
    ensures Enabled(s, SendCheck(t), FENCED) <==> s.status.Connecting? || s.status.Connected?
  {
  }
}
