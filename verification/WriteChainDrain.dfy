/** A chain left to itself drains the queue: it ends, and it ends with every record written. */
module WriteChainDrain {
  import opened Wrappers
  import opened Tally
  import opened WriteChain
  import opened WriteChainProofs

  /** The steps of the chain and of the store buffers; no send, no session event, no write error. */
  predicate DrainStep(a: Step) {
    a.RunWakeup? || a.RunResume? || a == FrameDone(true) || a.EnterWrite? || a.ReadCursor? || a.StartFrame?
    || a.ReleaseGate? || a.FenceGate? || a.Probe? || a.Reclaim? || a.Flush?
  }

  predicate Buffering(th: Thread) { th.buffer != [] }

  function Rank(c: ChainPc): nat {
    match c
    case Have(_) => 14
    case Entry => 11
    case ReadNext => 10
    case Dry => 6
    case Released => 4
    case Probing => 3
    case Found(_, _) => 2
    case _ => 0
  }

  function Unread(s: State): nat { if s.cursor <= |s.slots| then |s.slots| - s.cursor else 0 }

  /** Twenty per unread record, plus how far the chain is from its end. */
  function Measure(s: State): nat {
    20 * Unread(s) + 12 * (s.wakeups + s.resumes) + 13 * s.frames + Rank(s.chain) + Count(s.threads, Buffering)
  }

  lemma FlushDecreases(s: State, t: nat)
    requires Inv(s) && Enabled(s, Flush(t), FENCED)
    ensures Measure(Apply(s, Flush(t), FENCED)) < Measure(s)
  {
    var s' := Apply(s, Flush(t), FENCED);
    assert BufferOk(s.threads[t], t, s.running);
    assert s'.threads[t].buffer == [];
    CountUpdate(s.threads, t, s'.threads[t], Buffering);
    assert s'.threads == s.threads[t := s'.threads[t]];
  }

  lemma ReleaseDecreases(s: State)
    requires Inv(s) && Enabled(s, ReleaseGate, FENCED)
    ensures Measure(Apply(s, ReleaseGate, FENCED)) < Measure(s)
  {
    var s' := Apply(s, ReleaseGate, FENCED);
    OwnerDrained(s);
    CountUpdate(s.threads, 0, s'.threads[0], Buffering);
    assert s'.threads == s.threads[0 := s'.threads[0]];
  }

  lemma DrainStepDecreases(s: State, a: Step)
    requires Inv(s) && Enabled(s, a, FENCED) && DrainStep(a)
    ensures Measure(Apply(s, a, FENCED)) < Measure(s)
  {
    if a.Flush? {
      FlushDecreases(s, a.t);
    } else if a.ReleaseGate? {
      ReleaseDecreases(s);
    }
  }

  /** With no send in progress, connected and past a write error, nothing but the drain is left to do. */
  ghost predicate Draining(s: State) {
    && |s.threads| > 0
    && (forall t :: 0 <= t < |s.threads| ==> s.threads[t].pc.Idle?)
    && s.status.Connected? && !s.parked && !s.abandoned
    && !s.chain.OnConnected? && !s.chain.ResumeCheck? && !s.chain.WriteFailed?
  }

  lemma DrainStepKeepsDraining(s: State, a: Step)
    requires Draining(s) && Enabled(s, a, FENCED) && DrainStep(a)
    ensures Draining(Apply(s, a, FENCED))
  {
  }

  /** Nothing posted, nothing running, nothing buffered. */
  ghost predicate Quiet(s: State) {
    && s.chain.NoHandler? && s.wakeups == s.resumes == s.frames == 0
    && forall t :: 0 <= t < |s.threads| ==> s.threads[t].buffer == []
  }

  /** A drain that has not come to rest has a step to take. */
  lemma DrainGoesOn(s: State) returns (a: Step)
    requires Inv(s) && Draining(s) && !Quiet(s)
    ensures DrainStep(a) && Enabled(s, a, FENCED)
  {
    if t :| 0 <= t < |s.threads| && s.threads[t].buffer != [] {
      assert BufferOk(s.threads[t], t, s.running);
      return Flush(t);
    }
    match s.chain
    case Entry => a := EnterWrite;
    case ReadNext => a := ReadCursor;
    case Have(_) => a := StartFrame;
    case Dry => a := ReleaseGate;
    case Released => a := FenceGate;
    case Probing => a := Probe;
    case Found(_, _) => a := Reclaim;
    case _ => a := if s.wakeups > 0 then RunWakeup else if s.resumes > 0 then RunResume else FrameDone(true);
  }

  /** At rest the gate is free, so the queue is empty. */
  lemma QuietIsDone(s: State)
    requires Inv(s) && Draining(s) && Quiet(s)
    ensures s.cursor == |s.slots| && s.written == Records(s.slots, |s.slots|)
  {
    CountZero(s.threads, Owning);
    CountZero(s.threads, Claiming);
    assert s.written == s.written + Pending(s.chain);
  }

  lemma DrainKeepsRecords(s: State, a: Step)
    requires Enabled(s, a, FENCED) && DrainStep(a)
    ensures
      var slots := Apply(s, a, FENCED).slots;
      |slots| == |s.slots| && Records(slots, |slots|) == Records(s.slots, |s.slots|)
  {
    if !a.Flush? {
      assert Apply(s, a, FENCED).slots == s.slots;
    }
  }

  /** With producers idle every drain is at most Measure(s) steps long, and one that cannot go on has
      handed every record of the queue to the socket. */
  lemma {:induction false} DrainWritesEverything(s: State, sched: seq<Step>)
    requires Inv(s) && Draining(s) && Run(s, sched, FENCED).Some?
    requires forall a :: a in sched ==> DrainStep(a)
    ensures |sched| <= Measure(s)
    ensures
      var s' := Run(s, sched, FENCED).value;
      (forall a :: DrainStep(a) ==> !Enabled(s', a, FENCED)) ==>
        s'.cursor == |s'.slots| == |s.slots| && s'.written == Records(s.slots, |s.slots|)
    decreases |sched|
  {
    if sched == [] {
      if Quiet(s) {
        QuietIsDone(s);
      } else {
        var a := DrainGoesOn(s);
      }
    } else {
      var a := sched[0];
      assert DrainStep(a);
      StepKeepsInv(s, a);
      DrainStepDecreases(s, a);
      DrainStepKeepsDraining(s, a);
      var s1 := Apply(s, a, FENCED);
      DrainWritesEverything(s1, sched[1..]);
      DrainKeepsRecords(s, a);
    }
  }
}
