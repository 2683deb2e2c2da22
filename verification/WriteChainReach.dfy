/**
 A published record is reached while the websocket is connected, however many sends go on meanwhile: the chain
 takes a bounded number of steps to it, and more only where it meets a slot that is reserved and not yet visible.
 */
module WriteChainReach {
  import opened Wrappers
  import opened Tally
  import opened WriteChain
  import opened WriteChainProofs
  import opened WriteChainDrain

  /** A step of the chain itself. */
  predicate ChainStep(a: Step) { DrainStep(a) && !a.Flush? }

  predicate SendStep(a: Step) {
    a.SendCheck? || a.SendReserve? || a.SendPublish? || a.SendFence? || a.SendLoad? || a.SendCas? || a.SendPost?
    || a.Flush?
  }

  /** The session stays CONNECTED and no write fails. */
  predicate Healthy(a: Step) { !a.StatusDown? && a != FrameDone(false) && !a.Abandon? }

  /** The gate is free, or about to be: the chain has found the queue dry. */
  predicate Free(s: State)
    requires |s.threads| > 0
  {
    !GateHeld(s) || s.chain.Dry?
  }

  /** The slots up to i that the chain has not taken. */
  function Ahead(s: State, i: nat): nat { if s.cursor <= i then i + 1 - s.cursor else 0 }

  /** The steps of the chain to slot i: what is ahead, the chains that are posted, parked, claimed or could still be
      claimed, and the place of the one that runs. */
  function Distance(s: State, i: nat): nat
    requires |s.threads| > 0
  {
    20 * Ahead(s, i)
    + 12 * (s.wakeups + s.resumes + Bit(s.parked) + Count(s.threads, Owning) + Bit(Free(s)))
    + 13 * s.frames + Rank(s.chain)
  }

  /** The chain reads at its cursor and finds nothing it can see. */
  predicate MeetsHole(s: State, a: Step)
    requires Enabled(s, a, FENCED)
  {
    a.ReadCursor? && ReadSlot(s, s.cursor).None?
  }

  // ---- every step of the chain brings it closer ----

  lemma TakeLowers(s: State, a: Step, i: nat)
    requires Inv(s) && Enabled(s, a, FENCED) && s.status.Connected? && s.cursor <= i
    requires (a.ReadCursor? && !MeetsHole(s, a)) || a.Reclaim?
    ensures Distance(Apply(s, a, FENCED), i) < Distance(s, i)
  {
    assert BufferOk(s.threads[0], 0, s.running);
  }

  lemma HoleAdds(s: State, i: nat)
    requires Inv(s) && Enabled(s, ReadCursor, FENCED) && MeetsHole(s, ReadCursor)
    ensures Distance(Apply(s, ReadCursor, FENCED), i) < Distance(s, i) + 12
  {
  }

  lemma ReleaseLowers(s: State, i: nat)
    requires Inv(s) && Enabled(s, ReleaseGate, FENCED)
    ensures Distance(Apply(s, ReleaseGate, FENCED), i) < Distance(s, i)
  {
    var s' := Apply(s, ReleaseGate, FENCED);
    CountUpdate(s.threads, 0, s'.threads[0], Owning);
    assert s'.threads == s.threads[0 := s'.threads[0]];
  }

  lemma HandlerLowers(s: State, a: Step, i: nat)
    requires Inv(s) && Enabled(s, a, FENCED) && s.status.Connected?
    requires a.RunWakeup? || a.RunResume? || a == FrameDone(true) || a.EnterWrite? || a.StartFrame?
             || a.FenceGate? || a.Probe?
    ensures Distance(Apply(s, a, FENCED), i) < Distance(s, i)
  {
  }

  /** While slot i is ahead each step of the chain lowers the distance, and meeting a hole adds one more chain. */
  lemma ChainStepLowers(s: State, a: Step, i: nat)
    requires Inv(s) && Enabled(s, a, FENCED) && ChainStep(a) && s.status.Connected? && s.cursor <= i
    ensures Distance(Apply(s, a, FENCED), i) < Distance(s, i) + (if MeetsHole(s, a) then 12 else 0)
  {
    if a.Reclaim? || (a.ReadCursor? && !MeetsHole(s, a)) { TakeLowers(s, a, i); }
    else if a.ReadCursor? { HoleAdds(s, i); }
    else if a.ReleaseGate? { ReleaseLowers(s, i); }
    else { HandlerLowers(s, a, i); }
  }

  // ---- and no other step takes it away ----

  lemma SendKeeps(s: State, a: Step, i: nat)
    requires Inv(s) && Enabled(s, a, FENCED) && SendStep(a) && !a.Flush? && !a.SendReserve? && !a.SendCas?
    ensures Distance(Apply(s, a, FENCED), i) <= Distance(s, i)
  {
    var s' := Apply(s, a, FENCED);
    assert BufferOk(s.threads[a.t], a.t, s.running);
    CountUpdate(s.threads, a.t, s'.threads[a.t], Owning);
    assert s'.threads == s.threads[a.t := s'.threads[a.t]];
    assert Release in s'.threads[0].buffer <==> Release in s.threads[0].buffer;
  }

  lemma ReserveKeeps(s: State, t: nat, record: Record, i: nat)
    requires Inv(s) && Enabled(s, SendReserve(t, record), FENCED)
    ensures Distance(Apply(s, SendReserve(t, record), FENCED), i) == Distance(s, i)
  {
    CountUpdate(s.threads, t, Apply(s, SendReserve(t, record), FENCED).threads[t], Owning);
  }

  /** A claim uses up that the gate was free. */
  lemma CasKeeps(s: State, t: nat, i: nat)
    requires Inv(s) && Enabled(s, SendCas(t), FENCED)
    ensures Distance(Apply(s, SendCas(t), FENCED), i) <= Distance(s, i)
  {
    assert BufferOk(s.threads[0], 0, s.running);
    CountUpdate(s.threads, t, Apply(s, SendCas(t), FENCED).threads[t], Owning);
  }

  lemma FlushKeeps(s: State, t: nat, i: nat)
    requires Inv(s) && Enabled(s, Flush(t), FENCED)
    ensures Distance(Apply(s, Flush(t), FENCED), i) == Distance(s, i)
  {
    var s' := Apply(s, Flush(t), FENCED);
    assert BufferOk(s.threads[t], t, s.running) && BufferOk(s.threads[0], 0, s.running);
    CountUpdate(s.threads, t, s'.threads[t], Owning);
  }

  lemma SessionKeeps(s: State, a: Step, i: nat)
    requires Inv(s) && Enabled(s, a, FENCED) && s.status.Connected?
    requires Healthy(a) && !ChainStep(a) && !SendStep(a)
    ensures Distance(Apply(s, a, FENCED), i) <= Distance(s, i)
  {
  }

  lemma OtherStepKeeps(s: State, a: Step, i: nat)
    requires Inv(s) && Enabled(s, a, FENCED) && s.status.Connected? && Healthy(a) && !ChainStep(a)
    ensures Distance(Apply(s, a, FENCED), i) <= Distance(s, i)
  {
    if a.SendReserve? { ReserveKeeps(s, a.t, a.record, i); }
    else if a.SendCas? { CasKeeps(s, a.t, i); }
    else if a.Flush? { FlushKeeps(s, a.t, i); }
    else if SendStep(a) { SendKeeps(s, a, i); }
    else { SessionKeeps(s, a, i); }
  }

  // ---- over a run ----

  /** The steps of the chain until it has taken slot i. */
  function ChainSteps(s: State, sched: seq<Step>, i: nat): nat
    requires Run(s, sched, FENCED).Some?
    decreases |sched|
  {
    if sched == [] || i < s.cursor then 0
    else (if ChainStep(sched[0]) then 1 else 0) + ChainSteps(Apply(s, sched[0], FENCED), sched[1..], i)
  }

  /** The holes it meets on the way. */
  function HolesMet(s: State, sched: seq<Step>, i: nat): nat
    requires Run(s, sched, FENCED).Some?
    decreases |sched|
  {
    if sched == [] || i < s.cursor then 0
    else (if MeetsHole(s, sched[0]) then 1 else 0) + HolesMet(Apply(s, sched[0], FENCED), sched[1..], i)
  }

  lemma StaysConnected(s: State, a: Step)
    requires Enabled(s, a, FENCED) && s.status.Connected? && Healthy(a)
    ensures Apply(s, a, FENCED).status.Connected?
  {
  }

  /** However many sends go on meanwhile, and whether they claim the gate or not: the chain reaches slot i after no
      more steps than the distance it starts with, and twelve for each hole it meets. */
  lemma {:induction false} SlotIsReached(s: State, sched: seq<Step>, i: nat)
    requires Inv(s) && s.status.Connected? && Run(s, sched, FENCED).Some?
    requires forall a :: a in sched ==> Healthy(a)
    ensures ChainSteps(s, sched, i) <= Distance(s, i) + 12 * HolesMet(s, sched, i)
    decreases |sched|
  {
    if sched != [] && s.cursor <= i {
      var a := sched[0];
      assert Healthy(a);
      StepKeepsInv(s, a);
      StaysConnected(s, a);
      if ChainStep(a) { ChainStepLowers(s, a, i); } else { OtherStepKeeps(s, a, i); }
      SlotIsReached(Apply(s, a, FENCED), sched[1..], i);
    }
  }

  /** Every slot from the cursor to i is visible. */
  ghost predicate Visible(s: State, i: nat) {
    i < |s.slots| && forall j :: s.cursor <= j <= i ==> s.slots[j].published
  }

  lemma VisibleStays(s: State, a: Step, i: nat)
    requires Inv(s) && Visible(s, i) && Enabled(s, a, FENCED)
    ensures Visible(Apply(s, a, FENCED), i)
  {
  }

  lemma {:induction false} NoHoles(s: State, sched: seq<Step>, i: nat)
    requires Inv(s) && Visible(s, i) && Run(s, sched, FENCED).Some?
    ensures HolesMet(s, sched, i) == 0
    decreases |sched|
  {
    if sched != [] && s.cursor <= i {
      StepKeepsInv(s, sched[0]);
      VisibleStays(s, sched[0], i);
      NoHoles(Apply(s, sched[0], FENCED), sched[1..], i);
    }
  }

  /** The whole distance is bounded by the records ahead: there is never more than one chain. */
  lemma DistanceBound(s: State, i: nat)
    requires Inv(s)
    ensures Distance(s, i) <= 20 * Ahead(s, i) + 39
  {
  }

  /** A record with no hole in front of it is handed to the chain after at most twenty steps of the chain for each
      record ahead of it and thirty-nine more, whatever sends, claims and store buffers do meanwhile. */
  lemma VisibleIsReached(s: State, sched: seq<Step>, i: nat)
    requires Inv(s) && s.status.Connected? && Visible(s, i) && Run(s, sched, FENCED).Some?
    requires forall a :: a in sched ==> Healthy(a)
    ensures ChainSteps(s, sched, i) <= 20 * Ahead(s, i) + 39
  {
    SlotIsReached(s, sched, i);
    NoHoles(s, sched, i);
    DistanceBound(s, i);
  }

  // ---- somebody can always go on ----

  /** The next step of a send that is past its reserve. */
  function SendOn(th: Thread, t: nat): Step {
    match th.pc
    case Reserved(_) => SendPublish(t)
    case Published(_) => if th.buffer == [] then SendFence(t) else Flush(t)
    case Fenced => SendLoad(t)
    case SawFree => SendCas(t)
    case _ => SendPost(t)
  }

  /** The next step of the service thread. */
  function ChainOn(s: State): Step {
    match s.chain
    case Entry => EnterWrite
    case ReadNext => ReadCursor
    case Have(_) => StartFrame
    case Dry => ReleaseGate
    case Released => if |s.threads| > 0 && s.threads[0].buffer != [] then Flush(0) else FenceGate
    case Probing => Probe
    case Found(_, _) => Reclaim
    case OnConnected => CallbackReturns(false)
    case ResumeCheck => MaybeStartQueuedWrite
    case _ => if s.wakeups > 0 then RunWakeup else if s.resumes > 0 then RunResume else FrameDone(true)
  }

  lemma SendGoesOn(s: State, t: nat)
    requires Inv(s) && t < |s.threads|
    requires !s.threads[t].pc.Idle? && !s.threads[t].pc.Checked?
    ensures Enabled(s, SendOn(s.threads[t], t), FENCED)
  {
    assert BufferOk(s.threads[t], t, s.running);
  }

  lemma ChainGoesOn(s: State)
    requires Inv(s) && s.threads[0].pc.Idle? && !s.chain.WriteFailed?
    requires !s.chain.NoHandler? || s.wakeups > 0 || s.resumes > 0 || s.frames > 0
    ensures Enabled(s, ChainOn(s), FENCED)
  {
    assert BufferOk(s.threads[0], 0, s.running);
  }

  /** Whoever the record at the cursor waits for: the send that holds its slot, the send that claims the gate or has
      claimed it, or the chain. */
  lemma CursorIsServed(s: State) returns (t: nat)
    requires Inv(s) && s.status.Connected? && !s.abandoned && s.cursor < |s.slots|
    requires ResumeComing(s) && !s.chain.WriteFailed?
    ensures t < |s.threads|
    ensures (!s.threads[t].pc.Idle? && !s.threads[t].pc.Checked?)
            || !s.chain.NoHandler? || s.wakeups > 0 || s.resumes > 0 || s.frames > 0
  {
    if !s.slots[s.cursor].published {
      t := s.slots[s.cursor].owner;
    } else if t' :| 0 <= t' < |s.threads| && (Claiming(s.threads[t']) || Owning(s.threads[t'])) {
      t := t';
    } else {
      CountZero(s.threads, Claiming);
      CountZero(s.threads, Owning);
      t := 0;
    }
  }

  /** A record at the cursor is never waited for in vain: with the session CONNECTED and no write error a step of a
      send that is under way, of a store buffer, or of the service thread is possible; no new send need begin. */
  lemma WaitGoesOn(s: State) returns (a: Step)
    requires Inv(s) && s.status.Connected? && !s.abandoned && s.cursor < |s.slots|
    requires ResumeComing(s) && !s.chain.WriteFailed?
    ensures Enabled(s, a, FENCED) && Healthy(a) && !a.SendCheck?
  {
    var t := CursorIsServed(s);
    if !s.threads[t].pc.Idle? && !s.threads[t].pc.Checked? {
      SendGoesOn(s, t);
      a := SendOn(s.threads[t], t);
    } else if !s.threads[0].pc.Idle? {
      assert BufferOk(s.threads[0], 0, s.running);
      if s.threads[0].pc.Checked? {
        a := if s.threads[0].buffer == [] then SendReserve(0, "") else Flush(0);
      } else {
        SendGoesOn(s, 0);
        a := SendOn(s.threads[0], 0);
      }
    } else {
      ChainGoesOn(s);
      a := ChainOn(s);
    }
  }
}
