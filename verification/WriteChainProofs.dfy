/** What holds in every reachable state of the write chain, for any number of threads. */
module WriteChainProofs {
  import opened Wrappers
  import opened Tally
  import opened WriteChain

  // ---- the invariant ----

  /** A buffer holds at most one store: the publish of the send its thread is in, or on the service thread a release. */
  predicate BufferOk(th: Thread, t: nat, running: bool) {
    || th.buffer == []
    || (th.pc.Published? && th.buffer == [Publish(th.pc.slot)])
    || (t == 0 && (th.pc.Idle? || th.pc.Checked?) && th.buffer == [Release] && running)
  }

  ghost predicate Buffers(s: State) {
    && |s.threads| > 0
    && (forall t :: 0 <= t < |s.threads| ==> BufferOk(s.threads[t], t, s.running))
    && (!s.threads[0].pc.Idle? ==> CallbackPoint(s.chain))
    && (s.chain.Probing? || s.chain.Found? ==> s.threads[0].buffer == [])
  }

  /** A slot thread t has reserved and not yet made visible. */
  predicate Holds(th: Thread, i: nat) {
    th.pc == Reserved(i) || (th.pc == Published(i) && th.buffer != [])
  }

  ghost predicate Queue(s: State) {
    && (forall t :: 0 <= t < |s.threads| && s.threads[t].pc.Reserved? ==> s.threads[t].pc.slot < |s.slots|)
    && (forall t :: 0 <= t < |s.threads| && s.threads[t].pc.Published? ==> s.threads[t].pc.slot < |s.slots|)
    && (forall i :: 0 <= i < |s.slots| && !s.slots[i].published ==>
          s.slots[i].owner < |s.threads| && Holds(s.threads[s.slots[i].owner], i))
  }

  /** The record read but not yet handed to the socket. */
  function Pending(c: ChainPc): seq<Record> { if c.Have? then [c.record] else [] }

  ghost predicate Prefix(s: State) {
    && s.cursor <= |s.slots|
    && (forall i :: 0 <= i < s.cursor ==> s.slots[i].published)
    && s.written + Pending(s.chain) == Records(s.slots, s.cursor)
    && (s.chain.Found? ==>
          && s.chain.probe == s.cursor + 1 <= |s.slots|
          && s.slots[s.cursor].published
          && s.chain.record == s.slots[s.cursor].record)
  }

  ghost predicate OneChain(s: State)
    requires |s.threads| > 0
  {
    && Chains(s) == Bit(GateHeld(s))
    && (GateHeld(s) ==> !s.abandoned)
  }

  ghost predicate NotLost(s: State)
    requires |s.threads| > 0
  {
    && (Release in s.threads[0].buffer && !s.abandoned ==> s.chain.Released?)
    && (!s.abandoned && !GateHeld(s) && s.cursor < |s.slots| && s.slots[s.cursor].published ==>
          ChainClaiming(s.chain) || Count(s.threads, Claiming) > 0)
  }

  ghost predicate Inv(s: State) {
    Buffers(s) && Queue(s) && Prefix(s) && OneChain(s) && NotLost(s)
  }

  // ---- preservation ----

  lemma InitInv(s: State)
    requires Init(s)
    ensures Inv(s)
  {
    CountZero(s.threads, Owning);
  }

  /** Changing thread t to `th` moves the two counts by that thread alone. */
  lemma Counts(s: State, t: nat, th: Thread)
    requires t < |s.threads|
    ensures Count(s.threads[t := th], Owning) == Count(s.threads, Owning) - Bit(Owning(s.threads[t])) + Bit(Owning(th))
    ensures Count(s.threads[t := th], Claiming)
              == Count(s.threads, Claiming) - Bit(Claiming(s.threads[t])) + Bit(Claiming(th))
  {
    CountUpdate(s.threads, t, th, Owning);
    CountUpdate(s.threads, t, th, Claiming);
  }

  /** What a thread may become, if that is all a step changes. */
  ghost predicate MayBecome(s: State, t: nat, th: Thread)
    requires t < |s.threads| && |s.threads| > 0
  {
    var before := s.threads[t];
    && BufferOk(th, t, s.running)
    && (t == 0 ==> (Release in th.buffer <==> Release in before.buffer))
    && (t == 0 && !th.pc.Idle? ==> CallbackPoint(s.chain))
    && (t == 0 && (s.chain.Probing? || s.chain.Found?) ==> th.buffer == [])
    && (th.pc.Reserved? || th.pc.Published? ==> th.pc.slot < |s.slots|)
    && (forall i :: Holds(before, i) ==> Holds(th, i))
    && (Owning(th) <==> Owning(before))
    && (Claiming(before) && !Claiming(th) ==> s.abandoned || GateHeld(s) || ChainClaiming(s.chain))
  }

  lemma ThreadKeepsInv(s: State, t: nat, th: Thread)
    requires Inv(s) && t < |s.threads| && MayBecome(s, t, th)
    ensures Inv(s.(threads := s.threads[t := th]))
  {
    Counts(s, t, th);
    CountZero(s.threads, Claiming);
  }

  lemma CheckKeepsInv(s: State, t: nat)
    requires Inv(s) && Enabled(s, SendCheck(t), FENCED)
    ensures Inv(Apply(s, SendCheck(t), FENCED))
  {
    assert BufferOk(s.threads[t], t, s.running);
    ThreadKeepsInv(s, t, s.threads[t].(pc := Checked));
  }

  lemma ReserveKeepsQueue(s: State, t: nat, record: Record)
    requires Queue(s) && Enabled(s, SendReserve(t, record), FENCED)
    ensures Queue(Apply(s, SendReserve(t, record), FENCED))
  {
  }

  lemma ReserveKeepsInv(s: State, t: nat, record: Record)
    requires Inv(s) && Enabled(s, SendReserve(t, record), FENCED)
    ensures Inv(Apply(s, SendReserve(t, record), FENCED))
  {
    var th := s.threads[t].(pc := Reserved(|s.slots|));
    assert Apply(s, SendReserve(t, record), FENCED).threads == s.threads[t := th];
    assert Records(s.slots + [Slot(record, false, t)], s.cursor) == Records(s.slots, s.cursor);
    assert BufferOk(s.threads[t], t, s.running);
    Counts(s, t, th);
    ReserveKeepsQueue(s, t, record);
  }

  lemma PublishKeepsInv(s: State, t: nat)
    requires Inv(s) && Enabled(s, SendPublish(t), FENCED)
    ensures Inv(Apply(s, SendPublish(t), FENCED))
  {
    assert BufferOk(s.threads[t], t, s.running);
    PublishBuffers(s, t);
    ThreadKeepsInv(s, t, Thread(Published(s.threads[t].pc.slot), [Publish(s.threads[t].pc.slot)]));
  }

  lemma PublishBuffers(s: State, t: nat)
    requires Enabled(s, SendPublish(t), FENCED) && s.threads[t].buffer == []
    ensures
      var i := s.threads[t].pc.slot;
      Apply(s, SendPublish(t), FENCED) == s.(threads := s.threads[t := Thread(Published(i), [Publish(i)])])
  {
    var i := s.threads[t].pc.slot;
    assert s.threads[t].buffer + [Publish(i)] == [Publish(i)];
    assert WithPc(Buffered(s, t, Publish(i)), t, Published(i)).threads
             == s.threads[t := Thread(Published(i), [Publish(i)])];
  }

  lemma FenceKeepsInv(s: State, t: nat)
    requires Inv(s) && Enabled(s, SendFence(t), FENCED)
    ensures Inv(Apply(s, SendFence(t), FENCED))
  {
    ThreadKeepsInv(s, t, s.threads[t].(pc := Fenced));
  }

  lemma LoadKeepsInv(s: State, t: nat)
    requires Inv(s) && Enabled(s, SendLoad(t), FENCED)
    ensures Inv(Apply(s, SendLoad(t), FENCED))
  {
    assert BufferOk(s.threads[t], t, s.running);
    ThreadKeepsInv(s, t, s.threads[t].(pc := if LoadRunning(s, t) then Idle else SawFree));
  }

  lemma CasKeepsInv(s: State, t: nat)
    requires Inv(s) && Enabled(s, SendCas(t), FENCED)
    ensures Inv(Apply(s, SendCas(t), FENCED))
  {
    if s.running {
      ThreadKeepsInv(s, t, s.threads[t].(pc := Idle));
    } else {
      ClaimKeepsInv(s, t);
    }
  }

  lemma ClaimKeepsInv(s: State, t: nat)
    requires Inv(s) && Enabled(s, SendCas(t), FENCED) && !s.running
    ensures Inv(Apply(s, SendCas(t), FENCED))
  {
    var th := s.threads[t].(pc := Claimed);
    assert BufferOk(s.threads[0], 0, s.running);
    assert Apply(s, SendCas(t), FENCED).threads == s.threads[t := th];
    Counts(s, t, th);
  }

  lemma PostKeepsInv(s: State, t: nat)
    requires Inv(s) && Enabled(s, SendPost(t), FENCED)
    ensures Inv(Apply(s, SendPost(t), FENCED))
  {
    var s' := Apply(s, SendPost(t), FENCED);
    assert BufferOk(s.threads[0], 0, s.running);
    assert BufferOk(s.threads[t], t, s.running);
    Counts(s, t, s'.threads[t]);
    assert s'.threads == s.threads[t := s'.threads[t]];
  }

  lemma FlushKeepsInv(s: State, t: nat)
    requires Inv(s) && Enabled(s, Flush(t), FENCED)
    ensures Inv(Apply(s, Flush(t), FENCED))
  {
    assert BufferOk(s.threads[t], t, s.running);
    if s.threads[t].buffer[0].Release? {
      FlushReleaseKeepsInv(s);
    } else {
      FlushPublishKeepsInv(s, t);
    }
  }

  lemma FlushReleaseKeepsInv(s: State)
    requires Inv(s) && s.threads[0].buffer == [Release] && s.running
    ensures Inv(Apply(s, Flush(0), FENCED))
  {
    var s' := Apply(s, Flush(0), FENCED);
    Counts(s, 0, s'.threads[0]);
    assert s'.threads == s.threads[0 := s'.threads[0]];
    assert s'.threads[0].buffer == [];
  }

  lemma FlushPublishKeepsInv(s: State, t: nat)
    requires Inv(s) && Enabled(s, Flush(t), FENCED)
    requires s.threads[t].pc.Published? && s.threads[t].buffer == [Publish(s.threads[t].pc.slot)]
    ensures Inv(Apply(s, Flush(t), FENCED))
  {
    var s' := Apply(s, Flush(t), FENCED);
    Counts(s, t, s'.threads[t]);
    assert s'.threads == s.threads[t := s'.threads[t]];
    assert s'.threads[t].buffer == [];
    assert Records(s'.slots, s.cursor) == Records(s.slots, s.cursor);
    CountZero(s.threads, Claiming);
  }

  lemma HandlerKeepsInv(s: State, a: Step)
    requires Inv(s) && Enabled(s, a, FENCED)
    requires a.RunWakeup? || a.RunResume? || a.FrameDone? || a.EnterWrite? || a.StartFrame?
    ensures Inv(Apply(s, a, FENCED))
  {
  }

  lemma ReadKeepsInv(s: State)
    requires Inv(s) && Enabled(s, ReadCursor, FENCED)
    ensures Inv(Apply(s, ReadCursor, FENCED))
  {
    assert BufferOk(s.threads[0], 0, s.running);
    if ReadSlot(s, s.cursor).Some? {
      assert Records(s.slots, s.cursor + 1) == Records(s.slots, s.cursor) + [s.slots[s.cursor].record];
    }
  }

  lemma FenceGateKeepsInv(s: State)
    requires Inv(s) && Enabled(s, FenceGate, FENCED)
    ensures Inv(Apply(s, FenceGate, FENCED))
  {
  }

  lemma ProbeGateKeepsInv(s: State)
    requires Inv(s) && Enabled(s, Probe, FENCED)
    ensures Inv(Apply(s, Probe, FENCED))
  {
  }

  lemma ReclaimKeepsInv(s: State)
    requires Inv(s) && Enabled(s, Reclaim, FENCED)
    ensures Inv(Apply(s, Reclaim, FENCED))
  {
    assert Records(s.slots, s.cursor + 1) == Records(s.slots, s.cursor) + [s.slots[s.cursor].record];
  }

  /** A chain that owns the gate has nothing buffered. */
  lemma OwnerDrained(s: State)
    requires Inv(s) && ChainOwning(s.chain) && s.threads[0].pc.Idle?
    ensures GateHeld(s) && s.threads[0].buffer == []
  {
    assert BufferOk(s.threads[0], 0, s.running);
  }

  lemma ReleaseKeepsInv(s: State)
    requires Inv(s) && Enabled(s, ReleaseGate, FENCED)
    ensures Inv(Apply(s, ReleaseGate, FENCED))
  {
    var s' := Apply(s, ReleaseGate, FENCED);
    OwnerDrained(s);
    Counts(s, 0, s'.threads[0]);
    assert s'.threads[0].buffer == [Release];
    assert s'.threads == s.threads[0 := s'.threads[0]];
  }

  lemma AbandonKeepsInv(s: State)
    requires Inv(s) && Enabled(s, Abandon, FENCED)
    ensures Inv(Apply(s, Abandon, FENCED))
  {
    var s' := Apply(s, Abandon, FENCED);
    OwnerDrained(s);
    Counts(s, 0, s'.threads[0]);
    assert s'.threads[0].buffer == [Release];
    assert s'.threads == s.threads[0 := s'.threads[0]];
  }

  lemma SessionKeepsInv(s: State, a: Step)
    requires Inv(s) && Enabled(s, a, FENCED)
    requires a.OpenSession? || a.SessionConnected? || a.StatusDown?
    ensures Inv(Apply(s, a, FENCED))
  {
  }

  lemma ResumeKeepsInv(s: State, a: Step)
    requires Inv(s) && Enabled(s, a, FENCED)
    requires a.CallbackReturns? || a.MaybeStartQueuedWrite?
    ensures Inv(Apply(s, a, FENCED))
  {
  }

  lemma SendKeepsInv(s: State, a: Step)
    requires Inv(s) && Enabled(s, a, FENCED)
    requires a.SendCheck? || a.SendReserve? || a.SendPublish? || a.SendFence? || a.SendLoad? || a.SendCas?
             || a.SendPost? || a.Flush?
    ensures Inv(Apply(s, a, FENCED))
  {
    if a.SendCheck? { CheckKeepsInv(s, a.t); }
    else if a.SendReserve? { ReserveKeepsInv(s, a.t, a.record); }
    else if a.SendPublish? { PublishKeepsInv(s, a.t); }
    else if a.SendFence? { FenceKeepsInv(s, a.t); }
    else if a.SendLoad? { LoadKeepsInv(s, a.t); }
    else if a.SendCas? { CasKeepsInv(s, a.t); }
    else if a.SendPost? { PostKeepsInv(s, a.t); }
    else { FlushKeepsInv(s, a.t); }
  }

  lemma ChainKeepsInv(s: State, a: Step)
    requires Inv(s) && Enabled(s, a, FENCED)
    requires a.ReadCursor? || a.ReleaseGate? || a.FenceGate? || a.Probe? || a.Reclaim? || a.Abandon?
    ensures Inv(Apply(s, a, FENCED))
  {
    if a.ReadCursor? { ReadKeepsInv(s); }
    else if a.ReleaseGate? { ReleaseKeepsInv(s); }
    else if a.Reclaim? { ReclaimKeepsInv(s); }
    else if a.Abandon? { AbandonKeepsInv(s); }
    else if a.FenceGate? { FenceGateKeepsInv(s); }
    else { ProbeGateKeepsInv(s); }
  }

  lemma StepKeepsInv(s: State, a: Step)
    requires Inv(s) && Enabled(s, a, FENCED)
    ensures Inv(Apply(s, a, FENCED))
  {
    if a.OpenSession? || a.SessionConnected? || a.StatusDown? { SessionKeepsInv(s, a); }
    else if a.CallbackReturns? || a.MaybeStartQueuedWrite? { ResumeKeepsInv(s, a); }
    else if a.RunWakeup? || a.RunResume? || a.FrameDone? || a.EnterWrite? || a.StartFrame? { HandlerKeepsInv(s, a); }
    else if a.ReadCursor? || a.ReleaseGate? || a.FenceGate? || a.Probe? || a.Reclaim? || a.Abandon? {
      ChainKeepsInv(s, a);
    } else {
      SendKeepsInv(s, a);
    }
  }

  lemma {:induction false} RunKeepsInv(s: State, sched: seq<Step>)
    requires Inv(s) && Run(s, sched, FENCED).Some?
    ensures Inv(Run(s, sched, FENCED).value)
    decreases |sched|
  {
    if sched != [] {
      StepKeepsInv(s, sched[0]);
      RunKeepsInv(Apply(s, sched[0], FENCED), sched[1..]);
    }
  }

  lemma ReachableInv(s: State)
    requires Reachable(s, FENCED)
    ensures Inv(s)
  {
    var s0: State, sched: seq<Step> :| Init(s0) && Run(s0, sched, FENCED) == Some(s);
    InitInv(s0);
    RunKeepsInv(s0, sched);
  }

  // ---- main results ----

  /** No record is left readable at the cursor with nobody going to write it, unless the chain was
      abandoned on a write error and no send has claimed the gate since. */
  lemma NeverStranded(s: State)
    requires Reachable(s, FENCED)
    ensures Stranded(s) ==> s.abandoned
  {
    ReachableInv(s);
    CountZero(s.threads, Claiming);
  }

  /** There is exactly one chain while the gate is held and none while it is free. */
  lemma AtMostOneChain(s: State)
    requires Reachable(s, FENCED)
    ensures |s.threads| > 0 && Chains(s) == Bit(GateHeld(s))
  {
    ReachableInv(s);
  }

  /** The socket is given the records in reservation order, each once, one frame at a time. */
  lemma WrittenIsPrefix(s: State)
    requires Reachable(s, FENCED)
    ensures s.cursor <= |s.slots|
    ensures s.written + Pending(s.chain) == Records(s.slots, s.cursor)
    ensures s.written <= Records(s.slots, |s.slots|)
    ensures s.frames <= 1 && (s.frames == 1 ==> !s.chain.Have?)
  {
    ReachableInv(s);
    var all := Records(s.slots, |s.slots|);
    assert all[..s.cursor] == Records(s.slots, s.cursor);
    assert s.written == (s.written + Pending(s.chain))[..|s.written|];
  }

  /** In particular a run with no write error strands nothing. */
  lemma {:induction false} NoWriteErrorNoStrand(s: State, sched: seq<Step>)
    requires Inv(s) && !s.abandoned && Run(s, sched, FENCED).Some?
    requires forall a :: a in sched ==> !a.Abandon?
    ensures !Stranded(Run(s, sched, FENCED).value)
    decreases |sched|
  {
    if sched == [] {
      CountZero(s.threads, Claiming);
    } else {
      StepKeepsInv(s, sched[0]);
      NoWriteErrorNoStrand(Apply(s, sched[0], FENCED), sched[1..]);
    }
  }

  /** A chain parked before CONNECTED is about to be resumed once the session is there. */
  predicate ResumeComing(s: State) {
    s.parked && s.status.Connected? ==> s.chain.OnConnected? || s.chain.ResumeCheck?
  }

  /** A parked chain is never forgotten while the websocket is not detached in its callback. */
  lemma {:induction false} ParkedIsResumed(s: State, sched: seq<Step>)
    requires ResumeComing(s) && Run(s, sched, FENCED).Some?
    requires CallbackReturns(true) !in sched
    ensures ResumeComing(Run(s, sched, FENCED).value)
    decreases |sched|
  {
    if sched != [] {
      ResumeStep(s, sched[0]);
      ParkedIsResumed(Apply(s, sched[0], FENCED), sched[1..]);
    }
  }

  lemma ResumeStep(s: State, a: Step)
    requires ResumeComing(s) && Enabled(s, a, FENCED) && a != CallbackReturns(true)
    ensures ResumeComing(Apply(s, a, FENCED))
  {
  }

  /** After an abandoned chain a send finds the gate free exactly when the release has reached memory. */
  lemma ClaimAfterAbandon(s: State, t: nat)
    requires Reachable(s, FENCED) && s.abandoned && Enabled(s, SendLoad(t), FENCED)
    ensures Apply(s, SendLoad(t), FENCED).threads[t].pc.SawFree? <==> Release !in s.threads[0].buffer
  {
    ReachableInv(s);
    assert BufferOk(s.threads[0], 0, s.running);
    assert BufferOk(s.threads[t], t, s.running);
  }
}
