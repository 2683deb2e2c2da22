/** Runs that show that each fence, and the exclusion of write errors, is needed. */
module WriteChainWitness {
  import opened Wrappers
  import opened WriteChain
  import opened WriteChainProofs

  lemma {:induction false} RunThen(s: State, sched: seq<Step>, a: Step, fences: Fences)
    requires Run(s, sched, fences).Some? && Enabled(Run(s, sched, fences).value, a, fences)
    ensures Run(s, sched + [a], fences) == Some(Apply(Run(s, sched, fences).value, a, fences))
    decreases |sched|
  {
    if sched != [] {
      RunThen(Apply(s, sched[0], fences), sched[1..], a, fences);
      assert (sched + [a])[1..] == sched[1..] + [a];
    } else {
      assert sched + [a] == [a];
    }
  }

  lemma Then(s: State, a: Step, fences: Fences) returns (s': State)
    requires Reachable(s, fences) && Enabled(s, a, fences)
    ensures s' == Apply(s, a, fences) && Reachable(s', fences)
  {
    var s0: State, sched: seq<Step> :| Init(s0) && Run(s0, sched, fences) == Some(s);
    RunThen(s0, sched, a, fences);
    s' := Apply(s, a, fences);
  }

  /** A state of two threads with no posted resume, no parked chain and a connected socket. */
  function At(th0: Thread, th1: Thread, slots: seq<Slot>, running: bool, cursor: nat, wakeups: nat, frames: nat,
              chain: ChainPc, abandoned: bool): State {
    State([th0, th1], slots, running, cursor, Connected, false, wakeups, 0, frames, chain,
          if cursor == 0 || chain.Have? then [] else ["a"], abandoned)
  }

  const QUIET := Thread(Idle, [])
  const SLOT_A := Slot("a", true, 1)

  /** The session reached CONNECTED and runs its callback. */
  lemma Open(fences: Fences) returns (s: State)
    ensures Reachable(s, fences) && s == At(QUIET, QUIET, [], false, 0, 0, 0, OnConnected, false)
  {
    s := State([QUIET, QUIET], [], false, 0, Disconnected, false, 0, 0, 0, NoHandler, [], false);
    assert Init(s) && Run(s, [], fences) == Some(s);
    s := Then(s, OpenSession, fences);
    s := Then(s, SessionConnected, fences);
  }

  /** A connected websocket with nothing sent. */
  lemma Connect(fences: Fences) returns (s: State)
    ensures Reachable(s, fences) && s == At(QUIET, QUIET, [], false, 0, 0, 0, NoHandler, false)
  {
    s := Open(fences);
    s := Then(s, CallbackReturns(false), fences);
    s := Then(s, MaybeStartQueuedWrite, fences);
  }

  /** Thread 1 reserves, fills and publishes a slot; the publish is still in its store buffer. */
  lemma PublishRecord(s: State, th0: Thread, record: Record, fences: Fences) returns (s': State)
    requires Reachable(s, fences) && s.threads == [th0, QUIET] && s.status.Connected?
    ensures Reachable(s', fences)
    ensures s' == s.(threads := [th0, Thread(Published(|s.slots|), [Publish(|s.slots|)])],
                     slots := s.slots + [Slot(record, false, 1)])
  {
    s' := Then(s, SendCheck(1), fences);
    assert s'.threads == [th0, Thread(Checked, [])];
    s' := Then(s', SendReserve(1, record), fences);
    assert s'.threads == [th0, Thread(Reserved(|s.slots|), [])];
    s' := Then(s', SendPublish(1), fences);
    assert s'.threads[1] == Thread(Published(|s.slots|), [Publish(|s.slots|)]);
    assert s'.threads == [th0, s'.threads[1]];
  }

  /** The publish of slot i reaches memory and thread 1 passes its fence. */
  lemma Commit(s: State, th0: Thread, i: nat, fences: Fences) returns (s': State)
    requires Reachable(s, fences) && i < |s.slots|
    requires s.threads == [th0, Thread(Published(i), [Publish(i)])]
    ensures Reachable(s', fences)
    ensures s' == s.(threads := [th0, Thread(Fenced, [])], slots := s.slots[i := s.slots[i].(published := true)])
  {
    s' := Then(s, Flush(1), fences);
    assert s'.threads[1] == Thread(Published(i), []);
    assert s'.threads == [th0, s'.threads[1]];
    s' := Then(s', SendFence(1), fences);
    assert s'.threads == [th0, Thread(Fenced, [])];
  }

  /** Thread 1 has sent "a" and posted the wakeup. */
  lemma FirstSend(fences: Fences) returns (s: State)
    ensures Reachable(s, fences) && s == At(QUIET, QUIET, [SLOT_A], true, 0, 1, 0, NoHandler, false)
  {
    s := Connect(fences);
    s := PublishRecord(s, QUIET, "a", fences);
    s := Commit(s, QUIET, 0, fences);
    assert s == At(QUIET, Thread(Fenced, []), [SLOT_A], false, 0, 0, 0, NoHandler, false);
    s := Then(s, SendLoad(1), fences);
    assert s == At(QUIET, Thread(SawFree, []), [SLOT_A], false, 0, 0, 0, NoHandler, false);
    s := Then(s, SendCas(1), fences);
    assert s == At(QUIET, Thread(Claimed, []), [SLOT_A], true, 0, 0, 0, NoHandler, false);
    s := Then(s, SendPost(1), fences);
    assert s.threads == [QUIET, QUIET];
  }

  /** The wakeup runs. */
  lemma FirstWakeup(fences: Fences) returns (s: State)
    ensures Reachable(s, fences) && s == At(QUIET, QUIET, [SLOT_A], true, 0, 0, 0, ReadNext, false)
  {
    s := FirstSend(fences);
    s := Then(s, RunWakeup, fences);
    assert s == At(QUIET, QUIET, [SLOT_A], true, 0, 0, 0, Entry, false);
    s := Then(s, EnterWrite, fences);
  }

  /** The chain has started the frame of "a". */
  lemma FirstFrame(fences: Fences) returns (s: State)
    ensures Reachable(s, fences) && s == At(QUIET, QUIET, [SLOT_A], true, 1, 0, 1, NoHandler, false)
  {
    s := FirstWakeup(fences);
    s := Then(s, ReadCursor, fences);
    assert s == At(QUIET, QUIET, [SLOT_A], true, 1, 0, 0, Have("a"), false);
    s := Then(s, StartFrame, fences);
  }

  /** The chain found the queue dry. */
  lemma ChainDry(fences: Fences) returns (s: State)
    ensures Reachable(s, fences) && s == At(QUIET, QUIET, [SLOT_A], true, 1, 0, 0, Dry, false)
  {
    s := FirstFrame(fences);
    s := Then(s, FrameDone(true), fences);
    s := Then(s, EnterWrite, fences);
    assert s == At(QUIET, QUIET, [SLOT_A], true, 1, 0, 0, ReadNext, false);
    s := Then(s, ReadCursor, fences);
  }

  ghost predicate QuietlyStranded(s: State) {
    Stranded(s) && !s.abandoned && forall t :: 0 <= t < |s.threads| ==> s.threads[t] == QUIET
  }

  /** A send without its own fence has returned and its publish is still buffered. */
  lemma SendMisses(fences: Fences) returns (s: State)
    requires !fences.send
    ensures Reachable(s, fences)
    ensures s == At(QUIET, Thread(Idle, [Publish(1)]), [SLOT_A, Slot("b", false, 1)], true, 1, 0, 0, Dry, false)
  {
    s := ChainDry(fences);
    s := PublishRecord(s, QUIET, "b", fences);
    assert s.slots == [SLOT_A, Slot("b", false, 1)];
    s := Then(s, SendFence(1), fences);
    s := Then(s, SendLoad(1), fences);
    assert s.threads == [QUIET, Thread(Idle, [Publish(1)])];
  }

  /** The chain has then ended, and its release has reached memory. */
  lemma ChainMisses(fences: Fences) returns (s: State)
    requires !fences.send
    ensures Reachable(s, fences)
    ensures s == At(QUIET, Thread(Idle, [Publish(1)]), [SLOT_A, Slot("b", false, 1)], false, 1, 0, 0, Released, false)
  {
    var late := Thread(Idle, [Publish(1)]);
    s := SendMisses(fences);
    s := Then(s, ReleaseGate, fences);
    assert s.threads[0].buffer == [Release];
    assert s.threads == [Thread(Idle, [Release]), late];
    s := Then(s, Flush(0), fences);
    assert s.threads[0].buffer == [];
    assert s.threads == [QUIET, late];
  }

  /** Without its own fence a send loads the gate while its publish is still buffered; the chain then ends
      without having seen the record. */
  lemma UnfencedSendStrands(fences: Fences) returns (s: State)
    requires !fences.send
    ensures Reachable(s, fences) && QuietlyStranded(s)
  {
    s := ChainMisses(fences);
    s := Then(s, FenceGate, fences);
    s := Then(s, Probe, fences);
    s := Then(s, Flush(1), fences);
    assert s.threads[1].buffer == [];
    assert s.threads == [QUIET, QUIET];
    assert s.slots == [SLOT_A, Slot("b", true, 1)];
  }

  /** A chain without its own fence has probed and ended, and its release is still buffered. */
  lemma ProbeMisses(fences: Fences) returns (s: State)
    requires !fences.chain
    ensures Reachable(s, fences)
    ensures s == At(Thread(Idle, [Release]), QUIET, [SLOT_A], true, 1, 0, 0, NoHandler, false)
  {
    s := ChainDry(fences);
    s := Then(s, ReleaseGate, fences);
    assert s.threads[0].buffer == [Release];
    assert s.threads == [Thread(Idle, [Release]), QUIET];
    s := Then(s, FenceGate, fences);
    s := Then(s, Probe, fences);
  }

  /** Without its own fence the chain probes while its release is still buffered; a send that publishes then
      still sees a running chain. */
  lemma UnfencedChainStrands(fences: Fences) returns (s: State)
    requires !fences.chain
    ensures Reachable(s, fences) && QuietlyStranded(s)
  {
    var th0 := Thread(Idle, [Release]);
    var slots := [SLOT_A, Slot("b", true, 1)];
    s := ProbeMisses(fences);
    s := PublishRecord(s, th0, "b", fences);
    s := Commit(s, th0, 1, fences);
    assert s == At(th0, Thread(Fenced, []), slots, true, 1, 0, 0, NoHandler, false);
    s := Then(s, SendLoad(1), fences);
    assert s.threads == [th0, QUIET];
    s := Then(s, Flush(0), fences);
    assert s.threads[0].buffer == [];
    assert s.threads == [QUIET, QUIET];
  }

  /** Each fence is needed, and the two together are enough: only with both does nothing strand a record
      except a write error. */
  lemma BothFencesNeeded(fences: Fences)
    ensures fences == FENCED <==> forall s :: Reachable(s, fences) && Stranded(s) ==> s.abandoned
  {
    if fences == FENCED {
      forall s | Reachable(s, fences) && Stranded(s) ensures s.abandoned {
        NeverStranded(s);
      }
    } else if !fences.send {
      var s := UnfencedSendStrands(fences);
    } else {
      var s := UnfencedChainStrands(fences);
    }
  }

  /** A write error ended the chain; the release is still in the store buffer. */
  lemma ChainAbandoned() returns (s: State)
    ensures Reachable(s, FENCED) && s == At(Thread(Idle, [Release]), QUIET, [SLOT_A], true, 1, 0, 0, NoHandler, true)
  {
    s := FirstFrame(FENCED);
    s := Then(s, FrameDone(false), FENCED);
    s := Then(s, Abandon, FENCED);
    assert s.threads[0].buffer == [Release];
    assert s.threads == [Thread(Idle, [Release]), QUIET];
  }

  /** With the fences, a send that follows a write error can still leave its record to the chain that was
      abandoned, while the release is on its way to memory. */
  lemma AbandonStrands()
    ensures exists s :: Reachable(s, FENCED) && Stranded(s) && s.abandoned
                        && forall t :: 0 <= t < |s.threads| ==> s.threads[t] == QUIET
  {
    var th0 := Thread(Idle, [Release]);
    var slots := [SLOT_A, Slot("b", true, 1)];
    var s := ChainAbandoned();
    s := PublishRecord(s, th0, "b", FENCED);
    s := Commit(s, th0, 1, FENCED);
    assert s == At(th0, Thread(Fenced, []), slots, true, 1, 0, 0, NoHandler, true);
    s := Then(s, SendLoad(1), FENCED);
    assert s.threads == [th0, QUIET];
    s := Then(s, Flush(0), FENCED);
    assert s.threads[0].buffer == [];
    assert s.threads == [QUIET, QUIET];
    assert Stranded(s);
  }

  // ---- a send before CONNECTED ----

  /** The websocket is CONNECTING and thread 1 has sent "a". */
  lemma EarlySend() returns (s: State)
    ensures Reachable(s, FENCED)
    ensures s == State([QUIET, QUIET], [SLOT_A], true, 0, Connecting, false, 1, 0, 0, NoHandler, [], false)
  {
    s := State([QUIET, QUIET], [], false, 0, Disconnected, false, 0, 0, 0, NoHandler, [], false);
    assert Init(s) && Run(s, [], FENCED) == Some(s);
    s := Then(s, OpenSession, FENCED);
    s := EarlyPublish(s);
    s := EarlyClaim(s);
  }

  lemma EarlyClaim(s: State) returns (s': State)
    requires Reachable(s, FENCED)
    requires s.threads == [QUIET, Thread(Fenced, [])]
    requires s == State(s.threads, [SLOT_A], false, 0, Connecting, false, 0, 0, 0, NoHandler, [], false)
    ensures Reachable(s', FENCED)
    ensures s' == s.(threads := [QUIET, QUIET], running := true, wakeups := 1)
  {
    s' := Then(s, SendLoad(1), FENCED);
    assert s'.threads == [QUIET, Thread(SawFree, [])];
    s' := Then(s', SendCas(1), FENCED);
    assert s'.threads == [QUIET, Thread(Claimed, [])];
    s' := Then(s', SendPost(1), FENCED);
    assert s'.threads == [QUIET, QUIET];
  }

  lemma EarlyPublish(s: State) returns (s': State)
    requires Reachable(s, FENCED)
    requires s == State([QUIET, QUIET], [], false, 0, Connecting, false, 0, 0, 0, NoHandler, [], false)
    ensures Reachable(s', FENCED)
    ensures s' == s.(threads := [QUIET, Thread(Fenced, [])], slots := [SLOT_A])
  {
    s' := Then(s, SendCheck(1), FENCED);
    assert s'.threads == [QUIET, Thread(Checked, [])];
    s' := Then(s', SendReserve(1, "a"), FENCED);
    assert s'.threads == [QUIET, Thread(Reserved(0), [])];
    s' := Then(s', SendPublish(1), FENCED);
    assert s'.threads[1] == Thread(Published(0), [Publish(0)]);
    assert s'.threads == [QUIET, Thread(Published(0), [Publish(0)])];
    s' := Commit(s', QUIET, 0, FENCED);
    assert s'.slots == [SLOT_A];
  }

  /** Its chain is parked. */
  lemma EarlyPark() returns (s: State)
    ensures Reachable(s, FENCED)
    ensures s == State([QUIET, QUIET], [SLOT_A], true, 0, Connecting, true, 0, 0, 0, NoHandler, [], false)
  {
    s := EarlySend();
    s := Then(s, RunWakeup, FENCED);
    assert s == State([QUIET, QUIET], [SLOT_A], true, 0, Connecting, false, 0, 0, 0, Entry, [], false);
    s := Then(s, EnterWrite, FENCED);
  }

  /** The session has reached CONNECTED and resumed it. */
  lemma EarlyResume() returns (s: State)
    ensures Reachable(s, FENCED)
    ensures s == State([QUIET, QUIET], [SLOT_A], true, 0, Connected, false, 0, 1, 0, NoHandler, [], false)
  {
    s := EarlyPark();
    s := Then(s, SessionConnected, FENCED);
    assert s == State([QUIET, QUIET], [SLOT_A], true, 0, Connected, true, 0, 0, 0, OnConnected, [], false);
    s := Then(s, CallbackReturns(false), FENCED);
    s := Then(s, MaybeStartQueuedWrite, FENCED);
  }

  lemma EarlyRead() returns (s: State)
    ensures Reachable(s, FENCED)
    ensures s == State([QUIET, QUIET], [SLOT_A], true, 0, Connected, false, 0, 0, 0, ReadNext, [], false)
  {
    s := EarlyResume();
    s := Then(s, RunResume, FENCED);
    assert s == State([QUIET, QUIET], [SLOT_A], true, 0, Connected, false, 0, 0, 0, Entry, [], false);
    s := Then(s, EnterWrite, FENCED);
  }

  /** A record sent while CONNECTING is accepted, its chain is parked and resumed, and it is written. */
  lemma EarlySendIsWritten()
    ensures exists s, s' ::
              && Reachable(s, FENCED) && s.status.Connecting? && s.parked && s.slots == [SLOT_A] && s.written == []
              && Reachable(s', FENCED) && s'.status.Connected? && s'.slots == [SLOT_A] && s'.written == ["a"]
  {
    var s := EarlyPark();
    var s' := EarlyRead();
    s' := Then(s', ReadCursor, FENCED);
    assert s'.chain == Have("a");
    s' := Then(s', StartFrame, FENCED);
  }
}
