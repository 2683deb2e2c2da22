/** A reconnect on a shared buffer, from the first open() to the destructor. */
module BufferHandoffWitness {
  import opened Wrappers
  import opened BufferHandoff
  import opened BufferHandoffProofs

  lemma {:induction false} RunThen(s: State, sched: seq<Step>, a: Step)
    requires Run(s, sched).Some? && Enabled(Run(s, sched).value, a)
    ensures Run(s, sched + [a]) == Some(Apply(Run(s, sched).value, a))
    decreases |sched|
  {
    if sched != [] {
      RunThen(Apply(s, sched[0]), sched[1..], a);
      assert (sched + [a])[1..] == sched[1..] + [a];
    } else {
      assert sched + [a] == [a];
    }
  }

  lemma Then(s: State, a: Step) returns (s': State)
    requires Reachable(s) && Enabled(s, a)
    ensures s' == Apply(s, a) && Reachable(s')
  {
    var s0: State, sched: seq<Step> :| Init(s0) && Run(s0, sched) == Some(s);
    RunThen(s0, sched, a);
    s' := Apply(s, a);
  }

  /** An impl whose open has gone through. */
  function Begun(status: Status, release: Release, session: SessionPc): Impl {
    FIRST.(status := status, started := true, release := release, open := Returned, session := session)
  }

  /** The first open() has begun a session. */
  lemma FirstSession() returns (s: State)
    ensures Reachable(s) && s == State([Begun(Connecting, Active, Handshaking)], Free)
  {
    s := State([], Free);
    assert Init(s) && Run(s, []) == Some(s);
    s := Then(s, FacadeOpen);
    assert s == State([FIRST], Inside(0));
    s := Then(s, OpenNext(0));
    s := Then(s, OpenNext(0));
    assert s == State([FIRST.(status := Connecting, open := StartedStore)], Inside(0));
    s := Then(s, OpenNext(0));
    s := Then(s, OpenNext(0));
    assert s.impls == [Begun(Connecting, Active, Handshaking)];
    s := Then(s, FacadeNext);
  }

  /** It reads, and is closed. */
  lemma FirstClosed() returns (s: State)
    ensures Reachable(s) && s == State([Begun(Disconnecting, Active, Reading)], Free)
  {
    s := FirstSession();
    s := Then(s, SessionConnects(0));
    assert s == State([Begun(Connected, Active, Handshaking)], Free);
    s := Then(s, SessionReads(0));
    assert s == State([Begun(Connected, Active, Reading)], Free);
    s := Then(s, FacadeClose);
    assert s.impls == [Begun(Disconnecting, Active, Reading)];
  }

  /** The first impl when a second one is to follow it. */
  function Old(release: Release, callback: bool, session: SessionPc, continued: nat): Impl {
    Begun(Disconnecting, release, session).(detached := true, callback := callback, continued := continued)
  }

  /** A second open() has detached it. */
  lemma SecondCreated() returns (s: State)
    ensures Reachable(s) && s == State([Old(Active, false, Reading, 0), PENDING], StoreCallback(0))
  {
    s := FirstClosed();
    s := Then(s, FacadeOpen);
    assert s == State([Begun(Disconnecting, Active, Reading)], Detach(0));
    s := Then(s, FacadeNext);
    assert s == State([Old(Active, false, Reading, 0)], CloseOld(0));
    s := Then(s, FacadeNext);
    assert s == State([Old(Active, false, Reading, 0)], Create(0));
    s := Then(s, FacadeNext);
  }

  /** It has returned; the new impl waits for the buffer. */
  lemma SecondPending() returns (s: State)
    ensures Reachable(s) && s == State([Old(CallbackSet, true, Reading, 0), PENDING], Free)
  {
    s := SecondCreated();
    s := Then(s, FacadeNext);
    assert s == State([Old(Active, true, Reading, 0), PENDING], SetCas(0));
    s := Then(s, FacadeNext);
    assert s.impls == [Old(CallbackSet, true, Reading, 0), PENDING];
  }

  /** The old session has released, and its release opens the new impl. */
  lemma SecondEntered() returns (s: State)
    ensures Reachable(s)
    ensures s == State([Old(Released, true, Over, 1), PENDING.(open := Entered, opens := 1)], Free)
  {
    s := SecondPending();
    s := Then(s, SessionEnds(0));
    assert s == State([Old(CallbackSet, true, Ending, 0), PENDING], Free);
    s := Then(s, SessionNext(0));
    assert s == State([Old(Released, true, Continuing, 0), PENDING], Free);
    s := Then(s, SessionNext(0));
    assert s.impls == [Old(Released, true, Over, 1), PENDING.(open := Entered, opens := 1)];
  }

  lemma SecondSession() returns (s: State)
    ensures Reachable(s)
    ensures s == State([Old(Released, true, Over, 1), Begun(Connecting, Active, Handshaking)], Free)
  {
    s := SecondEntered();
    s := Then(s, OpenNext(1));
    s := Then(s, OpenNext(1));
    assert s.impls == [Old(Released, true, Over, 1), PENDING.(open := StartedExchange, opens := 1)];
    s := Then(s, OpenNext(1));
    s := Then(s, OpenNext(1));
    assert s.impls == [Old(Released, true, Over, 1), Begun(Connecting, Active, Handshaking)];
  }

  /** A closed session hands the shared buffer to the one that was opened behind it, which connects and reads. */
  lemma ReconnectReads() returns (s: State)
    ensures Reachable(s) && s.facade.Free? && |s.impls| == 2
    ensures s.impls[0].session.Over? && s.impls[0].release.Released?
    ensures s.impls[1].session.Reading? && s.impls[1].status.Connected? && s.impls[1].started && Holds(s.impls[1])
  {
    s := SecondSession();
    s := Then(s, SessionConnects(1));
    assert s.impls == [Old(Released, true, Over, 1), Begun(Connected, Active, Handshaking)];
    s := Then(s, SessionReads(1));
    assert s.impls == [Old(Released, true, Over, 1), Begun(Connected, Active, Reading)];
  }

  /** And the destructor closes that one. */
  lemma DestructorCloses() returns (s: State)
    ensures Reachable(s) && s.facade.Gone? && |s.impls| == 2 && s.impls[1].status.Disconnecting?
  {
    s := ReconnectReads();
    s := Then(s, FacadeDestroy);
    assert s.facade == DropCancel(1);
    s := Then(s, FacadeNext);
    s := Then(s, FacadeNext);
  }
}
