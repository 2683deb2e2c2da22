/** Runs of an HttpStream that show two guarantees are no stronger than stated. */
module HttpStreamWitness {
  import opened Wrappers
  import opened HttpStream
  import opened HttpStreamProofs
  import opened HttpStreamTheorems

  lemma Then(s: State, a: Step) returns (s': State)
    requires Reachable(s) && Enabled(s, a)
    ensures s' == Apply(s, a) && Reachable(s')
  {
    var s0: State, sched: seq<Step> :| Init(s0) && Run(s0, sched) == Some(s);
    RunAppend(s0, sched, [a]);
    assert [a][1..] == [];
    s' := Apply(s, a);
  }

  const IDLE: seq<CallPc> := [NoCall, NoCall]

  /** The first session of a stream without TLS, no call in progress. */
  function Serving1(word: Word, cancels: nat, io: Option<nat>, pc: SessionPc, inCallback: bool,
                    trace: seq<Event>): State
  {
    State(word, IDLE, 0, cancels, true, 1, io, Session(1, pc), inCallback, false, trace)
  }

  const OPEN: Word := Word(1, Connecting)
  const UP: Word := Word(1, Connected)
  const ENDED: Word := Word(1, Disconnected)

  /** Thread 1 has opened the stream. */
  lemma Open() returns (s: State)
    ensures Reachable(s) && s == State(OPEN, IDLE, 1, 0, false, 0, None, NotServing, false, false, [])
  {
    s := State(Word(0, Disconnected), IDLE, 0, 0, false, 0, None, NotServing, false, false, []);
    assert Init(s) && Run(s, []) == Some(s);
    s := Then(s, CallOpen(1));
    assert s.callers == [NoCall, OpenHave(Word(0, Disconnected))];
    s := Then(s, Cas(1, false));
    assert s.callers == [NoCall, OpenPost];
    s := Then(s, Post(1));
    assert s.callers == IDLE;
  }

  /** The strand has taken it up and looks for a generation to serve. */
  lemma Serve() returns (s: State)
    ensures Reachable(s) && s == State(OPEN, IDLE, 0, 0, true, 0, None, LoopHead, false, false, [])
  {
    s := Open();
    s := Then(s, RunServe);
    assert s == State(OPEN, IDLE, 0, 0, true, 0, None, Spawned, false, false, []);
    s := Then(s, Co(true, 0));
  }

  lemma Take() returns (s: State)
    ensures Reachable(s) && s == State(OPEN, IDLE, 0, 0, true, 0, None, Skip(1), false, false, [])
  {
    s := Serve();
    s := Then(s, Co(true, 0));
    assert s == State(OPEN, IDLE, 0, 0, true, 0, None, LoopHave(1), false, false, []);
    s := Then(s, Co(true, 0));
  }

  /** Its session is about to look up the host. */
  lemma Begin() returns (s: State)
    ensures Reachable(s) && s == Serving1(OPEN, 0, Some(1), Check(Resolve), false, [])
  {
    s := Take();
    s := Then(s, Co(true, 0));
    assert s == Serving1(OPEN, 0, None, Register, false, []);
    s := Then(s, Co(true, 0));
  }

  /** One stage begins, waits and succeeds. */
  lemma Pass(s: State, stage: Stage) returns (s': State)
    requires Reachable(s) && s == Serving1(OPEN, 0, Some(1), Check(stage), false, []) && !stage.Respond?
    ensures Reachable(s') && s' == Serving1(OPEN, 0, Some(1), Check(NextStage(stage, false)), false, [])
  {
    s' := Then(s, Co(true, 0));
    s' := Then(s', Co(true, 0));
    assert s' == Serving1(OPEN, 0, Some(1), Await(stage, Pending(NotAsked)), false, []);
    s' := Then(s', IoCompletes(true));
    s' := Then(s', Co(true, 0));
  }

  /** Thread 1 closes the stream. */
  lemma Close(s: State) returns (s': State)
    requires Reachable(s) && s.callers == IDLE && Current(s.word, 1)
    ensures Reachable(s') && s' == s.(word := ENDED, cancels := s.cancels + 1)
  {
    s' := Then(s, CallClose(1));
    assert s'.callers == [NoCall, CloseHave(s.word)];
    s' := Then(s', Cas(1, false));
    assert s'.callers == [NoCall, ClosePost];
    s' := Then(s', Post(1));
    assert s'.callers == IDLE;
  }

  /** All stages have passed. */
  lemma PassAll() returns (s: State)
    ensures Reachable(s) && s == Serving1(OPEN, 0, Some(1), Check(Respond), false, [])
  {
    s := Begin();
    s := Pass(s, Resolve);
    s := Pass(s, Connect);
    s := Pass(s, Write);
    s := Pass(s, ReadHeader);
  }

  /** The response header is there. */
  lemma ReachHeader() returns (s: State)
    ensures Reachable(s) && s == Serving1(OPEN, 0, Some(1), Header, false, [])
  {
    s := PassAll();
    s := Then(s, Co(true, 0));
  }

  const GREETED: seq<Event> := [OnConnected(1)]

  /** The session is connected and about to call onConnected. */
  lemma ReachConnected() returns (s: State)
    ensures Reachable(s) && s == Serving1(UP, 0, Some(1), CallConnected, false, [])
  {
    s := ReachHeader();
    s := Then(s, Co(true, 0));
    assert s == Serving1(OPEN, 0, Some(1), ConnectCas, false, []);
    s := Then(s, Co(true, 0));
  }

  /** Its onConnected has returned. */
  lemma ReachLoop() returns (s: State)
    ensures Reachable(s) && s == Serving1(UP, 0, Some(1), LoopTest, false, GREETED)
  {
    s := ReachConnected();
    s := Then(s, Co(true, 0));
    assert s == Serving1(UP, 0, Some(1), LoopTest, true, GREETED);
    s := Then(s, CallbackReturns);
  }

  /** The session waits for the body. */
  lemma ReachRead() returns (s: State)
    ensures Reachable(s) && s == Serving1(UP, 0, Some(1), AwaitRead(Pending(NotAsked)), false, GREETED)
  {
    s := ReachLoop();
    s := Then(s, Co(true, 0));
    assert s == Serving1(UP, 0, Some(1), StartRead, false, GREETED);
    s := Then(s, Co(true, 0));
  }

  /** A read has brought something. */
  lemma ReachInput() returns (s: State)
    ensures Reachable(s) && s == Serving1(UP, 0, Some(1), AwaitRead(Completed(true)), false, GREETED)
  {
    s := ReachRead();
    s := Then(s, IoCompletes(true));
  }

  /** A piece with one event. */
  lemma ReachPiece() returns (s: State)
    ensures Reachable(s) && s == Serving1(UP, 0, Some(1), ReadDone(1, false), false, GREETED)
  {
    s := ReachInput();
    s := Then(s, Co(true, 1));
  }

  lemma ReachEvent() returns (s: State)
    ensures Reachable(s) && s == Serving1(UP, 0, Some(1), Deliver(1, false), false, GREETED)
  {
    s := ReachPiece();
    s := Then(s, Co(true, 0));
  }

  /** The session has checked its generation and is about to call onData. */
  lemma ReachData() returns (s: State)
    ensures Reachable(s) && s == Serving1(UP, 0, Some(1), CallData(0, false), false, GREETED)
  {
    s := ReachEvent();
    s := Then(s, Co(true, 0));
  }

  /** A close() from another thread returns between the check of the session and its onData: no call is in
      progress, no callback is running, the generation is over, and the next step of the session begins an
      onData of it. */
  lemma DataBeginsAfterClose() returns (s: State)
    ensures Reachable(s) && Over(s.word, 1) && !s.inCallback
    ensures forall t :: 0 <= t < |s.callers| ==> s.callers[t].NoCall?
    ensures Enabled(s, Co(true, 0)) && Apply(s, Co(true, 0)).trace == s.trace + [OnData(1)]
  {
    s := ReachData();
    s := Close(s);
    assert s == Serving1(ENDED, 1, Some(1), CallData(0, false), false, GREETED);
  }

  /** The session waits for the lookup. */
  lemma ReachLookup() returns (s: State)
    ensures Reachable(s) && s == Serving1(OPEN, 0, Some(1), Await(Resolve, Pending(NotAsked)), false, [])
  {
    s := Begin();
    s := Then(s, Co(true, 0));
    s := Then(s, Co(true, 0));
  }

  /** The cancel of a close() has run and the session waits on: its generation is over, no call is in progress and
      no cancel is queued, and no step but that of the network ends the wait. */
  ghost predicate Outlived(s: State) {
    && Reachable(s) && AtAwait(s.co) && s.co.pc.io.Pending? && s.co.g == 1 && Over(s.word, 1) && s.cancels == 0
    && (forall t :: 0 <= t < |s.callers| ==> s.callers[t].NoCall?)
    && (forall a: Step :: Enabled(s, a) ==> a.CallOpen? || a.CallClose? || a.IoCompletes? || a.IoAdvances?)
  }

  lemma NothingEndsIt(s: State, pc: SessionPc, trace: seq<Event>)
    requires Reachable(s) && s == Serving1(ENDED, 0, Some(1), pc, false, trace)
    requires (pc.Await? || pc.AwaitRead?) && pc.io.Pending?
    ensures Outlived(s)
  {
  }

  /** A DNS lookup outlives its cancel, and may yet succeed. */
  lemma LookupOutlivesCancel() returns (s: State)
    ensures Outlived(s) && s.co.pc == Await(Resolve, Pending(LookupRuns))
  {
    s := ReachLookup();
    s := Close(s);
    assert s == Serving1(ENDED, 1, Some(1), Await(Resolve, Pending(NotAsked)), false, []);
    s := Then(s, RunCancel(false));
    NothingEndsIt(s, Await(Resolve, Pending(LookupRuns)), []);
  }

  /** The session reads the body, and one operation of the read is over. */
  lemma ReachBetween() returns (s: State)
    ensures Reachable(s) && s == Serving1(UP, 0, Some(1), AwaitRead(Between(NotAsked)), false, GREETED)
  {
    s := ReachRead();
    s := Then(s, IoAdvances);
  }

  /** A cancel has run in between and had nothing to end. */
  lemma ReachMissed() returns (s: State)
    ensures Reachable(s) && s == Serving1(ENDED, 0, Some(1), AwaitRead(Between(BetweenOps)), false, GREETED)
  {
    s := ReachBetween();
    s := Close(s);
    assert s == Serving1(ENDED, 1, Some(1), AwaitRead(Between(NotAsked)), false, GREETED);
    s := Then(s, RunCancel(false));
  }

  /** A read outlives a cancel that runs between two of its operations. */
  lemma ReadOutlivesCancel() returns (s: State)
    ensures Outlived(s) && s.co.pc == AwaitRead(Pending(BetweenOps))
  {
    s := ReachMissed();
    s := Then(s, IoContinues);
    NothingEndsIt(s, AwaitRead(Pending(BetweenOps)), GREETED);
  }
}
