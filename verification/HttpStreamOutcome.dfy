/**
 A session reports what happened to it. The facts of a session - which awaits succeeded, what the server answered,
 how many events it sent, why it stopped reading - are noted down along a run, apart from the state; a session whose
 generation is still open when it comes to its end has told its user exactly those facts.
 */
module HttpStreamOutcome {
  import opened Wrappers
  import opened HttpStream
  import opened HttpStreamProofs
  import opened HttpStreamTheorems

  /** What has happened to the session that runs. */
  datatype Facts = Facts(
    passed: seq<Stage>,      // the awaits that succeeded, in order
    failed: bool,            // one of them, or the TLS setup, did not
    answer: Option<bool>,    // whether the server accepted the request
    finished: bool,          // the server ended the response
    readFailed: bool,
    promised: nat,           // the events of all the pieces that were read while the generation was open
    shut: bool               // the TLS connection was shut down
  )

  const NOTHING: Facts := Facts([], false, None, false, false, 0, false)

  function SessionNote(f: Facts, s: State, pc: SessionPc, yes: bool): Facts {
    match pc
    case Register => f.(failed := s.ssl && !yes)
    case Await(stage, io) => if io == Completed(true) then f.(passed := f.passed + [stage]) else f.(failed := true)
    case Header => f.(answer := Some(yes))
    case LoopTest => if yes then f else f.(finished := true)
    case AwaitRead(io) => f.(readFailed := io != Completed(true))
    case ReadDone(n, _) => f.(promised := f.promised + (if yes then n else if n > 0 then 1 else 0))
    case AwaitShutdown => f.(shut := true)
    case _ => f
  }

  function Note(f: Facts, s: State, a: Step): Facts {
    if !a.Co? then f
    else if s.co.Skip? then NOTHING
    else if s.co.Session? then SessionNote(f, s, s.co.pc, a.yes)
    else f
  }

  function Notes(f: Facts, s: State, sched: seq<Step>): Facts
    requires Run(s, sched).Some?
    decreases |sched|
  {
    if sched == [] then f else Notes(Note(f, s, sched[0]), Apply(s, sched[0]), sched[1..])
  }

  // ---- what the session has told ----

  /** The awaits of a session in front of the response, with TLS and without. */
  function Order(ssl: bool): seq<Stage> {
    if ssl then [Resolve, Connect, Handshake, Write, ReadHeader] else [Resolve, Connect, Write, ReadHeader]
  }

  /** Those in front of a stage. */
  function Before(stage: Stage, ssl: bool): seq<Stage> {
    match stage
    case Resolve => []
    case Connect => [Resolve]
    case Handshake => [Resolve, Connect]
    case Write => if ssl then [Resolve, Connect, Handshake] else [Resolve, Connect]
    case ReadHeader => if ssl then [Resolve, Connect, Handshake, Write] else [Resolve, Connect, Write]
    case Respond => Order(ssl)
  }

  predicate Quiet(trace: seq<Event>, g: nat) {
    OnConnected(g) !in trace && OnError(g) !in trace && Datas(trace, g) == 0
  }

  /** The user has been told exactly what happened: connected if the server accepted the request behind all the
      awaits, an error if anything failed or the server refused, every event; and the session ended for a reason. */
  predicate Outcome(trace: seq<Event>, g: nat, f: Facts, ssl: bool) {
    && (OnConnected(g) in trace <==> f.answer == Some(true))
    && (OnError(g) in trace <==> f.failed || f.answer == Some(false) || f.readFailed)
    && Datas(trace, g) == f.promised
    && (f.answer.None? ==> f.failed)
    && (f.answer.Some? ==> f.passed == Order(ssl))
    && (f.answer == Some(true) ==> f.readFailed || f.finished)
  }

  /** Connected, in the read loop, with `left` events of a piece to go. */
  predicate Streaming(trace: seq<Event>, g: nat, f: Facts, ssl: bool, left: nat, err: bool) {
    && OnConnected(g) in trace && OnError(g) !in trace && Datas(trace, g) + left == f.promised
    && f == Facts(Order(ssl), false, Some(true), false, err, f.promised, false)
  }

  predicate Told(pc: SessionPc, trace: seq<Event>, g: nat, f: Facts, ssl: bool) {
    match pc
    case Register => f == NOTHING && Quiet(trace, g)
    case Check(stage) => f == NOTHING.(passed := Before(stage, ssl)) && Quiet(trace, g)
    case Start(stage) => f == NOTHING.(passed := Before(stage, ssl)) && Quiet(trace, g)
    case Await(stage, _) => f == NOTHING.(passed := Before(stage, ssl)) && Quiet(trace, g)
    case Header => f == NOTHING.(passed := Order(ssl)) && Quiet(trace, g)
    case CallHttpError => f == NOTHING.(passed := Order(ssl), answer := Some(false)) && Quiet(trace, g)
    case ConnectCas => f == NOTHING.(passed := Order(ssl), answer := Some(true)) && Quiet(trace, g)
    case CallConnected => f == NOTHING.(passed := Order(ssl), answer := Some(true)) && Quiet(trace, g)
    case LoopTest => Streaming(trace, g, f, ssl, 0, false)
    case StartRead => Streaming(trace, g, f, ssl, 0, false)
    case AwaitRead(_) => Streaming(trace, g, f, ssl, 0, false)
    case ReadDone(_, err) => Streaming(trace, g, f, ssl, 0, err)
    case Deliver(n, err) => Streaming(trace, g, f, ssl, n, err)
    case CallData(n, err) => Streaming(trace, g, f, ssl, n + 1, err)
    case AfterRead(err) => Streaming(trace, g, f, ssl, 0, err)
    case CallReadError => Streaming(trace, g, f, ssl, 0, true)
    case Thrown => f.failed && f.answer.None? && !f.readFailed && f.promised == 0 && !f.shut && Quiet(trace, g)
    case CallThrownError => f.failed && f.answer.None? && !f.readFailed && f.promised == 0 && !f.shut && Quiet(trace, g)
    case Leave(graceful) => Outcome(trace, g, f, ssl) && (graceful <==> f.answer == Some(true)) && !f.shut
    case AwaitShutdown => Outcome(trace, g, f, ssl) && f.answer == Some(true) && ssl && !f.shut
    case EndLoad => Outcome(trace, g, f, ssl) && (f.shut <==> ssl && f.answer == Some(true))
    case EndHave(_) => Outcome(trace, g, f, ssl) && (f.shut <==> ssl && f.answer == Some(true))
    case CallDisconnected => true
  }

  /** The session is not yet past the step that makes the stream CONNECTED. */
  predicate Unconnected(pc: SessionPc) {
    pc.Register? || pc.Check? || pc.Start? || pc.Await? || pc.Header? || pc.CallHttpError? || pc.ConnectCas?
    || pc.Thrown? || pc.CallThrownError?
  }

  /** CONNECTED is what a session has made it, and only a session with TLS shakes hands. */
  predicate StatusOk(s: State) {
    && (s.word.status.Connected? ==> s.co.Session? && s.co.g == s.word.gen && !Unconnected(s.co.pc))
    && (s.co.Session? && (s.co.pc.CallConnected? || LivePc(s.co.pc)) && Current(s.word, s.co.g) ==>
          s.word.status.Connected?)
    && (s.co.Session? && (s.co.pc.Check? || s.co.pc.Start? || s.co.pc.Await?) ==>
          (if s.co.pc.Check? then s.co.pc.next else s.co.pc.stage).Handshake? ==> s.ssl)
  }

  ghost predicate Reported(s: State, f: Facts) {
    && StatusOk(s)
    && (s.co.Session? && Current(s.word, s.co.g) ==> Told(s.co.pc, s.trace, s.co.g, f, s.ssl))
  }

  // ---- the trace ----

  lemma TraceSnoc(trace: seq<Event>, e: Event, g: nat)
    ensures Datas(trace + [e], g) == Datas(trace, g) + (if e == OnData(g) then 1 else 0)
    ensures OnConnected(g) in trace + [e] <==> OnConnected(g) in trace || e == OnConnected(g)
    ensures OnError(g) in trace + [e] <==> OnError(g) in trace || e == OnError(g)
  {
    assert (trace + [e])[..|trace|] == trace;
  }

  /** Nothing has been told of a generation that has not begun. */
  lemma {:induction false} QuietAhead(trace: seq<Event>, g: nat)
    requires Parse(trace).Good?
    requires g > Parse(trace).done + (if Parse(trace).phase.Fresh? then 0 else 1)
    ensures Quiet(trace, g)
  {
    if trace != [] {
      var shorter, e := trace[..|trace| - 1], trace[|trace| - 1];
      QuietAhead(shorter, g);
      TraceSnoc(shorter, e, g);
      assert trace == shorter + [e];
    }
  }

  // ---- steps of others ----

  /** Nobody else makes an open generation anything else than what it was. */
  lemma OthersKeepWord(s: State, a: Step, g: nat)
    requires Enabled(s, a) && !a.Co? && Current(Apply(s, a).word, g) && s.word.gen >= g
    ensures Apply(s, a).word == s.word
  {
  }

  lemma OthersKeepSsl(s: State, a: Step)
    requires Enabled(s, a) && !a.Co?
    ensures Apply(s, a).ssl == s.ssl
    ensures Apply(s, a).word.status.Connected? ==> Apply(s, a).word == s.word
  {
  }

  /** Of the session only the state of its await changes. */
  lemma OthersKeepAwait(s: State, a: Step)
    requires Enabled(s, a) && !a.Co? && s.co.Session? && (s.serving <==> !s.co.NotServing?)
    ensures
      var s' := Apply(s, a);
      && s'.co.Session? && s'.co.g == s.co.g
      && (s'.co.pc == s.co.pc
          || (s.co.pc.Await? && s'.co.pc.Await? && s'.co.pc.stage == s.co.pc.stage)
          || (s.co.pc.AwaitRead? && s'.co.pc.AwaitRead?))
  {
  }

  lemma OthersKeepReported(s: State, a: Step, f: Facts)
    requires Inv(s) && Reported(s, f) && Enabled(s, a) && !a.Co?
    ensures Reported(Apply(s, a), f)
  {
    var s' := Apply(s, a);
    OtherFrame(s, a);
    OthersKeepSsl(s, a);
    if s.co.Session? {
      OthersKeepAwait(s, a);
      if Current(s'.word, s.co.g) {
        OthersKeepWord(s, a, s.co.g);
      }
    }
  }

  // ---- steps of the loop ----

  lemma LoopKeepsReported(s: State, yes: bool, events: nat, f: Facts)
    requires Inv(s) && Reported(s, f) && Enabled(s, Co(yes, events)) && !s.co.Session?
    ensures Reported(Apply(s, Co(yes, events)), Note(f, s, Co(yes, events)))
  {
    if s.co.Skip? {
      QuietAhead(s.trace, s.co.g);
    }
  }

  // ---- steps of the session ----

  /** The callback itself: what is told of the session with one more event. */
  lemma EventTells(pc: SessionPc, trace: seq<Event>, g: nat, f: Facts, ssl: bool)
    requires IsCall(pc) && !pc.CallDisconnected? && Told(pc, trace, g, f, ssl)
    ensures AfterCall(pc, g).Session? && Told(AfterCall(pc, g).pc, trace + [EventOf(pc, g)], g, f, ssl)
  {
    TraceSnoc(trace, EventOf(pc, g), g);
  }

  lemma CallbackTells(s: State, f: Facts)
    requires Inv(s) && Reported(s, f) && s.co.Session? && IsCall(s.co.pc)
    ensures Reported(Calls(s, EventOf(s.co.pc, s.co.g), AfterCall(s.co.pc, s.co.g)), f)
  {
    CallbackStatus(s);
    if Current(s.word, s.co.g) && !s.co.pc.CallDisconnected? {
      EventTells(s.co.pc, s.trace, s.co.g, f, s.ssl);
    }
  }

  lemma CallbackStatus(s: State)
    requires StatusOk(s) && Ended(s) && Generations(s) && s.co.Session? && IsCall(s.co.pc)
    ensures StatusOk(Calls(s, EventOf(s.co.pc, s.co.g), AfterCall(s.co.pc, s.co.g)))
  {
  }

  lemma CheckTells(s: State, yes: bool, events: nat, f: Facts)
    requires Inv(s) && Reported(s, f) && CanResume(s.co) && s.co.Session?
    requires s.co.pc.Register? || s.co.pc.Check? || s.co.pc.Start?
    ensures Reported(SessionStep(s, s.co.g, s.co.pc, yes, events), SessionNote(f, s, s.co.pc, yes))
  {
  }

  /** The session goes on to pc in front of that step. */
  lemma GoesOn(s: State, pc: SessionPc, io: Option<nat>, f: Facts, f': Facts)
    requires Reported(s, f) && s.co.Session? && Unconnected(s.co.pc) && (pc.Check? || pc.Thrown?)
    requires pc.Check? && pc.next.Handshake? ==> s.ssl
    requires Current(s.word, s.co.g) ==> Told(pc, s.trace, s.co.g, f', s.ssl)
    ensures Reported(s.(co := Session(s.co.g, pc), io := io), f')
  {
  }

  lemma AwaitTells(s: State, yes: bool, events: nat, f: Facts)
    requires Inv(s) && Reported(s, f) && CanResume(s.co) && s.co.Session? && s.co.pc.Await?
    ensures Reported(SessionStep(s, s.co.g, s.co.pc, yes, events), SessionNote(f, s, s.co.pc, yes))
  {
    var stage, f' := s.co.pc.stage, SessionNote(f, s, s.co.pc, yes);
    assert !stage.Respond? && (stage.Handshake? ==> s.ssl);
    if s.co.pc.io == Completed(true) {
      assert Before(stage, s.ssl) + [stage] == Before(NextStage(stage, s.ssl), s.ssl);
      GoesOn(s, Check(NextStage(stage, s.ssl)), s.io, f, f');
    } else {
      GoesOn(s, Thrown, None, f, f');
    }
  }

  lemma AnswerTells(s: State, yes: bool, events: nat, f: Facts)
    requires Inv(s) && Reported(s, f) && CanResume(s.co) && s.co.Session?
    requires s.co.pc.Header? || s.co.pc.ConnectCas?
    ensures Reported(SessionStep(s, s.co.g, s.co.pc, yes, events), SessionNote(f, s, s.co.pc, yes))
  {
  }

  lemma ReadTells(s: State, yes: bool, events: nat, f: Facts)
    requires Inv(s) && Reported(s, f) && CanResume(s.co) && s.co.Session?
    requires s.co.pc.LoopTest? || s.co.pc.StartRead? || s.co.pc.AwaitRead?
    ensures Reported(SessionStep(s, s.co.g, s.co.pc, yes, events), SessionNote(f, s, s.co.pc, yes))
  {
  }

  /** The session goes on to pc, past the step that connects it. */
  lemma GoesTo(s: State, pc: SessionPc, f: Facts, f': Facts)
    requires Reported(s, f) && s.co.Session? && !Unconnected(pc)
    requires !pc.CallConnected? && (LivePc(pc) ==> LivePc(s.co.pc))
    requires Current(s.word, s.co.g) ==> Told(pc, s.trace, s.co.g, f', s.ssl)
    ensures Reported(At(s, s.co.g, pc), f')
  {
  }

  lemma PieceTells(s: State, yes: bool, events: nat, f: Facts)
    requires Reported(s, f) && s.co.Session? && s.co.pc.ReadDone?
    ensures Reported(SessionStep(s, s.co.g, s.co.pc, yes, events), SessionNote(f, s, s.co.pc, yes))
  {
    var pc, f' := s.co.pc, SessionNote(f, s, s.co.pc, yes);
    if !Current(s.word, s.co.g) { GoesTo(s, Leave(true), f, f'); }
    else if yes || pc.events == 0 { GoesTo(s, Deliver(pc.events, pc.err), f, f'); }
    else { GoesTo(s, CallData(0, pc.err), f, f'); }
  }

  lemma DeliverTells(s: State, yes: bool, events: nat, f: Facts)
    requires Reported(s, f) && s.co.Session? && s.co.pc.Deliver?
    ensures Reported(SessionStep(s, s.co.g, s.co.pc, yes, events), SessionNote(f, s, s.co.pc, yes))
  {
    var pc := s.co.pc;
    if pc.events == 0 { GoesTo(s, AfterRead(pc.err), f, f); }
    else if Current(s.word, s.co.g) { GoesTo(s, CallData(pc.events - 1, pc.err), f, f); }
    else { GoesTo(s, Deliver(pc.events - 1, pc.err), f, f); }
  }

  lemma AfterReadTells(s: State, yes: bool, events: nat, f: Facts)
    requires Inv(s) && Reported(s, f) && CanResume(s.co) && s.co.Session? && s.co.pc.AfterRead?
    ensures Reported(SessionStep(s, s.co.g, s.co.pc, yes, events), SessionNote(f, s, s.co.pc, yes))
  {
  }

  lemma LeaveTells(s: State, yes: bool, events: nat, f: Facts)
    requires Inv(s) && Reported(s, f) && CanResume(s.co) && s.co.Session? && (s.co.pc.Leave? || s.co.pc.AwaitShutdown?)
    ensures Reported(SessionStep(s, s.co.g, s.co.pc, yes, events), SessionNote(f, s, s.co.pc, yes))
  {
  }

  lemma ThrownTells(s: State, yes: bool, events: nat, f: Facts)
    requires Inv(s) && Reported(s, f) && CanResume(s.co) && s.co.Session? && s.co.pc.Thrown?
    ensures Reported(SessionStep(s, s.co.g, s.co.pc, yes, events), SessionNote(f, s, s.co.pc, yes))
  {
  }

  lemma EndTells(s: State, yes: bool, events: nat, f: Facts)
    requires Inv(s) && Reported(s, f) && s.co.Session? && (s.co.pc.EndLoad? || s.co.pc.EndHave?)
    ensures Reported(SessionStep(s, s.co.g, s.co.pc, yes, events), f)
  {
    var pc := s.co.pc;
    if pc.EndLoad? || (Current(pc.seen, s.co.g) && (s.word != pc.seen || !yes)) { GoesTo(s, EndHave(s.word), f, f); }
    else if !Current(pc.seen, s.co.g) { GoesTo(s, CallDisconnected, f, f); }
    else { assert !Current(Word(s.co.g, Disconnected), s.co.g); }
  }

  lemma SessionTells(s: State, yes: bool, events: nat, f: Facts)
    requires Inv(s) && Reported(s, f) && Enabled(s, Co(yes, events)) && s.co.Session?
    ensures Reported(Apply(s, Co(yes, events)), Note(f, s, Co(yes, events)))
  {
    var pc := s.co.pc;
    if IsCall(pc) { CallbackAppends(s, yes, events); CallbackTells(s, f); }
    else if pc.Register? || pc.Check? || pc.Start? { CheckTells(s, yes, events, f); }
    else if pc.Await? { AwaitTells(s, yes, events, f); }
    else if pc.Header? || pc.ConnectCas? { AnswerTells(s, yes, events, f); }
    else if pc.LoopTest? || pc.StartRead? || pc.AwaitRead? { ReadTells(s, yes, events, f); }
    else if pc.ReadDone? { PieceTells(s, yes, events, f); }
    else if pc.Deliver? { DeliverTells(s, yes, events, f); }
    else if pc.AfterRead? { AfterReadTells(s, yes, events, f); }
    else if pc.Thrown? { ThrownTells(s, yes, events, f); }
    else if pc.Leave? || pc.AwaitShutdown? { LeaveTells(s, yes, events, f); }
    else { EndTells(s, yes, events, f); }
  }

  lemma StepKeepsReported(s: State, a: Step, f: Facts)
    requires Inv(s) && Reported(s, f) && Enabled(s, a)
    ensures Reported(Apply(s, a), Note(f, s, a))
  {
    if !a.Co? { OthersKeepReported(s, a, f); }
    else if s.co.Session? { SessionTells(s, a.yes, a.events, f); }
    else { LoopKeepsReported(s, a.yes, a.events, f); }
  }

  lemma {:induction false} RunKeepsReported(s: State, sched: seq<Step>, f: Facts)
    requires Inv(s) && Reported(s, f) && Run(s, sched).Some?
    ensures Reported(Run(s, sched).value, Notes(f, s, sched)) && Inv(Run(s, sched).value)
    decreases |sched|
  {
    if sched != [] {
      StepKeepsReported(s, sched[0], f);
      StepKeepsInv(s, sched[0]);
      RunKeepsReported(Apply(s, sched[0]), sched[1..], Note(f, s, sched[0]));
    }
  }

  // ---- main results ----

  /** Where a session is on its way out. */
  predicate AtEnd(pc: SessionPc) { pc.Leave? || pc.AwaitShutdown? || pc.EndLoad? || pc.EndHave? }

  /** A session nobody has closed tells exactly what happened. In every run, when it comes to its end and its
      generation is still open, it has called onConnected if and only if the server accepted the request, which
      all the awaits had led to in order; onError if and only if something failed or the server refused; and onData
      for every event that was read. It ended because something failed, the server refused or finished, and it
      shuts TLS down if and only if it had been accepted over TLS. */
  lemma SessionIsReported(s0: State, sched: seq<Step>)
    requires Init(s0) && Run(s0, sched).Some?
    ensures
      var s, f := Run(s0, sched).value, Notes(NOTHING, s0, sched);
      s.co.Session? && AtEnd(s.co.pc) && Current(s.word, s.co.g) ==>
        && Outcome(s.trace, s.co.g, f, s.ssl)
        && (s.co.pc.EndLoad? || s.co.pc.EndHave? ==> (f.shut <==> s.ssl && f.answer == Some(true)))
  {
    InitInv(s0);
    RunKeepsReported(s0, sched, NOTHING);
  }

  /** The stream says CONNECTED only while a session is there that has connected it, and says so from before
      onConnected for as long as that session streams, unless it has been closed. */
  lemma ConnectedHasSession(s: State)
    requires Reachable(s)
    ensures s.word.status.Connected? ==> s.co.Session? && s.co.g == s.word.gen && !Unconnected(s.co.pc)
    ensures s.co.Session? && (s.co.pc.CallConnected? || LivePc(s.co.pc)) && Current(s.word, s.co.g) ==>
              s.word.status.Connected?
  {
    var s0: State, sched: seq<Step> :| Init(s0) && Run(s0, sched) == Some(s);
    InitInv(s0);
    RunKeepsReported(s0, sched, NOTHING);
  }
}
