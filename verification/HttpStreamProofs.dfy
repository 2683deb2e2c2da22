/** What holds in every reachable state of an HttpStream, for any number of threads. */
module HttpStreamProofs {
  import opened Wrappers
  import opened Tally
  import opened HttpStream

  // ---- the trace ----

  /** How far the trace of one generation has got: nothing yet, connected, or an error reported. */
  datatype Phase = Fresh | Live | Failed

  datatype Parsed = Bad | Good(done: nat, phase: Phase)

  /** Reads one event: `done` generations are over and the next one is in `phase`. */
  function Read(p: Parsed, e: Event): Parsed {
    if p.Bad? || e.gen != p.done + 1 then Bad
    else
      match e
      case OnConnected(_) => if p.phase.Fresh? then Good(p.done, Live) else Bad
      case OnData(_) => if p.phase.Live? then p else Bad
      case OnError(_) => if p.phase.Failed? then Bad else Good(p.done, Failed)
      case OnDisconnected(_) => Good(p.done + 1, Fresh)
  }

  function Parse(trace: seq<Event>): Parsed {
    if trace == [] then Good(0, Fresh) else Read(Parse(trace[..|trace| - 1]), trace[|trace| - 1])
  }

  lemma ParseSnoc(trace: seq<Event>, e: Event)
    ensures Parse(trace + [e]) == Read(Parse(trace), e)
  {
    assert (trace + [e])[..|trace|] == trace;
  }

  predicate IsIo(a: Step) { a.IoCompletes? || a.IoAdvances? || a.IoContinues? }

  // ---- the invariant ----

  /** The word only moves forward: to a later status of its generation, or to a later generation. */
  predicate Later(earlier: Word, later: Word) {
    earlier.gen < later.gen || (earlier.gen == later.gen && StatusBits(earlier.status) <= StatusBits(later.status))
  }

  predicate OpenPosting(c: CallPc) { c.OpenPost? }

  predicate ClosePosting(c: CallPc) { c.ClosePost? }

  /** Points between the registration of session_io and its removal. */
  predicate Registered(pc: SessionPc) {
    pc.Check? || pc.Start? || pc.Await? || pc.Header? || pc.CallHttpError? || pc.ConnectCas? || pc.CallConnected?
    || pc.LoopTest? || pc.StartRead? || pc.AwaitRead? || pc.ReadDone? || pc.Deliver? || pc.CallData?
    || pc.AfterRead? || pc.CallReadError? || pc.Leave?
  }

  /** Points past a check of the generation from which the session goes on to, or is in, a pending await. */
  predicate Watched(pc: SessionPc) {
    pc.Start? || pc.StartRead? || ((pc.Await? || pc.AwaitRead?) && Outstanding(pc.io) && !Asked(pc.io))
  }

  /** A cancel has reached the await. */
  predicate Asked(io: Io) { io.Cancelled? || (Outstanding(io) && !io.missed.NotAsked?) }

  /** Which awaits a cancel can have left going. */
  predicate MissedOk(pc: SessionPc)
    requires pc.Await? || pc.AwaitRead?
  {
    && (pc.io.Between? ==> !AtLookup(pc))
    && (Outstanding(pc.io) ==>
          && (pc.io.missed.LookupRuns? ==> AtLookup(pc))
          && (pc.io.missed.NextAddress? ==> pc.Await? && pc.stage.Connect?)
          && (pc.io.missed.BetweenOps? ==> !AtLookup(pc)))
  }

  /** No session has connected yet. */
  predicate FreshPc(pc: SessionPc) {
    pc.Register? || pc.Check? || pc.Start? || pc.Await? || pc.Header? || pc.CallHttpError? || pc.ConnectCas?
    || pc.CallConnected? || pc.Thrown? || pc.CallThrownError?
  }

  /** The session is in its read loop. */
  predicate LivePc(pc: SessionPc) {
    pc.LoopTest? || pc.StartRead? || pc.AwaitRead? || pc.ReadDone? || pc.Deliver? || pc.CallData? || pc.AfterRead?
    || pc.CallReadError?
  }

  ghost predicate Generations(s: State) {
    && |s.callers| > 0
    && (!s.callers[0].NoCall? ==> s.inCallback)
    && (s.serving <==> !s.co.NotServing?)
    && s.served <= s.word.gen
    && (s.co.LoopHave? ==> s.served <= s.co.g <= s.word.gen)
    && (s.co.Skip? ==> s.served < s.co.g <= s.word.gen)
    && (s.co.CallSkipped? ==> 0 < s.served < s.co.g <= s.word.gen)
    && (s.co.Session? ==> 0 < s.served == s.co.g)
    && (s.co.Session? && (s.co.pc.Start? || s.co.pc.Await?) ==> !s.co.pc.stage.Respond?)
    && (s.co.Session? && s.co.pc.EndHave? ==> s.co.g <= s.co.pc.seen.gen && Later(s.co.pc.seen, s.word))
  }

  /** Every generation not yet served has somebody on the way to serve it. */
  ghost predicate Awaited(s: State) {
    s.word.gen != s.served ==>
      (s.serving && s.co != LoopHave(s.served)) || s.serves > 0 || Count(s.callers, OpenPosting) > 0
  }

  /** A generation with no session left to end it has been ended. */
  ghost predicate Ended(s: State) {
    s.word.gen == s.served && !(s.co.Session? && !s.co.pc.CallDisconnected?) ==> s.word.status.Disconnected?
  }

  ghost predicate Cancellation(s: State) {
    && (s.co.Session? && Registered(s.co.pc) ==> s.io == Some(s.co.g))
    && (s.io.Some? ==> s.co.Session? && Registered(s.co.pc))
    && (s.co.Session? && Watched(s.co.pc) && !Current(s.word, s.co.g) ==>
          s.cancels > 0 || Count(s.callers, ClosePosting) > 0)
    && (AtAwait(s.co) ==> MissedOk(s.co.pc) && (Asked(s.co.pc.io) ==> !Current(s.word, s.co.g)))
  }

  /** What the trace has to be while the coroutine is at `co`. */
  predicate TraceOk(co: Serving, served: nat, p: Parsed) {
    && p.Good?
    && p.done == (if co.CallSkipped? || co.Session? then served - 1 else served)
    && (!co.Session? || FreshPc(co.pc) ==> p.phase.Fresh?)
    && (co.Session? && LivePc(co.pc) ==> p.phase.Live?)
  }

  ghost predicate Traced(s: State) { TraceOk(s.co, s.served, Parse(s.trace)) }

  ghost predicate Inv(s: State) {
    Generations(s) && Awaited(s) && Ended(s) && Cancellation(s) && Traced(s)
  }

  lemma InitInv(s: State)
    requires Init(s)
    ensures Inv(s)
  {
  }

  lemma Counts(s: State, t: nat, c: CallPc)
    requires t < |s.callers|
    ensures
      var cs := s.callers[t := c];
      && Count(cs, OpenPosting)
           == Count(s.callers, OpenPosting) - (if s.callers[t].OpenPost? then 1 else 0) + (if c.OpenPost? then 1 else 0)
      && Count(cs, ClosePosting)
           == Count(s.callers, ClosePosting) - (if s.callers[t].ClosePost? then 1 else 0)
              + (if c.ClosePost? then 1 else 0)
  {
    CountUpdate(s.callers, t, c, OpenPosting);
    CountUpdate(s.callers, t, c, ClosePosting);
  }

  /** A caller that neither starts nor ends a generation leaves everything else as it is. */
  lemma CallerKeepsInv(s: State, t: nat, c: CallPc)
    requires Inv(s) && t < |s.callers| && (s.callers[t].NoCall? ==> t == 0 ==> s.inCallback)
    requires !s.callers[t].OpenPost? && !s.callers[t].ClosePost? && !c.OpenPost? && !c.ClosePost?
    ensures Inv(Caller(s, t, c))
  {
    Counts(s, t, c);
  }

  lemma OpenedKeepsInv(s: State, t: nat)
    requires Inv(s) && t < |s.callers| && s.callers[t] == OpenHave(s.word) && s.word.status.Disconnected?
    ensures Inv(Apply(s, Cas(t, false)))
  {
    Counts(s, t, OpenPost);
  }

  lemma ClosedKeepsInv(s: State, t: nat)
    requires Inv(s) && t < |s.callers| && s.callers[t] == CloseHave(s.word) && !s.word.status.Disconnected?
    ensures Inv(Apply(s, Cas(t, false)))
  {
    Counts(s, t, ClosePost);
  }

  lemma CasKeepsInv(s: State, t: nat, spurious: bool)
    requires Inv(s) && Enabled(s, Cas(t, spurious))
    ensures Inv(Apply(s, Cas(t, spurious)))
  {
    var c := s.callers[t];
    if c.seen.status.Disconnected? <==> c.CloseHave? { CallerKeepsInv(s, t, NoCall); }
    else if s.word != c.seen || spurious {
      CallerKeepsInv(s, t, if c.OpenHave? then OpenHave(s.word) else CloseHave(s.word));
    }
    else if c.OpenHave? { OpenedKeepsInv(s, t); }
    else { ClosedKeepsInv(s, t); }
  }

  lemma PostKeepsInv(s: State, t: nat)
    requires Inv(s) && Enabled(s, Post(t))
    ensures Inv(Apply(s, Post(t)))
  {
    Counts(s, t, NoCall);
  }

  /** Where the session may go, to pc', without a callback and without changing the word. */
  predicate Moves(w: Word, g: nat, pc: SessionPc, pc': SessionPc) {
    && !pc.CallDisconnected?
    && (FreshPc(pc') ==> FreshPc(pc))
    && (LivePc(pc') ==> LivePc(pc))
    && (Watched(pc') ==> Watched(pc) || Current(w, g))
    && (pc'.Await? || pc'.AwaitRead? ==> MissedOk(pc') && (Asked(pc'.io) ==> !Current(w, g)))
    && (pc'.Start? || pc'.Await? ==> !pc'.stage.Respond?)
    && (pc'.EndHave? ==> g <= pc'.seen.gen && Later(pc'.seen, w))
    && (pc'.CallDisconnected? ==> !Current(w, g))
  }

  /** The session goes to pc', and is registered as it has to be there. */
  function Moved(s: State, pc: SessionPc): State
    requires s.co.Session?
  {
    s.(co := Session(s.co.g, pc), io := if Registered(pc) then Some(s.co.g) else None)
  }

  lemma MoveKeepsInv(s: State, pc: SessionPc)
    requires Inv(s) && s.co.Session? && Moves(s.word, s.co.g, s.co.pc, pc)
    ensures Inv(Moved(s, pc))
  {
  }

  lemma ServeKeepsInv(s: State)
    requires Inv(s) && Enabled(s, RunServe)
    ensures Inv(Apply(s, RunServe))
  {
  }

  lemma CallbackEndKeepsInv(s: State)
    requires Inv(s) && Enabled(s, CallbackReturns)
    ensures Inv(Apply(s, CallbackReturns))
  {
  }

  function IoAfter(io: Io, a: Step): Io
    requires IsIo(a) && Outstanding(io)
  {
    if a.IoCompletes? then Completed(a.ok) else if a.IoAdvances? then Between(io.missed) else Pending(io.missed)
  }

  lemma IoSets(s: State, a: Step)
    requires Enabled(s, a) && IsIo(a)
    ensures Apply(s, a) == s.(co := Session(s.co.g, WithIo(s.co.pc, IoAfter(s.co.pc.io, a))))
  {
  }

  /** What the network does to an await. */
  lemma IoKeepsInv(s: State, a: Step)
    requires Inv(s) && Enabled(s, a) && IsIo(a)
    ensures Inv(Apply(s, a))
  {
    IoSets(s, a);
    MoveKeepsInv(s, WithIo(s.co.pc, IoAfter(s.co.pc.io, a)));
  }

  /** A cancel that changes nothing is not one that was waited for. */
  lemma IdleCancelKeepsInv(s: State)
    requires Inv(s) && s.cancels > 0
    requires s.co.Session? && Watched(s.co.pc) ==> Current(s.word, s.co.g)
    ensures Inv(s.(cancels := s.cancels - 1))
  {
  }

  lemma CancelMoves(s: State, more: bool)
    requires s.cancels > 0 && AtAwait(s.co) && Outstanding(s.co.pc.io) && !Current(s.word, s.co.g)
    requires s.io == Some(s.co.g) && MissedOk(s.co.pc) && (s.co.pc.Await? ==> !s.co.pc.stage.Respond?)
    requires Enabled(s, RunCancel(more))
    ensures
      var pc := WithIo(s.co.pc, AfterCancel(s.co.pc, more));
      && CancelStep(s, more) == Moved(s, pc).(cancels := s.cancels - 1)
      && Moves(s.word, s.co.g, s.co.pc, pc) && !Watched(pc)
  {
  }

  lemma CancelKeepsInv(s: State, more: bool)
    requires Inv(s) && Enabled(s, RunCancel(more))
    ensures Inv(CancelStep(s, more))
  {
    if AtAwait(s.co) && Outstanding(s.co.pc.io) && !Current(s.word, s.co.g) {
      var pc := WithIo(s.co.pc, AfterCancel(s.co.pc, more));
      CancelMoves(s, more);
      MoveKeepsInv(s, pc);
      IdleCancelKeepsInv(Moved(s, pc));
    } else {
      IdleCancelKeepsInv(s);
    }
  }

  lemma LoopKeepsInv(s: State, yes: bool, events: nat)
    requires Inv(s) && Enabled(s, Co(yes, events)) && !s.co.Session? && !s.co.CallSkipped?
    ensures Inv(Apply(s, Co(yes, events)))
  {
  }

  lemma SkippedKeepsInv(s: State, yes: bool, events: nat)
    requires Inv(s) && Enabled(s, Co(yes, events)) && s.co.CallSkipped?
    ensures Inv(Apply(s, Co(yes, events)))
  {
    ParseSnoc(s.trace, OnDisconnected(s.served));
  }

  predicate IsCall(pc: SessionPc) {
    pc.CallHttpError? || pc.CallConnected? || pc.CallData? || pc.CallReadError? || pc.CallThrownError?
    || pc.CallDisconnected?
  }

  /** The event a session point reports. */
  function EventOf(pc: SessionPc, g: nat): Event
    requires IsCall(pc)
  {
    match pc
    case CallConnected => OnConnected(g)
    case CallData(_, _) => OnData(g)
    case CallDisconnected => OnDisconnected(g)
    case _ => OnError(g)
  }

  /** The event is the next one of its generation. */
  lemma EventIsRead(g: nat, pc: SessionPc, next: Serving, p: Parsed)
    requires IsCall(pc) && TraceOk(Session(g, pc), g, p)
    requires if pc.CallDisconnected? then next == LoopHead
             else next.Session? && next.g == g && !FreshPc(next.pc)
                  && (LivePc(next.pc) ==> pc.CallConnected? || pc.CallData?)
    ensures TraceOk(next, g, Read(p, EventOf(pc, g)))
  {
  }

  /** Where the session goes on after a callback. */
  function AfterCall(pc: SessionPc, g: nat): Serving
    requires IsCall(pc)
  {
    match pc
    case CallHttpError => Session(g, Leave(false))
    case CallConnected => Session(g, LoopTest)
    case CallData(n, err) => Session(g, Deliver(n, err))
    case CallReadError => Session(g, Leave(true))
    case CallThrownError => Session(g, EndLoad)
    case _ => LoopHead
  }

  lemma CallbackAppends(s: State, yes: bool, events: nat)
    requires Enabled(s, Co(yes, events)) && s.co.Session? && IsCall(s.co.pc)
    ensures Apply(s, Co(yes, events)) == Calls(s, EventOf(s.co.pc, s.co.g), AfterCall(s.co.pc, s.co.g))
  {
  }

  /** All but the session itself, the word's status, and what a callback does. */
  ghost predicate Framed(s: State, s': State)
    requires s.co.Session?
  {
    && s' == s.(co := s'.co, word := s'.word, io := s'.io, trace := s'.trace, inCallback := s'.inCallback)
    && s'.word.gen == s.word.gen && (s'.co.Session? ==> s'.co.g == s.co.g)
  }

  lemma ConnectFrame(s: State, yes: bool, events: nat)
    requires s.co.Session? && CanResume(s.co)
    requires s.co.pc.Register? || s.co.pc.Check? || s.co.pc.Start? || s.co.pc.Await? || s.co.pc.Header?
             || s.co.pc.ConnectCas?
    ensures Framed(s, SessionStep(s, s.co.g, s.co.pc, yes, events))
  {
  }

  lemma ReadFrame(s: State, yes: bool, events: nat)
    requires s.co.Session? && CanResume(s.co)
    requires s.co.pc.LoopTest? || s.co.pc.StartRead? || s.co.pc.AwaitRead? || s.co.pc.ReadDone? || s.co.pc.Deliver?
             || s.co.pc.AfterRead?
    ensures Framed(s, SessionStep(s, s.co.g, s.co.pc, yes, events))
  {
  }

  lemma EndFrame(s: State, yes: bool, events: nat)
    requires s.co.Session? && CanResume(s.co)
    requires s.co.pc.Leave? || s.co.pc.AwaitShutdown? || s.co.pc.Thrown? || s.co.pc.EndLoad? || s.co.pc.EndHave?
    ensures Framed(s, SessionStep(s, s.co.g, s.co.pc, yes, events))
  {
  }

  /** What a step of the session leaves alone. */
  lemma SessionFrame(s: State, yes: bool, events: nat)
    requires Enabled(s, Co(yes, events)) && s.co.Session?
    ensures Framed(s, Apply(s, Co(yes, events)))
  {
    var pc := s.co.pc;
    if IsCall(pc) { CallbackAppends(s, yes, events); }
    else if pc.Leave? || pc.AwaitShutdown? || pc.Thrown? || pc.EndLoad? || pc.EndHave? { EndFrame(s, yes, events); }
    else if pc.LoopTest? || pc.StartRead? || pc.AwaitRead? || pc.ReadDone? || pc.Deliver? || pc.AfterRead? {
      ReadFrame(s, yes, events);
    } else {
      ConnectFrame(s, yes, events);
    }
  }

  lemma QuietStep(s: State, yes: bool, events: nat)
    requires Enabled(s, Co(yes, events)) && s.co.Session? && !IsCall(s.co.pc)
    ensures
      var s' := Apply(s, Co(yes, events));
      s'.trace == s.trace && s'.inCallback == s.inCallback && s'.co.Session?
  {
  }

  /** The callbacks, and the session but for its await. */
  ghost predicate OtherFramed(s: State, s': State) {
    && s'.trace == s.trace && s'.served == s.served && |s'.callers| == |s.callers|
    && (s'.co == s.co || s'.co.Spawned?
        || (AtAwait(s.co) && AtAwait(s'.co) && s'.co.g == s.co.g && (s'.co.pc.Await? <==> s.co.pc.Await?)))
    && (s'.co.Spawned? ==> s.co.Spawned? || !s.serving)
  }

  lemma StrandFrame(s: State, a: Step)
    requires Enabled(s, a) && (a.RunServe? || a.RunCancel? || IsIo(a) || a.CallbackReturns?)
    ensures OtherFramed(s, Apply(s, a))
  {
  }

  lemma CallerFrame(s: State, a: Step)
    requires Enabled(s, a) && (a.CallOpen? || a.CallClose? || a.Cas? || a.Post?)
    ensures OtherFramed(s, Apply(s, a))
  {
  }

  /** What every other step leaves alone. */
  lemma OtherFrame(s: State, a: Step)
    requires Enabled(s, a) && !a.Co?
    ensures OtherFramed(s, Apply(s, a))
  {
    if a.CallOpen? || a.CallClose? || a.Cas? || a.Post? { CallerFrame(s, a); } else { StrandFrame(s, a); }
  }

  lemma CallbackIsTraced(s: State, yes: bool, events: nat)
    requires Generations(s) && Traced(s) && Enabled(s, Co(yes, events)) && s.co.Session? && IsCall(s.co.pc)
    ensures Traced(Apply(s, Co(yes, events)))
  {
    CallbackAppends(s, yes, events);
    ParseSnoc(s.trace, EventOf(s.co.pc, s.co.g));
    EventIsRead(s.co.g, s.co.pc, AfterCall(s.co.pc, s.co.g), Parse(s.trace));
  }

  lemma CallbackKeepsRest(s: State)
    requires Generations(s) && Awaited(s) && Ended(s) && Cancellation(s)
    requires s.co.Session? && IsCall(s.co.pc)
    ensures
      var s' := Calls(s, EventOf(s.co.pc, s.co.g), AfterCall(s.co.pc, s.co.g));
      Generations(s') && Awaited(s') && Ended(s') && Cancellation(s')
  {
  }

  lemma CallbackKeepsInv(s: State, yes: bool, events: nat)
    requires Inv(s) && Enabled(s, Co(yes, events)) && s.co.Session? && IsCall(s.co.pc)
    ensures Inv(Apply(s, Co(yes, events)))
  {
    CallbackAppends(s, yes, events);
    CallbackKeepsRest(s);
    CallbackIsTraced(s, yes, events);
  }

  /** The session becomes CONNECTED. */
  lemma ConnectedKeepsInv(s: State)
    requires Inv(s) && s.co.Session? && s.co.pc.ConnectCas? && s.word == Word(s.co.g, Connecting)
    ensures Inv(At(s, s.co.g, CallConnected).(word := Word(s.co.g, Connected)))
  {
  }

  /** The session ends its own generation. */
  lemma EndedKeepsInv(s: State)
    requires Inv(s) && s.co.Session? && s.co.pc == EndHave(s.word) && Current(s.word, s.co.g)
    ensures Inv(At(s, s.co.g, CallDisconnected).(word := Word(s.co.g, Disconnected)))
  {
  }

  /** Every other step of the session is a move. */
  ghost predicate IsMove(s: State, s': State)
    requires s.co.Session?
  {
    s'.co.Session? && s' == Moved(s, s'.co.pc) && Moves(s.word, s.co.g, s.co.pc, s'.co.pc)
  }

  /** What the moves need to know of the session. */
  predicate AtWork(s: State) {
    && s.co.Session? && CanResume(s.co)
    && s.io == (if Registered(s.co.pc) then Some(s.co.g) else None)
    && (s.co.pc.Start? || s.co.pc.Await? ==> !s.co.pc.stage.Respond?)
  }

  lemma CheckMoves(s: State, yes: bool, events: nat)
    requires AtWork(s) && (s.co.pc.Register? || s.co.pc.Check? || s.co.pc.Header?)
    ensures IsMove(s, SessionStep(s, s.co.g, s.co.pc, yes, events))
  {
  }

  lemma AwaitMoves(s: State, yes: bool, events: nat)
    requires AtWork(s) && (s.co.pc.Start? || s.co.pc.Await?)
    ensures IsMove(s, SessionStep(s, s.co.g, s.co.pc, yes, events))
  {
  }

  lemma ReadMoves(s: State, yes: bool, events: nat)
    requires AtWork(s) && (s.co.pc.LoopTest? || s.co.pc.StartRead? || s.co.pc.AwaitRead?)
    ensures IsMove(s, SessionStep(s, s.co.g, s.co.pc, yes, events))
  {
  }

  lemma PieceMoves(s: State, yes: bool, events: nat)
    requires AtWork(s) && (s.co.pc.ReadDone? || s.co.pc.AfterRead?)
    ensures IsMove(s, SessionStep(s, s.co.g, s.co.pc, yes, events))
  {
  }

  lemma DeliverMoves(s: State, yes: bool, events: nat)
    requires AtWork(s) && s.co.pc.Deliver?
    ensures IsMove(s, SessionStep(s, s.co.g, s.co.pc, yes, events))
  {
  }

  lemma EndingMoves(s: State, yes: bool, events: nat)
    requires AtWork(s) && s.co.g <= s.word.gen
    requires s.co.pc.Leave? || s.co.pc.AwaitShutdown? || s.co.pc.Thrown? || s.co.pc.EndLoad?
    ensures IsMove(s, SessionStep(s, s.co.g, s.co.pc, yes, events))
  {
  }

  lemma ConnectCasKeepsInv(s: State, yes: bool, events: nat)
    requires Inv(s) && Enabled(s, Co(yes, events)) && s.co.Session? && s.co.pc.ConnectCas?
    ensures Inv(Apply(s, Co(yes, events)))
  {
    if s.word == Word(s.co.g, Connecting) { ConnectedKeepsInv(s); } else { MoveKeepsInv(s, Leave(true)); }
  }

  lemma EndKeepsInv(s: State, yes: bool, events: nat)
    requires Inv(s) && Enabled(s, Co(yes, events)) && s.co.Session? && s.co.pc.EndHave?
    ensures Inv(Apply(s, Co(yes, events)))
  {
    var seen := s.co.pc.seen;
    if !Current(seen, s.co.g) { MoveKeepsInv(s, CallDisconnected); }
    else if s.word != seen || !yes { MoveKeepsInv(s, EndHave(s.word)); }
    else { EndedKeepsInv(s); }
  }

  lemma SessionKeepsInv(s: State, yes: bool, events: nat)
    requires Inv(s) && Enabled(s, Co(yes, events)) && s.co.Session?
    ensures Inv(SessionStep(s, s.co.g, s.co.pc, yes, events))
  {
    var pc := s.co.pc;
    if IsCall(pc) { CallbackKeepsInv(s, yes, events); }
    else if pc.ConnectCas? { ConnectCasKeepsInv(s, yes, events); }
    else if pc.EndHave? { EndKeepsInv(s, yes, events); }
    else { MovesKeepInv(s, yes, events); }
  }

  lemma InvAtWork(s: State)
    requires Inv(s) && s.co.Session? && CanResume(s.co)
    ensures AtWork(s) && s.co.g <= s.word.gen
  {
  }

  lemma MovesKeepInv(s: State, yes: bool, events: nat)
    requires Inv(s) && s.co.Session? && CanResume(s.co)
    requires !IsCall(s.co.pc) && !s.co.pc.ConnectCas? && !s.co.pc.EndHave?
    ensures Inv(SessionStep(s, s.co.g, s.co.pc, yes, events))
  {
    InvAtWork(s);
    SessionMoves(s, yes, events);
    MoveKeepsInv(s, SessionStep(s, s.co.g, s.co.pc, yes, events).co.pc);
  }

  lemma SessionMoves(s: State, yes: bool, events: nat)
    requires AtWork(s) && s.co.g <= s.word.gen && !IsCall(s.co.pc) && !s.co.pc.ConnectCas? && !s.co.pc.EndHave?
    ensures IsMove(s, SessionStep(s, s.co.g, s.co.pc, yes, events))
  {
    var pc := s.co.pc;
    if pc.Register? || pc.Check? || pc.Header? { CheckMoves(s, yes, events); }
    else if pc.Start? || pc.Await? { AwaitMoves(s, yes, events); }
    else if pc.LoopTest? || pc.StartRead? || pc.AwaitRead? { ReadMoves(s, yes, events); }
    else if pc.ReadDone? || pc.AfterRead? { PieceMoves(s, yes, events); }
    else if pc.Deliver? { DeliverMoves(s, yes, events); }
    else { EndingMoves(s, yes, events); }
  }

  lemma StepKeepsInv(s: State, a: Step)
    requires Inv(s) && Enabled(s, a)
    ensures Inv(Apply(s, a))
  {
    match a
    case CallOpen(_) => CallerKeepsInv(s, a.t, Apply(s, a).callers[a.t]);
    case CallClose(_) => CallerKeepsInv(s, a.t, Apply(s, a).callers[a.t]);
    case Cas(t, spurious) => CasKeepsInv(s, t, spurious);
    case Post(t) => PostKeepsInv(s, t);
    case Co(yes, events) =>
      if s.co.Session? { SessionKeepsInv(s, yes, events); }
      else if s.co.CallSkipped? { SkippedKeepsInv(s, yes, events); }
      else { LoopKeepsInv(s, yes, events); }
    case RunServe => ServeKeepsInv(s);
    case RunCancel(more) => CancelKeepsInv(s, more);
    case CallbackReturns => CallbackEndKeepsInv(s);
    case _ => IoKeepsInv(s, a);
  }

  lemma {:induction false} RunAppend(s: State, a: seq<Step>, b: seq<Step>)
    requires Run(s, a).Some? && Run(Run(s, a).value, b).Some?
    ensures Run(s, a + b) == Run(Run(s, a).value, b)
    decreases |a|
  {
    if a == [] {
      assert a + b == b;
    } else {
      assert (a + b)[1..] == a[1..] + b;
      RunAppend(Apply(s, a[0]), a[1..], b);
    }
  }

  lemma {:induction false} RunKeepsInv(s: State, sched: seq<Step>)
    requires Inv(s) && Run(s, sched).Some?
    ensures Inv(Run(s, sched).value)
    decreases |sched|
  {
    if sched != [] {
      StepKeepsInv(s, sched[0]);
      RunKeepsInv(Apply(s, sched[0]), sched[1..]);
    }
  }

  lemma ReachableInv(s: State)
    requires Reachable(s)
    ensures Inv(s)
  {
    var s0: State, sched: seq<Step> :| Init(s0) && Run(s0, sched) == Some(s);
    InitInv(s0);
    RunKeepsInv(s0, sched);
  }
}
