/**
 The generations of an HttpStream, as a transition system.

 Any number of threads call open() and close(); caller 0 is user code inside a callback of the stream.
 The strand runs one handler at a time: a queued serve(), a queued cancel, or the serve_sessions()
 coroutine, which gives the strand up only at its awaits. Every step is one atomic access of `state_`.
 Callbacks do not throw.
 */
module HttpStream {
  import opened Wrappers

  datatype Status = Connecting | Connected | Disconnected

  /** The packed state word: a generation and a status, compared and swapped as one. */
  datatype Word = Word(gen: nat, status: Status)

  datatype Event = OnConnected(gen: nat) | OnData(gen: nat) | OnError(gen: nat) | OnDisconnected(gen: nat)

  /** Where a caller is. `seen` is its local copy of the word. */
  datatype CallPc =
    | NoCall
    | OpenHave(seen: Word)
    | OpenPost              // its CAS started a generation; before it posts serve()
    | CloseHave(seen: Word)
    | ClosePost             // its CAS ended a generation; before it posts the cancel

  /** The awaits of stream_response in order; Respond stands for what follows the response header. */
  datatype Stage = Resolve | Connect | Handshake | Write | ReadHeader | Respond

  /** Whether a cancel has run during an await without ending it, and why. */
  datatype Missed =
    | NotAsked
    | LookupRuns            // a DNS lookup that is running cannot be interrupted
    | NextAddress           // it ended the attempt for one address of the host, and the connect goes on with the next
    | BetweenOps            // no operation was pending for it to end

  /** An await, which may take several operations one after another. Between: one of them is over and the handler
      that begins the next is queued on the strand. */
  datatype Io = Pending(missed: Missed) | Between(missed: Missed) | Completed(ok: bool) | Cancelled

  /** Where the session is. Calls of user callbacks are named Call...; the step from one runs the callback. */
  datatype SessionPc =
    | Register                        // before session_io is registered
    | Check(next: Stage)              // before throw_if_closed
    | Start(stage: Stage)             // before the await begins
    | Await(stage: Stage, io: Io)
    | Header                          // before the response status is looked at
    | CallHttpError
    | ConnectCas                      // before CONNECTING is swapped for CONNECTED
    | CallConnected
    | LoopTest                        // before the condition of the read loop
    | StartRead
    | AwaitRead(io: Io)
    | ReadDone(events: nat, err: bool)
    | Deliver(events: nat, err: bool) // before the next event of the piece is checked
    | CallData(events: nat, err: bool)
    | AfterRead(err: bool)
    | CallReadError
    | Leave(graceful: bool)           // before session_io is unregistered; graceful: stream_response returned true
    | AwaitShutdown
    | Thrown                          // an exception left stream_response; before is_current
    | CallThrownError
    | EndLoad                         // before the load of end_generation
    | EndHave(seen: Word)
    | CallDisconnected

  /** The serve_sessions() coroutine. */
  datatype Serving =
    | NotServing
    | Spawned                         // co_spawn has queued it
    | LoopHead                        // before the load of the word
    | LoopHave(g: nat)
    | Skip(g: nat)                    // before ++served_generation_
    | CallSkipped(g: nat)             // a generation that never got a session is owed its onDisconnected
    | Session(g: nat, pc: SessionPc)

  datatype State = State(
    word: Word,
    callers: seq<CallPc>,
    serves: nat,               // serve() handlers queued on the strand
    cancels: nat,              // cancel handlers queued on the strand
    serving: bool,             // serving_
    served: nat,               // served_generation_
    io: Option<nat>,           // the generation of session_io_
    co: Serving,
    inCallback: bool,          // a user callback is running on the strand
    ssl: bool,
    trace: seq<Event>
  )

  datatype Step =
    | CallOpen(t: nat)
    | CallClose(t: nat)
    | Cas(t: nat, spurious: bool)
    | Post(t: nat)
    | RunServe
    | RunCancel(more: bool)        // more: a connect has further addresses to try
    | IoCompletes(ok: bool)
    | IoAdvances                   // an operation is over and its await is not
    | IoContinues                  // the handler that begins the next one
    | CallbackReturns
    | Co(yes: bool, events: nat)   // the next step of the coroutine; the parameters decide what the response holds

  ghost predicate Init(s: State) {
    && |s.callers| > 0
    && (forall t :: 0 <= t < |s.callers| ==> s.callers[t].NoCall?)
    && s == State(Word(0, Disconnected), s.callers, 0, 0, false, 0, None, NotServing, false, s.ssl, [])
  }

  /** is_current: neither close() nor the end of its session has ended the generation. */
  predicate Current(w: Word, g: nat) { w.gen == g && !w.status.Disconnected? }

  /** The session is in an await that close() may cancel. */
  predicate AtAwait(co: Serving) { co.Session? && (co.pc.Await? || co.pc.AwaitRead?) }

  predicate AtLookup(pc: SessionPc) { pc.Await? && pc.stage.Resolve? }

  predicate Outstanding(io: Io) { io.Pending? || io.Between? }

  /** The coroutine is not on the strand. */
  predicate Suspended(co: Serving) {
    co.NotServing? || co.Spawned? || AtAwait(co) || (co.Session? && co.pc.AwaitShutdown?)
  }

  predicate StrandFree(s: State) { Suspended(s.co) && !s.inCallback }

  predicate MayCall(s: State, t: nat) {
    t < |s.callers| && s.callers[t].NoCall? && (t == 0 ==> s.inCallback)
  }

  /** The coroutine has something to do: it is running, or its await is over. */
  predicate CanResume(co: Serving) {
    && !co.NotServing?
    && (AtAwait(co) ==> !Outstanding(co.pc.io))
  }

  predicate Enabled(s: State, a: Step) {
    match a
    case CallOpen(t) => MayCall(s, t)
    case CallClose(t) => MayCall(s, t)
    case Cas(t, _) => t < |s.callers| && (s.callers[t].OpenHave? || s.callers[t].CloseHave?)
    case Post(t) => t < |s.callers| && (s.callers[t].OpenPost? || s.callers[t].ClosePost?)
    case RunServe => StrandFree(s) && s.serves > 0
    case RunCancel(_) => StrandFree(s) && s.cancels > 0
    case IoCompletes(_) => AtAwait(s.co) && s.co.pc.io.Pending?
    case IoAdvances => AtAwait(s.co) && s.co.pc.io.Pending? && !AtLookup(s.co.pc)
    case IoContinues => StrandFree(s) && AtAwait(s.co) && s.co.pc.io.Between?
    case CallbackReturns => s.inCallback && |s.callers| > 0 && s.callers[0].NoCall?
    case Co(_, _) => CanResume(s.co) && !s.inCallback
  }

  function Caller(s: State, t: nat, c: CallPc): State
    requires t < |s.callers|
  {
    s.(callers := s.callers[t := c])
  }

  function CasStep(s: State, t: nat, spurious: bool): State
    requires Enabled(s, Cas(t, spurious))
  {
    match s.callers[t]
    case OpenHave(seen) =>
      if !seen.status.Disconnected? then Caller(s, t, NoCall)
      else if s.word != seen || spurious then Caller(s, t, OpenHave(s.word))
      else Caller(s, t, OpenPost).(word := Word(seen.gen + 1, Connecting))
    case CloseHave(seen) =>
      if seen.status.Disconnected? then Caller(s, t, NoCall)
      else if s.word != seen || spurious then Caller(s, t, CloseHave(s.word))
      else Caller(s, t, ClosePost).(word := Word(seen.gen, Disconnected))
    case _ => s
  }

  function PostStep(s: State, t: nat): State
    requires Enabled(s, Post(t))
  {
    if s.callers[t].OpenPost? then Caller(s, t, NoCall).(serves := s.serves + 1)
    else Caller(s, t, NoCall).(cancels := s.cancels + 1)
  }

  function WithIo(pc: SessionPc, io: Io): SessionPc { if pc.Await? then Await(pc.stage, io) else AwaitRead(io) }

  /** What a cancel makes of an await that is not over. */
  function AfterCancel(pc: SessionPc, more: bool): Io
    requires pc.Await? || pc.AwaitRead?
  {
    if pc.io.Between? then Between(BetweenOps)
    else if AtLookup(pc) then Pending(LookupRuns)
    else if pc.Await? && pc.stage.Connect? && more then Between(NextAddress)
    else Cancelled
  }

  function CancelStep(s: State, more: bool): State
    requires Enabled(s, RunCancel(more))
  {
    var s' := s.(cancels := s.cancels - 1);
    if s.io.Some? && !Current(s.word, s.io.value) && AtAwait(s.co) && Outstanding(s.co.pc.io)
    then s'.(co := Session(s.co.g, WithIo(s.co.pc, AfterCancel(s.co.pc, more))))
    else s'
  }

  function NextStage(stage: Stage, ssl: bool): Stage {
    match stage
    case Resolve => Connect
    case Connect => if ssl then Handshake else Write
    case Handshake => Write
    case Write => ReadHeader
    case _ => Respond
  }

  /** Runs a callback: the event enters the trace and user code may call open() and close() before `next`. */
  function Calls(s: State, e: Event, next: Serving): State {
    s.(trace := s.trace + [e], co := next, inCallback := true)
  }

  function At(s: State, g: nat, pc: SessionPc): State { s.(co := Session(g, pc)) }

  /** The same, with session_io unregistered. */
  function Out(s: State, g: nat, pc: SessionPc): State { s.(co := Session(g, pc), io := None) }

  function SessionStep(s: State, g: nat, pc: SessionPc, yes: bool, events: nat): State
    requires CanResume(Session(g, pc))
  {
    var current := Current(s.word, g);
    match pc
    case Register => if s.ssl && !yes then At(s, g, Thrown) else At(s, g, Check(Resolve)).(io := Some(g))
    case Check(next) => if !current then Out(s, g, Thrown) else At(s, g, if next.Respond? then Header else Start(next))
    case Start(stage) => At(s, g, Await(stage, Pending(NotAsked)))
    case Await(stage, io) =>
      if io == Completed(true) then At(s, g, Check(NextStage(stage, s.ssl))) else Out(s, g, Thrown)
    case Header => At(s, g, if yes then ConnectCas else CallHttpError)
    case CallHttpError => Calls(s, OnError(g), Session(g, Leave(false)))
    case ConnectCas =>
      if s.word == Word(g, Connecting) then At(s, g, CallConnected).(word := Word(g, Connected))
      else At(s, g, Leave(true))
    case CallConnected => Calls(s, OnConnected(g), Session(g, LoopTest))
    case LoopTest => At(s, g, if yes && current then StartRead else Leave(true))
    case StartRead => At(s, g, AwaitRead(Pending(NotAsked)))
    case AwaitRead(io) => At(s, g, ReadDone(events, io != Completed(true)))
    case ReadDone(n, err) =>   // yes: the body is an event stream; otherwise the piece goes to onData as it is
      if !current then At(s, g, Leave(true))
      else if yes || n == 0 then At(s, g, Deliver(n, err))
      else At(s, g, CallData(0, err))
    case Deliver(n, err) =>
      if n == 0 then At(s, g, AfterRead(err))
      else if current then At(s, g, CallData(n - 1, err))
      else At(s, g, Deliver(n - 1, err))
    case CallData(n, err) => Calls(s, OnData(g), Session(g, Deliver(n, err)))
    case AfterRead(err) => At(s, g, if !err then LoopTest else if current then CallReadError else Leave(true))
    case CallReadError => Calls(s, OnError(g), Session(g, Leave(true)))
    case Leave(graceful) => Out(s, g, if graceful && s.ssl then AwaitShutdown else EndLoad)
    case AwaitShutdown => At(s, g, EndLoad)
    case Thrown => At(s, g, if current then CallThrownError else EndLoad)
    case CallThrownError => Calls(s, OnError(g), Session(g, EndLoad))
    case EndLoad => At(s, g, EndHave(s.word))
    case EndHave(seen) =>
      if seen.status.Disconnected? || seen.gen != g then At(s, g, CallDisconnected)
      else if s.word != seen || !yes then At(s, g, EndHave(s.word))
      else At(s, g, CallDisconnected).(word := Word(g, Disconnected))
    case CallDisconnected => Calls(s, OnDisconnected(g), LoopHead)
  }

  function CoStep(s: State, yes: bool, events: nat): State
    requires Enabled(s, Co(yes, events))
  {
    match s.co
    case NotServing => s
    case Spawned => s.(co := LoopHead)
    case LoopHead => s.(co := LoopHave(s.word.gen))
    case LoopHave(g) => if g == s.served then s.(serving := false, co := NotServing) else s.(co := Skip(g))
    case Skip(g) =>
      s.(served := s.served + 1, co := if s.served + 1 == g then Session(g, Register) else CallSkipped(g))
    case CallSkipped(g) => Calls(s, OnDisconnected(s.served), Skip(g))
    case Session(g, pc) => SessionStep(s, g, pc, yes, events)
  }

  function Apply(s: State, a: Step): State
    requires Enabled(s, a)
  {
    match a
    case CallOpen(t) => Caller(s, t, OpenHave(s.word))
    case CallClose(t) => Caller(s, t, CloseHave(s.word))
    case Cas(t, spurious) => CasStep(s, t, spurious)
    case Post(t) => PostStep(s, t)
    case RunServe =>
      if s.serving || s.word.gen == s.served then s.(serves := s.serves - 1)
      else s.(serves := s.serves - 1, serving := true, co := Spawned)
    case RunCancel(more) => CancelStep(s, more)
    case IoCompletes(ok) => s.(co := Session(s.co.g, WithIo(s.co.pc, Completed(ok))))
    case IoAdvances => s.(co := Session(s.co.g, WithIo(s.co.pc, Between(s.co.pc.io.missed))))
    case IoContinues => s.(co := Session(s.co.g, WithIo(s.co.pc, Pending(s.co.pc.io.missed))))
    case CallbackReturns => s.(inCallback := false)
    case Co(yes, events) => CoStep(s, yes, events)
  }

  function Run(s: State, sched: seq<Step>): Option<State>
    decreases |sched|
  {
    if sched == [] then Some(s)
    else if Enabled(s, sched[0]) then Run(Apply(s, sched[0]), sched[1..])
    else None
  }

  ghost predicate Reachable(s: State) {
    exists s0: State, sched: seq<Step> :: Init(s0) && Run(s0, sched) == Some(s)
  }

  // ---- the packed word ----

  const WORD_SIZE: nat := 0x1_0000_0000_0000_0000

  function StatusBits(status: Status): nat {
    match status
    case Connecting => 0
    case Connected => 1
    case Disconnected => 2
  }

  /** make_state: a 64-bit word, the generation shifted above the two status bits. */
  function MakeState(gen: nat, status: Status): nat { (gen * 4) % WORD_SIZE + StatusBits(status) }

  function GenerationOf(word: nat): nat { word / 4 }

  function StatusOf(word: nat): nat { word % 4 }

  /** The packing loses nothing exactly while the generation fits in 62 bits. */
  lemma PackRoundTrip(gen: nat, status: Status)
    ensures StatusOf(MakeState(gen, status)) == StatusBits(status)
    ensures GenerationOf(MakeState(gen, status)) == gen <==> gen < WORD_SIZE / 4
  {
    var q := gen * 4 / WORD_SIZE;
    assert gen * 4 == WORD_SIZE * q + (gen * 4) % WORD_SIZE;
    assert (gen * 4) % WORD_SIZE == 4 * (gen - WORD_SIZE / 4 * q);
  }
}
