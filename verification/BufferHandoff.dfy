/**
 Handing a shared read buffer from one websocket session to the next, as a transition system.

 A websocket facade replaces its Impl at every reconnect; `impls` lists them in the order they were made.
 The facade is used by one caller at a time. Impl::open() runs wherever its continuation is called, and the
 sessions run on the service thread; all of them interleave in atomic steps.
 */
module BufferHandoff {
  import opened Wrappers

  datatype Status = Connecting | Connected | Disconnecting | Disconnected

  datatype Release = Active | CallbackSet | Released

  /** Where the call of Impl::open() is. */
  datatype OpenPc =
    | NotOpened
    | Entered             // before open_cancelled_ and detached_ are read
    | Abort               // cancelled or abandoned: before the status is put back
    | AbortRelease        // before release_buffer
    | AbortContinue       // release_buffer found a continuation; before it runs
    | StatusCas           // before DISCONNECTED is swapped for CONNECTING
    | StartedStore        // the swap won; before session_started_ = true
    | StartedExchange     // the status was CONNECTING already; before session_started_ is exchanged
    | Spawn
    | Returned

  /** Where the session is. */
  datatype SessionPc =
    | NoSession
    | Handshaking         // from the spawn to the first read
    | Reading             // async_read on the shared buffer is pending, or on_read is using it
    | Ending              // the read loop, or a session that never read, is over; before release_buffer
    | Continuing          // release_buffer found a continuation; before it runs
    | Over

  /** `opens` and `continued` count how often open() was entered and the continuation was run. */
  datatype Impl = Impl(
    status: Status,
    started: bool,        // session_started_
    cancelled: bool,      // open_cancelled_
    detached: bool,       // detached_
    release: Release,     // release_state_
    callback: bool,       // on_buffer_released_ has been stored
    open: OpenPc,
    session: SessionPc,
    opens: nat,
    continued: nat
  )

  /** Where the facade is; `i` is the Impl it acts on. */
  datatype FacadePc =
    | Free
    | Inside(i: nat)      // inside impl_->open()
    | Detach(i: nat)      // replacing impl i: before detach()
    | CloseOld(i: nat)    // before close() of the old session
    | Create(i: nat)
    | StoreCallback(i: nat)
    | SetCas(i: nat)      // before the CAS of set_on_buffer_released
    | RunInline(i: nat)   // the CAS lost to the release; before the continuation runs
    | Cancel(i: nat)      // close() of a pending open: before cancel_open()
    | DropCancel(i: nat)  // destructor: before cancel_open()
    | DropClose(i: nat)   // destructor: before close()
    | Gone

  datatype State = State(impls: seq<Impl>, facade: FacadePc)

  datatype Step =
    | FacadeOpen
    | FacadeClose
    | FacadeDetach
    | FacadeDestroy
    | FacadeNext
    | OpenNext(i: nat)
    | SessionConnects(i: nat)   // CONNECTING is swapped for CONNECTED
    | SessionReads(i: nat)      // the handshake succeeded and the read loop starts
    | SessionEnds(i: nat)
    | SessionNext(i: nat)       // release_buffer, or the continuation it found
    | StatusDown(i: nat, to: Status)

  ghost predicate Init(s: State) { s == State([], Free) }

  const FIRST: Impl := Impl(Disconnected, false, false, false, Active, false, Entered, NoSession, 1, 0)

  /** A deferred open, marked CONNECTING while it waits. */
  const PENDING: Impl := Impl(Connecting, false, false, false, Active, false, NotOpened, NoSession, 0, 0)

  function Last(s: State): nat { if s.impls == [] then 0 else |s.impls| - 1 }

  predicate Enabled(s: State, a: Step) {
    match a
    case FacadeOpen => s.facade.Free?
    case FacadeClose => s.facade.Free? && s.impls != []
    case FacadeDetach => s.facade.Free? && s.impls != []
    case FacadeDestroy => s.facade.Free?
    case FacadeNext =>
      && !s.facade.Free? && !s.facade.Gone? && s.facade.i < |s.impls|
      && (s.facade.Inside? ==> s.impls[s.facade.i].open.Returned?)
    case OpenNext(i) =>
      && i < |s.impls| && !s.impls[i].open.NotOpened? && !s.impls[i].open.Returned?
      && (s.impls[i].open.AbortContinue? ==> i + 1 < |s.impls|)
    case SessionConnects(i) => i < |s.impls| && s.impls[i].session.Handshaking? && s.impls[i].status.Connecting?
    case SessionReads(i) => i < |s.impls| && s.impls[i].session.Handshaking?
    case SessionEnds(i) => i < |s.impls| && (s.impls[i].session.Handshaking? || s.impls[i].session.Reading?)
    case SessionNext(i) =>
      i < |s.impls| && (s.impls[i].session.Ending? || (s.impls[i].session.Continuing? && i + 1 < |s.impls|))
    case StatusDown(i, to) =>
      i < |s.impls| && !s.impls[i].session.NoSession? && (to.Disconnecting? || to.Disconnected?)
  }

  function With(s: State, i: nat, m: Impl): State
    requires i < |s.impls|
  {
    s.(impls := s.impls[i := m])
  }

  /** The continuation of impl i: it opens impl i + 1. */
  function Continue(s: State, i: nat): State
    requires i + 1 < |s.impls|
  {
    var m, n := s.impls[i], s.impls[i + 1];
    With(With(s, i, m.(continued := m.continued + 1)), i + 1, n.(open := Entered, opens := n.opens + 1))
  }

  /** Impl::close(): a status below DISCONNECTING becomes DISCONNECTING. */
  function Closed(m: Impl): Impl {
    if m.status.Connecting? || m.status.Connected? then m.(status := Disconnecting) else m
  }

  function FacadeOpens(s: State): State
    requires Enabled(s, FacadeOpen)
  {
    if s.impls == [] then s.(impls := [FIRST], facade := Inside(0))
    else
      var i, m := Last(s), s.impls[Last(s)];
      if (!m.started && !m.cancelled) || (m.started && (m.status.Connecting? || m.status.Connected?)) then s
      else s.(facade := Detach(i))
  }

  function FacadeSteps(s: State): State
    requires Enabled(s, FacadeNext)
  {
    var i := s.facade.i;
    var m := s.impls[i];
    match s.facade
    case Free => s
    case Inside(_) => s.(facade := Free)
    case Detach(_) => With(s, i, m.(detached := true)).(facade := CloseOld(i))
    case CloseOld(_) => With(s, i, if m.started then Closed(m) else m).(facade := Create(i))
    case Create(_) => s.(impls := s.impls + [PENDING], facade := StoreCallback(i))
    case StoreCallback(_) => With(s, i, m.(callback := true)).(facade := SetCas(i))
    case SetCas(_) =>
      if m.release.Active? then With(s, i, m.(release := CallbackSet)).(facade := Free) else s.(facade := RunInline(i))
    case RunInline(_) => if i + 1 < |s.impls| then Continue(s, i).(facade := Inside(i + 1)) else s
    case Cancel(_) => With(s, i, m.(cancelled := true)).(facade := Free)
    case DropCancel(_) => With(s, i, m.(cancelled := true)).(facade := DropClose(i))
    case DropClose(_) => With(s, i, if m.started then Closed(m) else m).(facade := Gone)
    case Gone => s
  }

  function OpenSteps(s: State, i: nat): State
    requires Enabled(s, OpenNext(i))
  {
    var m := s.impls[i];
    match m.open
    case Entered => With(s, i, m.(open := if m.cancelled || m.detached then Abort else StatusCas))
    case Abort =>
      With(s, i, m.(status := if m.status.Connecting? then Disconnected else m.status, open := AbortRelease))
    case AbortRelease =>
      With(s, i, m.(release := Released, open := if m.release.CallbackSet? then AbortContinue else Returned))
    case AbortContinue =>
      var s' := Continue(s, i);
      With(s', i, s'.impls[i].(open := Returned))
    case StatusCas =>
      With(s, i, if m.status.Disconnected? then m.(status := Connecting, open := StartedStore)
                 else m.(open := if m.status.Connecting? then StartedExchange else Returned))
    case StartedStore => With(s, i, m.(started := true, open := Spawn))
    case StartedExchange => With(s, i, m.(started := true, open := if m.started then Returned else Spawn))
    case Spawn => With(s, i, m.(session := Handshaking, open := Returned))
    case _ => s
  }

  function SessionSteps(s: State, i: nat): State
    requires Enabled(s, SessionNext(i))
  {
    var m := s.impls[i];
    if m.session.Ending? then
      With(s, i, m.(release := Released, session := if m.release.CallbackSet? then Continuing else Over))
    else
      var s' := Continue(s, i);
      With(s', i, s'.impls[i].(session := Over))
  }

  function Apply(s: State, a: Step): State
    requires Enabled(s, a)
  {
    match a
    case FacadeOpen => FacadeOpens(s)
    case FacadeClose =>
      var i, m := Last(s), s.impls[Last(s)];
      if !m.started then s.(facade := Cancel(i)) else With(s, i, Closed(m))
    case FacadeDetach => With(s, Last(s), s.impls[Last(s)].(detached := true))
    case FacadeDestroy =>
      if s.impls == [] then s.(facade := Gone)
      else With(s, Last(s), s.impls[Last(s)].(detached := true)).(facade := DropCancel(Last(s)))
    case FacadeNext => FacadeSteps(s)
    case OpenNext(i) => OpenSteps(s, i)
    case SessionConnects(i) => With(s, i, s.impls[i].(status := Connected))
    case SessionReads(i) => With(s, i, s.impls[i].(session := Reading))
    case SessionEnds(i) => With(s, i, s.impls[i].(session := Ending))
    case SessionNext(i) => SessionSteps(s, i)
    case StatusDown(i, to) => With(s, i, s.impls[i].(status := to))
  }

  function Run(s: State, sched: seq<Step>): Option<State>
    decreases |sched|
  {
    if sched == [] then Some(s)
    else if Enabled(s, sched[0]) then Run(Apply(s, sched[0]), sched[1..])
    else None
  }

  ghost predicate Reachable(s: State) {
    exists s0: State, sched: seq<Step> :: Init(s0) && Run(s0, sched) == Some(s)
  }

  // ---- what the handoff promises ----

  /** The session may touch the shared buffer: it was opened and has not released. */
  predicate Holds(m: Impl) { m.opens > 0 && !m.release.Released? }

  /** Somebody is about to run the continuation of this impl. */
  predicate AboutToContinue(m: Impl) { m.open.AbortContinue? || m.session.Continuing? }

  /** No call is in progress. */
  predicate AtRest(s: State) {
    && (s.facade.Free? || s.facade.Gone?)
    && forall i :: 0 <= i < |s.impls| ==>
         (s.impls[i].open.NotOpened? || s.impls[i].open.Returned?)
         && !s.impls[i].session.Ending? && !s.impls[i].session.Continuing?
  }
}
