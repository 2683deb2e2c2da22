/**
 The write-chain gate and the websocket write chain it guards, as a transition system.

 Every thread has a program counter inside `send` and a FIFO store buffer (total store order): a store
 enters the buffer of its thread, reaches memory in a later `Flush` step, and is seen by its own thread
 at once. A seq_cst fence and every read-modify-write wait for the buffer to drain. Thread 0 is the
 service thread; it also runs the chain, one handler at a time.
 */
module WriteChain {
  import opened Wrappers
  import opened Tally

  type Record = string

  datatype Status = Connecting | Connected | Disconnecting | Disconnected

  /** The stores whose order matters: making a queue slot visible, and `running_ = false`. */
  datatype Store = Publish(slot: nat) | Release

  /** Where a thread is inside `send`. */
  datatype SendPc =
    | Idle
    | Checked                  // the status allowed the send
    | Reserved(slot: nat)      // the slot is reserved and filled, not yet visible
    | Published(slot: nat)     // the publish was issued; before the fence of claim_after_publish
    | Fenced                   // before the load of running_
    | SawFree                  // the load read false; before the CAS
    | Claimed                  // won the CAS; before posting the wakeup

  datatype Thread = Thread(pc: SendPc, buffer: seq<Store>)

  /** A queue slot; `owner` names the thread that reserved it. */
  datatype Slot = Slot(record: Record, published: bool, owner: nat)

  /** Where the service thread is inside a handler of the write chain or of the session. */
  datatype ChainPc =
    | NoHandler
    | Entry                              // do_write entered
    | ReadNext                           // the status was CONNECTED; before the committed read
    | Have(record: Record)               // a record was read; before async_write
    | Dry                                // the read found nothing; before running_ = false
    | Released                           // after the store; before the fence of ended_or_reclaimed
    | Probing                            // after the fence; before the probe
    | Found(probe: nat, record: Record)  // the probe read a record off a copy of the cursor; before the CAS
    | OnConnected                        // the session reached CONNECTED and runs its callback
    | ResumeCheck                        // before maybe_start_queued_write
    | WriteFailed                        // on_write with an error; its callback may run

  datatype State = State(
    threads: seq<Thread>,
    slots: seq<Slot>,
    running: bool,          // running_ as memory holds it
    cursor: nat,            // w_cursor_
    status: Status,
    parked: bool,           // write_parked_
    wakeups: nat,           // posted by send, not yet run
    resumes: nat,           // posted by maybe_start_queued_write, not yet run
    frames: nat,            // async_write operations in flight
    chain: ChainPc,
    written: seq<Record>,   // every record handed to the socket, in order
    abandoned: bool         // the last chain to end was abandoned on a write error
  )

  datatype Step =
    | SendCheck(t: nat)
    | SendReserve(t: nat, record: Record)
    | SendPublish(t: nat)
    | SendFence(t: nat)
    | SendLoad(t: nat)
    | SendCas(t: nat)
    | SendPost(t: nat)
    | Flush(t: nat)
    | RunWakeup
    | RunResume
    | FrameDone(ok: bool)
    | EnterWrite
    | ReadCursor
    | StartFrame
    | ReleaseGate
    | FenceGate
    | Probe
    | Reclaim
    | Abandon
    | OpenSession
    | SessionConnected
    | CallbackReturns(detached: bool)
    | MaybeStartQueuedWrite
    | StatusDown(to: Status)

  ghost predicate Init(s: State) {
    && |s.threads| > 0
    && (forall t :: 0 <= t < |s.threads| ==> s.threads[t] == Thread(Idle, []))
    && s == State(s.threads, [], false, 0, Disconnected, false, 0, 0, 0, NoHandler, [], false)
  }

  // ---- what a thread reads ----

  /** Store forwarding: a thread sees its own buffered release before memory does. */
  predicate LoadRunning(s: State, t: nat)
    requires t < |s.threads|
  {
    s.running && Release !in s.threads[t].buffer
  }

  /** slick::queue::read at `at`, on the service thread: a record is there once its slot is visible. */
  function ReadSlot(s: State, at: nat): Option<Record>
    requires |s.threads| > 0
  {
    if at < |s.slots| && (s.slots[at].published || Publish(at) in s.threads[0].buffer)
    then Some(s.slots[at].record)
    else None
  }

  // ---- who runs ----

  /** Callbacks, and with them sends from the service thread, run only at these points. */
  predicate CallbackPoint(c: ChainPc) {
    c.NoHandler? || c.OnConnected? || c.WriteFailed?
  }

  predicate CanSend(s: State, t: nat) {
    t < |s.threads| && (t == 0 ==> CallbackPoint(s.chain))
  }

  /** The service thread is free to continue a handler: it is not inside a send of its own. */
  predicate ServiceAt(s: State, c: ChainPc) {
    |s.threads| > 0 && s.threads[0].pc.Idle? && s.chain == c
  }

  predicate Drained(s: State, t: nat) {
    t < |s.threads| && s.threads[t].buffer == []
  }

  // ---- steps ----

  /** Which of the two fences of the gate there are: a send's, behind its publish, and the chain's, behind its
      release. */
  datatype Fences = Fences(send: bool, chain: bool)

  /** The code as written. */
  const FENCED: Fences := Fences(true, true)

  predicate Enabled(s: State, a: Step, fences: Fences) {
    match a
    case SendCheck(t) => CanSend(s, t) && s.threads[t].pc.Idle? && (s.status.Connecting? || s.status.Connected?)
    case SendReserve(t, _) => CanSend(s, t) && s.threads[t].pc.Checked? && Drained(s, t)
    case SendPublish(t) => CanSend(s, t) && s.threads[t].pc.Reserved?
    case SendFence(t) => CanSend(s, t) && s.threads[t].pc.Published? && (fences.send ==> Drained(s, t))
    case SendLoad(t) => CanSend(s, t) && s.threads[t].pc.Fenced?
    case SendCas(t) => CanSend(s, t) && s.threads[t].pc.SawFree? && Drained(s, t)
    case SendPost(t) => CanSend(s, t) && s.threads[t].pc.Claimed?
    case Flush(t) => t < |s.threads| && s.threads[t].buffer != []
                     && (s.threads[t].buffer[0].Publish? ==> s.threads[t].buffer[0].slot < |s.slots|)
    case RunWakeup => ServiceAt(s, NoHandler) && s.wakeups > 0
    case RunResume => ServiceAt(s, NoHandler) && s.resumes > 0
    case FrameDone(_) => ServiceAt(s, NoHandler) && s.frames > 0
    case EnterWrite => ServiceAt(s, Entry)
    case ReadCursor => ServiceAt(s, ReadNext)
    case StartFrame => |s.threads| > 0 && s.threads[0].pc.Idle? && s.chain.Have?
    case ReleaseGate => ServiceAt(s, Dry)
    case FenceGate => ServiceAt(s, Released) && (fences.chain ==> Drained(s, 0))
    case Probe => ServiceAt(s, Probing)
    case Reclaim => |s.threads| > 0 && s.threads[0].pc.Idle? && s.chain.Found? && Drained(s, 0)
    case Abandon => ServiceAt(s, WriteFailed)
    case OpenSession => s.status.Disconnected?
    case SessionConnected => ServiceAt(s, NoHandler) && s.status.Connecting?
    case CallbackReturns(_) => ServiceAt(s, OnConnected)
    case MaybeStartQueuedWrite => ServiceAt(s, ResumeCheck)
    case StatusDown(to) => (to.Disconnecting? && (s.status.Connecting? || s.status.Connected?)) || to.Disconnected?
  }

  function WithPc(s: State, t: nat, pc: SendPc): State
    requires t < |s.threads|
  {
    s.(threads := s.threads[t := s.threads[t].(pc := pc)])
  }

  /** The stored value enters the store buffer of thread `t`. */
  function Buffered(s: State, t: nat, w: Store): State
    requires t < |s.threads|
  {
    s.(threads := s.threads[t := s.threads[t].(buffer := s.threads[t].buffer + [w])])
  }

  /** The oldest buffered store of thread `t` reaches memory. */
  function Flushed(s: State, t: nat): State
    requires Enabled(s, Flush(t), FENCED)
  {
    var th := s.threads[t];
    var s' := s.(threads := s.threads[t := th.(buffer := th.buffer[1..])]);
    match th.buffer[0]
    case Release => s'.(running := false)
    case Publish(i) => s'.(slots := s.slots[i := s.slots[i].(published := true)])
  }

  function Apply(s: State, a: Step, fences: Fences): State
    requires Enabled(s, a, fences)
  {
    match a
    case SendCheck(t) => WithPc(s, t, Checked)
    case SendReserve(t, record) =>
      WithPc(s, t, Reserved(|s.slots|)).(slots := s.slots + [Slot(record, false, t)])
    case SendPublish(t) =>
      var i := s.threads[t].pc.slot;
      WithPc(Buffered(s, t, Publish(i)), t, Published(i))
    case SendFence(t) => WithPc(s, t, Fenced)
    case SendLoad(t) => WithPc(s, t, if LoadRunning(s, t) then Idle else SawFree)
    case SendCas(t) =>
      if s.running then WithPc(s, t, Idle)
      else WithPc(s, t, Claimed).(running := true, abandoned := false)
    case SendPost(t) => WithPc(s, t, Idle).(wakeups := s.wakeups + 1)
    case Flush(t) => Flushed(s, t)
    case RunWakeup => s.(wakeups := s.wakeups - 1, chain := Entry)
    case RunResume => s.(resumes := s.resumes - 1, chain := Entry)
    case FrameDone(ok) => s.(frames := s.frames - 1, chain := if ok then Entry else WriteFailed)
    case EnterWrite => if s.status.Connected? then s.(chain := ReadNext) else s.(parked := true, chain := NoHandler)
    case ReadCursor => (
      match ReadSlot(s, s.cursor)
      case Some(record) => s.(cursor := s.cursor + 1, chain := Have(record))
      case None => s.(chain := Dry))
    case StartFrame => s.(frames := s.frames + 1, written := s.written + [s.chain.record], chain := NoHandler)
    case ReleaseGate => Buffered(s, 0, Release).(chain := Released)
    case FenceGate => s.(chain := Probing)
    case Probe => (
      match ReadSlot(s, s.cursor)
      case Some(record) => s.(chain := Found(s.cursor + 1, record))
      case None => s.(chain := NoHandler))
    case Reclaim =>
      if s.running then s.(chain := NoHandler)
      else s.(running := true, abandoned := false, cursor := s.chain.probe, chain := Have(s.chain.record))
    case Abandon => Buffered(s, 0, Release).(chain := NoHandler, abandoned := true)
    case OpenSession => s.(status := Connecting)
    case SessionConnected => s.(status := Connected, chain := OnConnected)
    case CallbackReturns(detached) =>
      s.(chain := if s.status.Connected? && !detached then ResumeCheck else NoHandler)
    case MaybeStartQueuedWrite =>
      if s.parked then s.(parked := false, resumes := s.resumes + 1, chain := NoHandler) else s.(chain := NoHandler)
    case StatusDown(to) => s.(status := to)
  }

  /** The state after a schedule, or None when one of its steps is not enabled. */
  function Run(s: State, sched: seq<Step>, fences: Fences): Option<State>
    decreases |sched|
  {
    if sched == [] then Some(s)
    else if Enabled(s, sched[0], fences) then Run(Apply(s, sched[0], fences), sched[1..], fences)
    else None
  }

  /** `s` is reached by some schedule, with any number of threads. */
  ghost predicate Reachable(s: State, fences: Fences) {
    exists s0: State, sched: seq<Step> :: Init(s0) && Run(s0, sched, fences) == Some(s)
  }

  // ---- what the protocol promises ----

  /** No thread will regard the gate as held once the release on its way to memory gets there. */
  predicate GateHeld(s: State)
    requires |s.threads| > 0
  {
    LoadRunning(s, 0)
  }

  predicate Claiming(th: Thread) { th.pc.Published? || th.pc.Fenced? || th.pc.SawFree? }

  predicate Owning(th: Thread) { th.pc.Claimed? }

  /** The chain is between releasing the gate and its CAS. */
  predicate ChainClaiming(c: ChainPc) { c.Released? || c.Probing? || c.Found? }

  /** The handler the service thread is in belongs to a chain that owns the gate. */
  predicate ChainOwning(c: ChainPc) { c.Entry? || c.ReadNext? || c.Have? || c.Dry? || c.WriteFailed? }

  function Bit(b: bool): nat { if b then 1 else 0 }

  /** Everything that stands for a write chain: producers about to post, posted handlers, a parked chain,
      frames in flight and the handler that is running. */
  function Chains(s: State): nat {
    Count(s.threads, Owning) + s.wakeups + s.resumes + s.frames + Bit(s.parked) + Bit(ChainOwning(s.chain))
  }

  /** The record at the cursor is readable, the gate is free, and nobody is going to claim it. */
  ghost predicate Stranded(s: State) {
    && |s.threads| > 0
    && s.cursor < |s.slots| && s.slots[s.cursor].published
    && !GateHeld(s)
    && !ChainClaiming(s.chain)
    && forall t :: 0 <= t < |s.threads| ==> !Claiming(s.threads[t])
  }

  /** The records of the first n slots, in reservation order. */
  function Records(slots: seq<Slot>, n: nat): (r: seq<Record>)
    requires n <= |slots|
    ensures |r| == n
  {
    seq(n, i requires 0 <= i < n => slots[i].record)
  }
}
