/**
 An HttpStream comes to rest: every run is bounded by what is asked of it, and where it can go no further
 everything is done.
 */
module HttpStreamProgress {
  import opened Wrappers
  import opened Tally
  import opened HttpStream
  import opened HttpStreamProofs
  import opened HttpStreamTheorems

  // ---- the work that is left ----

  function StageRank(stage: Stage): nat {
    match stage
    case Resolve => 25
    case Connect => 20
    case Handshake => 15
    case Write => 10
    case ReadHeader => 5
    case Respond => 0
  }

  function IoRank(io: Io): nat { if io.Pending? then 1 else if io.Between? then 2 else 0 }

  /** How far the coroutine is from its end, if it does not read again. */
  function Rank(co: Serving): nat {
    match co
    case NotServing => 0
    case Skip(_) => 1
    case CallSkipped(_) => 2
    case LoopHave(_) => 2
    case LoopHead => 3
    case Spawned => 4
    case Session(_, pc) =>
      match pc
      case CallDisconnected => 10
      case EndHave(_) => 11
      case EndLoad => 12
      case CallThrownError => 13
      case Thrown => 14
      case AwaitShutdown => 15
      case Leave(_) => 16
      case CallReadError => 17
      case CallHttpError => 17
      case LoopTest => 18
      case AfterRead(_) => 19
      case Deliver(n, _) => 20 + 2 * n
      case CallData(n, _) => 21 + 2 * n
      case ReadDone(n, _) => 22 + 2 * n
      case AwaitRead(io) => IoRank(io) + 23
      case StartRead => 25
      case CallConnected => 26
      case ConnectCas => 27
      case Header => 28
      case Await(stage, io) => StageRank(stage) + IoRank(io) + 30
      case Start(stage) => StageRank(stage) + 32
      case Check(stage) => StageRank(stage) + 33
      case Register => 59
  }

  /** A call, with all that it may set going: a generation, a handler, a cancel. */
  function CallWork(c: CallPc): nat {
    match c
    case NoCall => 0
    case OpenHave(_) => 131
    case OpenPost => 10
    case CloseHave(_) => 3
    case ClosePost => 2
  }

  function CallsWork(callers: seq<CallPc>): nat {
    if callers == [] then 0 else CallWork(callers[0]) + CallsWork(callers[1..])
  }

  lemma {:induction false} CallsWorkUpdate(callers: seq<CallPc>, t: nat, c: CallPc)
    requires t < |callers|
    ensures CallsWork(callers[t := c]) == CallsWork(callers) - CallWork(callers[t]) + CallWork(c)
  {
    if t > 0 {
      assert callers[t := c][1..] == callers[1..][t - 1 := c];
      CallsWorkUpdate(callers[1..], t - 1, c);
    } else {
      assert callers[t := c][1..] == callers[1..];
    }
  }

  /** All that is left to do: calls, generations, handlers, the coroutine, and the callback it is in. */
  function Work(s: State): int {
    CallsWork(s.callers) + 120 * (s.word.gen - s.served) + 9 * s.serves + s.cancels
    + 2 * Rank(s.co) + (if s.inCallback then 1 else 0)
  }

  /** What a step may add: a new call, another read, the events of the piece it brings, another operation. */
  function Added(s: State, a: Step): nat
    requires Enabled(s, a)
  {
    match a
    case CallOpen(_) => 132
    case CallClose(_) => 4
    case IoAdvances => 3
    case RunCancel(more) => if more then 2 else 0
    case Co(yes, events) =>
      if s.co.Session? && s.co.pc.LoopTest? && yes then 15
      else if s.co.Session? && s.co.pc.AwaitRead? then 4 * events
      else 0
    case _ => 0
  }

  // ---- compare-and-swap loops ----

  function Seen(c: CallPc): Option<Word> { if c.OpenHave? || c.CloseHave? then Some(c.seen) else None }

  /** A loop whose copy of the word is out of date. */
  predicate IsStale(c: CallPc, w: Word) { Seen(c).Some? && Seen(c) != Some(w) }

  function StaleFor(w: Word): CallPc -> bool { c => IsStale(c, w) }

  function Stale(s: State): nat {
    Count(s.callers, StaleFor(s.word))
    + (if s.co.Session? && s.co.pc.EndHave? && s.co.pc.seen != s.word then 1 else 0)
  }

  /** The step is a compare-and-swap that fails and stays in its loop. */
  predicate Retry(s: State, a: Step)
    requires Enabled(s, a)
  {
    match a
    case Cas(t, spurious) =>
      var seen := s.callers[t].seen;
      seen.status.Disconnected? == s.callers[t].OpenHave? && (seen != s.word || spurious)
    case Co(yes, _) =>
      && s.co.Session? && s.co.pc.EndHave?
      && Current(s.co.pc.seen, s.co.g) && (s.co.pc.seen != s.word || !yes)
    case _ => false
  }

  /** It fails although nothing has changed the word. */
  predicate Spurious(s: State, a: Step)
    requires Enabled(s, a)
  {
    && Retry(s, a)
    && (match a
        case Cas(t, _) => Seen(s.callers[t]) == Some(s.word)
        case _ => s.co.Session? && s.co.pc.EndHave? && s.co.pc.seen == s.word)
  }

  /** What a compare-and-swap makes of its call: it stays in its loop with a fresh copy, or moves on. */
  ghost predicate CasGoes(s: State, t: nat, s': State, retry: bool)
    requires t < |s.callers|
  {
    && t < |s'.callers| && s' == s.(callers := s.callers[t := s'.callers[t]], word := s'.word)
    && if retry then
         s'.word == s.word
         && s'.callers[t] == (if s.callers[t].OpenHave? then OpenHave(s.word) else CloseHave(s.word))
       else
         CallWork(s'.callers[t]) + 120 * (s'.word.gen - s.word.gen) < CallWork(s.callers[t])
  }

  lemma OpenCasGoes(s: State, t: nat, spurious: bool)
    requires Enabled(s, Cas(t, spurious)) && s.callers[t].OpenHave?
    ensures CasGoes(s, t, CasStep(s, t, spurious), Retry(s, Cas(t, spurious)))
  {
  }

  lemma CloseCasGoes(s: State, t: nat, spurious: bool)
    requires Enabled(s, Cas(t, spurious)) && s.callers[t].CloseHave?
    ensures CasGoes(s, t, CasStep(s, t, spurious), Retry(s, Cas(t, spurious)))
  {
  }

  lemma CasMoves(s: State, t: nat, spurious: bool)
    requires Enabled(s, Cas(t, spurious))
    ensures CasGoes(s, t, CasStep(s, t, spurious), Retry(s, Cas(t, spurious)))
  {
    if s.callers[t].OpenHave? { OpenCasGoes(s, t, spurious); } else { CloseCasGoes(s, t, spurious); }
  }

  lemma CasWork(s: State, t: nat, spurious: bool)
    requires Enabled(s, Cas(t, spurious))
    ensures
      var s' := CasStep(s, t, spurious);
      if Retry(s, Cas(t, spurious)) then Work(s') == Work(s) else Work(s') < Work(s)
  {
    var s' := CasStep(s, t, spurious);
    CasMoves(s, t, spurious);
    CallsWorkUpdate(s.callers, t, s'.callers[t]);
  }

  lemma CallWorks(s: State, a: Step)
    requires Inv(s) && Enabled(s, a) && (a.CallOpen? || a.CallClose? || a.Post?)
    ensures Work(Apply(s, a)) < Work(s) + Added(s, a)
  {
    CallsWorkUpdate(s.callers, a.t, Apply(s, a).callers[a.t]);
  }

  lemma HandlerWorks(s: State, a: Step)
    requires Inv(s) && Enabled(s, a) && (a.RunServe? || a.RunCancel? || IsIo(a) || a.CallbackReturns?)
    ensures Work(Apply(s, a)) < Work(s) + Added(s, a)
  {
  }

  lemma LoopWorks(s: State, yes: bool, events: nat)
    requires Inv(s) && Enabled(s, Co(yes, events)) && !s.co.Session?
    ensures Work(Apply(s, Co(yes, events))) < Work(s)
  {
  }

  /** Where a step of the session takes it. */
  function NextCo(s: State, yes: bool, events: nat): Serving
    requires Enabled(s, Co(yes, events)) && s.co.Session?
  {
    SessionStep(s, s.co.g, s.co.pc, yes, events).co
  }

  lemma CallbackWorks(s: State, yes: bool, events: nat)
    requires Enabled(s, Co(yes, events)) && s.co.Session? && IsCall(s.co.pc)
    ensures Rank(NextCo(s, yes, events)) < Rank(s.co)
  {
    CallbackAppends(s, yes, events);
  }

  lemma ConnectWorks(s: State, yes: bool, events: nat)
    requires Enabled(s, Co(yes, events)) && s.co.Session? && (s.co.pc.Await? ==> !s.co.pc.stage.Respond?)
    requires s.co.pc.Register? || s.co.pc.Check? || s.co.pc.Start? || s.co.pc.Await? || s.co.pc.Header?
             || s.co.pc.ConnectCas?
    ensures Rank(NextCo(s, yes, events)) < Rank(s.co)
  {
  }

  lemma ReadWorks(s: State, yes: bool, events: nat)
    requires Enabled(s, Co(yes, events)) && s.co.Session?
    requires s.co.pc.LoopTest? || s.co.pc.StartRead? || s.co.pc.AwaitRead?
    ensures 2 * Rank(NextCo(s, yes, events)) < 2 * Rank(s.co) + Added(s, Co(yes, events))
  {
  }

  lemma PieceWorks(s: State, yes: bool, events: nat)
    requires Enabled(s, Co(yes, events)) && s.co.Session?
    requires s.co.pc.ReadDone? || s.co.pc.Deliver? || s.co.pc.AfterRead?
    ensures Rank(NextCo(s, yes, events)) < Rank(s.co)
  {
  }

  lemma EndWorks(s: State, yes: bool, events: nat)
    requires Enabled(s, Co(yes, events)) && s.co.Session?
    requires s.co.pc.Leave? || s.co.pc.AwaitShutdown? || s.co.pc.Thrown? || s.co.pc.EndLoad?
    ensures Rank(NextCo(s, yes, events)) < Rank(s.co)
  {
  }

  lemma EndCasWorks(s: State, yes: bool, events: nat)
    requires Enabled(s, Co(yes, events)) && s.co.Session? && s.co.pc.EndHave?
    ensures if Retry(s, Co(yes, events)) then Rank(NextCo(s, yes, events)) == Rank(s.co)
            else Rank(NextCo(s, yes, events)) < Rank(s.co)
  {
  }

  /** A step of the session is worth as much as it moves, and a callback it makes counts for less. */
  lemma SessionWork(s: State, yes: bool, events: nat)
    requires Enabled(s, Co(yes, events)) && s.co.Session?
    ensures Work(Apply(s, Co(yes, events)))
              == Work(s) + 2 * Rank(NextCo(s, yes, events)) - 2 * Rank(s.co) + (if IsCall(s.co.pc) then 1 else 0)
  {
    SessionFrame(s, yes, events);
    if IsCall(s.co.pc) { CallbackAppends(s, yes, events); } else { QuietStep(s, yes, events); }
  }

  lemma SessionWorks(s: State, yes: bool, events: nat)
    requires Inv(s) && Enabled(s, Co(yes, events)) && s.co.Session?
    ensures
      var s' := Apply(s, Co(yes, events));
      if Retry(s, Co(yes, events)) then Work(s') == Work(s) else Work(s') < Work(s) + Added(s, Co(yes, events))
  {
    var pc := s.co.pc;
    SessionWork(s, yes, events);
    if IsCall(pc) { CallbackWorks(s, yes, events); }
    else if pc.LoopTest? || pc.StartRead? || pc.AwaitRead? { ReadWorks(s, yes, events); }
    else if pc.ReadDone? || pc.Deliver? || pc.AfterRead? { PieceWorks(s, yes, events); }
    else if pc.Leave? || pc.AwaitShutdown? || pc.Thrown? || pc.EndLoad? { EndWorks(s, yes, events); }
    else if pc.EndHave? { EndCasWorks(s, yes, events); }
    else { ConnectWorks(s, yes, events); }
  }

  /** Every step that is not a failed compare-and-swap leaves less work than there was, but for what it adds. */
  lemma StepWorks(s: State, a: Step)
    requires Inv(s) && Enabled(s, a)
    ensures if Retry(s, a) then Work(Apply(s, a)) == Work(s) else Work(Apply(s, a)) < Work(s) + Added(s, a)
  {
    if a.Cas? { CasWork(s, a.t, a.spurious); }
    else if a.CallOpen? || a.CallClose? || a.Post? { CallWorks(s, a); }
    else if !a.Co? { HandlerWorks(s, a); }
    else if s.co.Session? { SessionWorks(s, a.yes, a.events); }
    else { LoopWorks(s, a.yes, a.events); }
  }

  lemma RetryCas(s: State, t: nat, spurious: bool)
    requires Enabled(s, Cas(t, spurious)) && Retry(s, Cas(t, spurious))
    ensures
      var s' := CasStep(s, t, spurious);
      Stale(s') == Stale(s) - (if IsStale(s.callers[t], s.word) then 1 else 0)
  {
    CasMoves(s, t, spurious);
    CountUpdate(s.callers, t, CasStep(s, t, spurious).callers[t], StaleFor(s.word));
  }

  lemma RetryEnd(s: State, yes: bool, events: nat)
    requires Enabled(s, Co(yes, events)) && Retry(s, Co(yes, events))
    ensures
      var s' := Apply(s, Co(yes, events));
      s' == s.(co := Session(s.co.g, EndHave(s.word)))
  {
  }

  /** A failed compare-and-swap is up to date again, unless it was so before. */
  lemma RetryWorks(s: State, a: Step)
    requires Enabled(s, a) && Retry(s, a)
    ensures if Spurious(s, a) then Stale(Apply(s, a)) <= Stale(s) else Stale(Apply(s, a)) < Stale(s)
  {
    if a.Cas? {
      RetryCas(s, a.t, a.spurious);
    } else {
      RetryEnd(s, a.yes, a.events);
    }
  }

  lemma StaleBound(s: State)
    ensures Stale(s) <= |s.callers| + 1
  {
    CountBound(s.callers, StaleFor(s.word));
  }

  // ---- every run is bounded ----

  /** The work left, and below it the loops that may still fail once for it. */
  function Total(s: State): int { (|s.callers| + 2) * Work(s) + Stale(s) }

  /** What a step adds to it: its work, and one if it is a compare-and-swap that fails for nothing. */
  function Extra(s: State, a: Step): nat
    requires Enabled(s, a)
  {
    (|s.callers| + 2) * Added(s, a) + (if Spurious(s, a) then 1 else 0)
  }

  function Allowance(s: State, sched: seq<Step>): nat
    requires Run(s, sched).Some?
    decreases |sched|
  {
    if sched == [] then 0 else Extra(s, sched[0]) + Allowance(Apply(s, sched[0]), sched[1..])
  }

  lemma WorkNat(s: State)
    requires s.served <= s.word.gen
    ensures Work(s) >= 0 && Total(s) >= 0
  {
    assert (|s.callers| + 2) * Work(s) >= 0;
  }

  /** Less work, and no more stale copies than there can be. */
  lemma Packed(n: nat, work: int, work': int, added: nat, stale: nat, stale': nat)
    requires work' + 1 <= work + added && stale' < n
    ensures n * work' + stale' + 1 <= n * work + stale + n * added
  {
    assert n * (work' + 1) <= n * (work + added);
  }

  lemma StepTotal(s: State, a: Step)
    requires Inv(s) && Enabled(s, a)
    ensures Total(Apply(s, a)) + 1 <= Total(s) + Extra(s, a)
  {
    var s', n := Apply(s, a), |s.callers| + 2;
    StepWorks(s, a);
    StepKeepsCallers(s, a);
    if Retry(s, a) {
      RetryWorks(s, a);
      assert Added(s, a) == 0;
    } else {
      StaleBound(s');
      Packed(n, Work(s), Work(s'), Added(s, a), Stale(s), Stale(s'));
    }
  }

  /** No run is longer than the work it starts with and what it adds on its way. With no new calls, finitely many
      reads and events and no compare-and-swap that fails for nothing, every schedule comes to an end. */
  lemma {:induction false} RunIsBounded(s: State, sched: seq<Step>)
    requires Inv(s) && Run(s, sched).Some?
    ensures Inv(Run(s, sched).value) && Total(Run(s, sched).value) >= 0
    ensures |sched| + Total(Run(s, sched).value) <= Total(s) + Allowance(s, sched)
    decreases |sched|
  {
    if sched == [] {
      WorkNat(s);
    } else {
      StepTotal(s, sched[0]);
      StepKeepsInv(s, sched[0]);
      RunIsBounded(Apply(s, sched[0]), sched[1..]);
    }
  }

  // ---- and ends with everything done ----

  /** Nothing is running, called, queued or about to be posted. */
  ghost predicate AtRest(s: State) { Quiescent(s) && s.cancels == 0 && !s.inCallback }

  /** A stream that is not at rest has a step to take that is no new call, adds nothing and does not fail for
      nothing. */
  lemma GoesOn(s: State) returns (a: Step)
    requires Inv(s) && !AtRest(s)
    ensures Enabled(s, a) && !a.CallOpen? && !a.CallClose?
    ensures Added(s, a) == 0 && !Spurious(s, a)
  {
    if t :| 0 <= t < |s.callers| && !s.callers[t].NoCall? {
      a := if Seen(s.callers[t]).Some? then Cas(t, false) else Post(t);
    } else if s.inCallback {
      a := CallbackReturns;
    } else if Waits(s) && s.co.pc.io.Pending? {
      a := IoCompletes(false);
    } else if Waits(s) && s.co.pc.io.Between? {
      a := IoContinues;
    } else if !s.co.NotServing? {
      a := Co(s.co.Session? && s.co.pc.EndHave?, 0);
    } else {
      a := if s.serves > 0 then RunServe else RunCancel(false);
    }
  }

  /** A stream that can go no further without a new call is at rest: every generation ever opened has had exactly
      one onDisconnected, and the stream is DISCONNECTED. */
  lemma StuckIsDone(s: State)
    requires Reachable(s) && forall a: Step :: Enabled(s, a) ==> a.CallOpen? || a.CallClose?
    ensures AtRest(s) && s.word.status.Disconnected?
    ensures forall g: nat :: Disconnects(s.trace, g) == if 0 < g <= s.word.gen then 1 else 0
  {
    ReachableInv(s);
    if !AtRest(s) {
      var a := GoesOn(s);
    }
    forall g: nat ensures Disconnects(s.trace, g) == if 0 < g <= s.word.gen then 1 else 0 {
      ExactlyOneDisconnected(s, g);
    }
    ExactlyOneDisconnected(s, 0);
  }

  /** From every reachable state some schedule brings the stream to rest, whatever its callers and its session
      were doing. */
  lemma {:induction false} ComesToRest(s: State) returns (sched: seq<Step>)
    requires Inv(s)
    ensures Run(s, sched).Some? && AtRest(Run(s, sched).value) && |sched| <= Total(s)
    decreases Total(s)
  {
    WorkNat(s);
    if AtRest(s) {
      sched := [];
    } else {
      var a := GoesOn(s);
      StepTotal(s, a);
      StepKeepsInv(s, a);
      WorkNat(Apply(s, a));
      var rest := ComesToRest(Apply(s, a));
      sched := [a] + rest;
      assert sched[1..] == rest;
    }
  }
}
