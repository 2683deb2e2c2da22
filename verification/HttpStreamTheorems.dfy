/** The guarantees of an HttpStream, for every run with any number of threads. */
module HttpStreamTheorems {
  import opened Wrappers
  import opened Tally
  import opened HttpStream
  import opened HttpStreamProofs

  // ---- no open is stranded ----

  /** A generation not yet served is being, or is on its way to be, taken up. */
  lemma NoOpenStranded(s: State)
    requires Reachable(s) && s.word.gen != s.served
    ensures (s.serving && s.co != LoopHave(s.served)) || s.serves > 0
            || exists t :: 0 <= t < |s.callers| && s.callers[t].OpenPost?
  {
    ReachableInv(s);
    CountZero(s.callers, OpenPosting);
  }

  // ---- the callbacks ----

  /** Callbacks of generation g so far, in the order (connected data*)? error?. */
  ghost predicate Body(b: seq<Event>, phase: Phase, g: nat) {
    match phase
    case Fresh => b == []
    case Live => |b| > 0 && b[0] == OnConnected(g) && forall i :: 0 < i < |b| ==> b[i] == OnData(g)
    case Failed =>
      |b| > 0 && b[|b| - 1] == OnError(g) && (Body(b[..|b| - 1], Fresh, g) || Body(b[..|b| - 1], Live, g))
  }

  ghost predicate SomeBody(b: seq<Event>, g: nat) { Body(b, Fresh, g) || Body(b, Live, g) || Body(b, Failed, g) }

  /** The whole of generation g: its callbacks, then one onDisconnected. */
  ghost predicate Block(b: seq<Event>, g: nat) {
    |b| > 0 && b[|b| - 1] == OnDisconnected(g) && SomeBody(b[..|b| - 1], g)
  }

  function Flatten(blocks: seq<seq<Event>>): seq<Event> {
    if blocks == [] then [] else Flatten(blocks[..|blocks| - 1]) + blocks[|blocks| - 1]
  }

  lemma BodyGrows(b: seq<Event>, phase: Phase, g: nat, e: Event)
    requires g > 0 && Body(b, phase, g) && Read(Good(g - 1, phase), e).Good? && !e.OnDisconnected?
    ensures Body(b + [e], Read(Good(g - 1, phase), e).phase, g)
  {
    assert (b + [e])[..|b|] == b;
  }

  lemma BlockCloses(bs: seq<seq<Event>>, r: seq<Event>, phase: Phase, g: nat, e: Event)
    requires Body(r, phase, g) && e == OnDisconnected(g)
    ensures Flatten(bs + [r + [e]]) == Flatten(bs) + r + [e] && Block(r + [e], g)
  {
    assert (bs + [r + [e]])[..|bs|] == bs && (r + [e])[..|r|] == r;
    assert Flatten(bs) + (r + [e]) == Flatten(bs) + r + [e];
  }

  /** A trace cut into blocks and the start of the next one. */
  ghost predicate Split(trace: seq<Event>, p: Parsed, blocks: seq<seq<Event>>, rest: seq<Event>) {
    && p.Good?
    && trace == Flatten(blocks) + rest
    && |blocks| == p.done
    && (forall i :: 0 <= i < |blocks| ==> Block(blocks[i], i + 1))
    && Body(rest, p.phase, p.done + 1)
  }

  lemma SplitGrows(trace: seq<Event>, p: Parsed, bs: seq<seq<Event>>, r: seq<Event>, e: Event)
    returns (blocks: seq<seq<Event>>, rest: seq<Event>)
    requires Split(trace, p, bs, r) && Read(p, e).Good?
    ensures Split(trace + [e], Read(p, e), blocks, rest)
  {
    if e.OnDisconnected? {
      BlockCloses(bs, r, p.phase, p.done + 1, e);
      blocks, rest := bs + [r + [e]], [];
    } else {
      BodyGrows(r, p.phase, p.done + 1, e);
      blocks, rest := bs, r + [e];
      assert Flatten(bs) + (r + [e]) == Flatten(bs) + r + [e];
    }
  }

  /** A trace that parses is one contiguous block for each generation in order, and the start of the next. */
  lemma {:induction false} ParsedIsBlocks(trace: seq<Event>) returns (blocks: seq<seq<Event>>, rest: seq<Event>)
    requires Parse(trace).Good?
    ensures Split(trace, Parse(trace), blocks, rest)
  {
    if trace == [] {
      blocks, rest := [], [];
    } else {
      var shorter, e := trace[..|trace| - 1], trace[|trace| - 1];
      blocks, rest := ParsedIsBlocks(shorter);
      blocks, rest := SplitGrows(shorter, Parse(shorter), blocks, rest, e);
      assert trace == shorter + [e];
    }
  }

  /** Callbacks of different generations never interleave. */
  lemma CallbacksAreBlocks(s: State) returns (blocks: seq<seq<Event>>, rest: seq<Event>)
    requires Reachable(s)
    ensures s.trace == Flatten(blocks) + rest && |blocks| <= s.served <= s.word.gen
    ensures forall i :: 0 <= i < |blocks| ==> Block(blocks[i], i + 1)
    ensures SomeBody(rest, |blocks| + 1)
    ensures s.co.LoopHead? || s.co.NotServing? ==> rest == [] && |blocks| == s.served
  {
    ReachableInv(s);
    blocks, rest := ParsedIsBlocks(s.trace);
  }

  /** How often generation g was told that it is over. */
  function Disconnects(trace: seq<Event>, g: nat): nat {
    if trace == [] then 0
    else Disconnects(trace[..|trace| - 1], g) + (if trace[|trace| - 1] == OnDisconnected(g) then 1 else 0)
  }

  lemma {:induction false} ParsedDisconnects(trace: seq<Event>, g: nat)
    requires Parse(trace).Good?
    ensures Disconnects(trace, g) == if 0 < g <= Parse(trace).done then 1 else 0
  {
    if trace != [] {
      ParsedDisconnects(trace[..|trace| - 1], g);
    }
  }

  /** Nothing is running, queued or about to be posted. */
  predicate Quiescent(s: State) {
    s.co.NotServing? && s.serves == 0 && forall t :: 0 <= t < |s.callers| ==> s.callers[t].NoCall?
  }

  /** Every open() that started a generation gets exactly one onDisconnected: no generation has had two, those
      served have had theirs at every loop head, and at quiescence all have, and the stream is DISCONNECTED. */
  lemma ExactlyOneDisconnected(s: State, g: nat)
    requires Reachable(s)
    ensures Disconnects(s.trace, g) <= 1
    ensures s.co.LoopHead? || s.co.NotServing? ==> Disconnects(s.trace, g) == if 0 < g <= s.served then 1 else 0
    ensures Quiescent(s) ==> Disconnects(s.trace, g) == if 0 < g <= s.word.gen then 1 else 0
    ensures Quiescent(s) ==> s.word.status.Disconnected?
  {
    ReachableInv(s);
    ParsedDisconnects(s.trace, g);
    CountZero(s.callers, OpenPosting);
  }

  // ---- silence after close ----

  /** Generation g has begun and is over. */
  predicate Over(w: Word, g: nat) { 0 < g <= w.gen && !Current(w, g) }

  predicate IsReport(e: Event, g: nat) { e.gen == g && !e.OnDisconnected? }

  /** How many onConnected, onData and onError calls generation g has had. */
  function Reports(trace: seq<Event>, g: nat): nat {
    if trace == [] then 0
    else Reports(trace[..|trace| - 1], g) + (if IsReport(trace[|trace| - 1], g) then 1 else 0)
  }

  /** The session of generation g has passed the check that lets one more callback run. */
  function Committed(co: Serving, g: nat): nat {
    if co.Session? && co.g == g
       && (co.pc.Header? || co.pc.CallHttpError? || co.pc.CallConnected? || co.pc.CallData? || co.pc.CallReadError?
           || co.pc.CallThrownError?)
    then 1 else 0
  }

  lemma ReportsSnoc(trace: seq<Event>, e: Event, g: nat)
    ensures Reports(trace + [e], g) == Reports(trace, g) + (if IsReport(e, g) then 1 else 0)
  {
    assert (trace + [e])[..|trace|] == trace;
  }

  lemma SessionMovesForward(s: State, yes: bool, events: nat)
    requires Enabled(s, Co(yes, events)) && s.co.Session?
    ensures Later(s.word, Apply(s, Co(yes, events)).word)
  {
  }

  /** No step moves the word back: not to an earlier generation, and not to an earlier status of the same one. */
  lemma WordMovesForward(s: State, a: Step)
    requires Enabled(s, a)
    ensures Later(s.word, Apply(s, a).word)
  {
    if a.Co? && s.co.Session? {
      SessionMovesForward(s, a.yes, a.events);
    }
  }

  /** No check lets a callback through for a generation that is not open at that very step. */
  lemma SessionCommitsNothing(s: State, yes: bool, events: nat, g: nat)
    requires Enabled(s, Co(yes, events)) && s.co.Session? && !IsCall(s.co.pc) && !Current(s.word, g)
    ensures
      var s' := Apply(s, Co(yes, events));
      s'.trace == s.trace && Committed(s'.co, g) <= Committed(s.co, g)
  {
  }

  /** A callback other than onDisconnected runs only after a check has let it through. */
  lemma CallbackIsCommitted(s: State, yes: bool, events: nat, g: nat)
    requires Enabled(s, Co(yes, events)) && s.co.Session? && IsCall(s.co.pc)
    ensures
      var s' := Apply(s, Co(yes, events));
      var e := EventOf(s.co.pc, s.co.g);
      && s'.trace == s.trace + [e]
      && Committed(s'.co, g) == 0
      && (IsReport(e, g) ==> Committed(s.co, g) == 1)
  {
    CallbackAppends(s, yes, events);
  }

  lemma OthersReportNothing(s: State, a: Step, g: nat)
    requires Enabled(s, a) && !(a.Co? && s.co.Session?)
    ensures Reports(Apply(s, a).trace, g) == Reports(s.trace, g)
    ensures Committed(Apply(s, a).co, g) <= Committed(s.co, g)
  {
    if !a.Co? {
      OtherFrame(s, a);
    } else if s.co.CallSkipped? {
      ReportsSnoc(s.trace, OnDisconnected(s.served), g);
    } else {
      LoopFrame(s, a.yes, a.events);
    }
  }

  /** The loop of serve_sessions makes no callback but for a skipped generation. */
  lemma LoopFrame(s: State, yes: bool, events: nat)
    requires Enabled(s, Co(yes, events)) && !s.co.Session? && !s.co.CallSkipped?
    ensures
      var s' := Apply(s, Co(yes, events));
      s'.trace == s.trace && (s'.co.Session? ==> s'.co.pc.Register?)
  {
  }

  lemma StepAfterClose(s: State, a: Step, g: nat)
    requires Enabled(s, a) && Over(s.word, g)
    ensures
      var s' := Apply(s, a);
      Over(s'.word, g) && Reports(s'.trace, g) + Committed(s'.co, g) <= Reports(s.trace, g) + Committed(s.co, g)
  {
    WordMovesForward(s, a);
    if !(a.Co? && s.co.Session?) {
      OthersReportNothing(s, a, g);
    } else if IsCall(s.co.pc) {
      CallbackIsCommitted(s, a.yes, a.events, g);
      ReportsSnoc(s.trace, EventOf(s.co.pc, s.co.g), g);
    } else {
      SessionCommitsNothing(s, a.yes, a.events, g);
    }
  }

  /** Once a generation is over, by close() or at its own end, at most the one callback already let through
      runs, however the run goes on; and it is never current again. */
  lemma {:induction false} SilentAfterClose(s: State, sched: seq<Step>, g: nat)
    requires Over(s.word, g) && Run(s, sched).Some?
    ensures Over(Run(s, sched).value.word, g)
    ensures Reports(Run(s, sched).value.trace, g) <= Reports(s.trace, g) + Committed(s.co, g)
    decreases |sched|
  {
    if sched != [] {
      StepAfterClose(s, sched[0], g);
      SilentAfterClose(Apply(s, sched[0]), sched[1..], g);
    }
  }

  // ---- what close() and open() have done when they return ----

  /** Only its own compare-and-swap takes a call on. */
  lemma OthersLeaveCall(s: State, a: Step, t: nat)
    requires Enabled(s, a) && t < |s.callers| && (s.callers[t].CloseHave? || s.callers[t].OpenHave?)
    requires !(a.Cas? && a.t == t)
    ensures t < |Apply(s, a).callers| && Apply(s, a).callers[t] == s.callers[t]
  {
    if a.Co? && s.co.Session? {
      SessionFrame(s, a.yes, a.events);
    }
  }

  lemma ClosingStep(s: State, a: Step, t: nat, g: nat)
    requires Enabled(s, a) && t < |s.callers| && s.callers[t].CloseHave? && 0 < g
    requires g <= s.callers[t].seen.gen && Later(s.callers[t].seen, s.word)
    ensures
      var s' := Apply(s, a);
      && t < |s'.callers|
      && (if s'.callers[t].CloseHave? then g <= s'.callers[t].seen.gen && Later(s'.callers[t].seen, s'.word)
          else Over(s'.word, g))
  {
    if a.Cas? && a.t == t {
      CloseCas(s, t, a.spurious, g);
    } else {
      WordMovesForward(s, a);
      OthersLeaveCall(s, a, t);
    }
  }

  lemma CloseCas(s: State, t: nat, spurious: bool, g: nat)
    requires t < |s.callers| && s.callers[t].CloseHave? && 0 < g
    requires g <= s.callers[t].seen.gen && Later(s.callers[t].seen, s.word)
    ensures
      var s' := CasStep(s, t, spurious);
      if s'.callers[t].CloseHave? then g <= s'.callers[t].seen.gen && Later(s'.callers[t].seen, s'.word)
      else Over(s'.word, g)
  {
  }

  /** When a close() has done its work, the generation it first saw is over, whoever ended it; with
      SilentAfterClose no more than the callback already let through is still to come. */
  lemma {:induction false} CloseEnds(s: State, sched: seq<Step>, t: nat, g: nat)
    requires Run(s, sched).Some? && t < |s.callers| && s.callers[t].CloseHave? && 0 < g
    requires g <= s.callers[t].seen.gen && Later(s.callers[t].seen, s.word)
    ensures t < |Run(s, sched).value.callers|
    ensures Run(s, sched).value.callers[t].CloseHave? || Over(Run(s, sched).value.word, g)
    decreases |sched|
  {
    if sched != [] {
      var s1 := Apply(s, sched[0]);
      ClosingStep(s, sched[0], t, g);
      CallersStay(s1, sched[1..]);
      if s1.callers[t].CloseHave? {
        CloseEnds(s1, sched[1..], t, g);
      } else {
        SilentAfterClose(s1, sched[1..], g);
      }
    }
  }

  lemma OpeningStep(s: State, a: Step, t: nat, g: nat)
    requires Enabled(s, a) && t < |s.callers| && s.callers[t].OpenHave? && Later(s.callers[t].seen, s.word)
    requires g < s.callers[t].seen.gen || s.callers[t].seen == Word(g, Disconnected)
    ensures
      var s' := Apply(s, a);
      && t < |s'.callers|
      && (if s'.callers[t].OpenHave?
          then Later(s'.callers[t].seen, s'.word)
               && (g < s'.callers[t].seen.gen || s'.callers[t].seen == Word(g, Disconnected))
          else g < s'.word.gen)
  {
    if a.Cas? && a.t == t {
      OpenCas(s, t, a.spurious, g);
    } else {
      WordMovesForward(s, a);
      OthersLeaveCall(s, a, t);
    }
  }

  lemma OpenCas(s: State, t: nat, spurious: bool, g: nat)
    requires t < |s.callers| && s.callers[t].OpenHave? && Later(s.callers[t].seen, s.word)
    requires g < s.callers[t].seen.gen || s.callers[t].seen == Word(g, Disconnected)
    ensures
      var s' := CasStep(s, t, spurious);
      if s'.callers[t].OpenHave?
      then Later(s'.callers[t].seen, s'.word)
           && (g < s'.callers[t].seen.gen || s'.callers[t].seen == Word(g, Disconnected))
      else g < s'.word.gen
  {
  }

  /** When an open() that found generation g over has done its work, a newer one has begun, its own or that of
      an open() that won. */
  lemma {:induction false} OpenStarts(s: State, sched: seq<Step>, t: nat, g: nat)
    requires Run(s, sched).Some? && t < |s.callers| && s.callers[t].OpenHave? && Later(s.callers[t].seen, s.word)
    requires g < s.callers[t].seen.gen || s.callers[t].seen == Word(g, Disconnected)
    ensures t < |Run(s, sched).value.callers|
    ensures Run(s, sched).value.callers[t].OpenHave? || g < Run(s, sched).value.word.gen
    decreases |sched|
  {
    if sched != [] {
      var s1 := Apply(s, sched[0]);
      OpeningStep(s, sched[0], t, g);
      CallersStay(s1, sched[1..]);
      if s1.callers[t].OpenHave? {
        OpenStarts(s1, sched[1..], t, g);
      } else {
        GenerationGrows(s1, sched[1..]);
      }
    }
  }

  lemma {:induction false} GenerationGrows(s: State, sched: seq<Step>)
    requires Run(s, sched).Some?
    ensures Run(s, sched).value.word.gen >= s.word.gen
    decreases |sched|
  {
    if sched != [] {
      WordMovesForward(s, sched[0]);
      GenerationGrows(Apply(s, sched[0]), sched[1..]);
    }
  }

  lemma StepKeepsCallers(s: State, a: Step)
    requires Enabled(s, a)
    ensures |Apply(s, a).callers| == |s.callers|
  {
    if !a.Co? {
      OtherFrame(s, a);
    } else if s.co.Session? {
      SessionFrame(s, a.yes, a.events);
    }
  }

  lemma {:induction false} CallersStay(s: State, sched: seq<Step>)
    requires Run(s, sched).Some?
    ensures |Run(s, sched).value.callers| == |s.callers|
    decreases |sched|
  {
    if sched != [] {
      StepKeepsCallers(s, sched[0]);
      CallersStay(Apply(s, sched[0]), sched[1..]);
    }
  }

  /** An open() that finds the stream DISCONNECTED has begun a newer generation by the time it returns, or somebody
      else has; whatever others do meanwhile. */
  lemma OpenWorks(s: State, sched: seq<Step>, t: nat)
    requires Enabled(s, CallOpen(t)) && s.word.status.Disconnected? && Run(Apply(s, CallOpen(t)), sched).Some?
    ensures t < |Run(Apply(s, CallOpen(t)), sched).value.callers|
    ensures
      var s' := Run(Apply(s, CallOpen(t)), sched).value;
      s'.callers[t].NoCall? ==> s.word.gen < s'.word.gen
  {
    OpenStarts(Apply(s, CallOpen(t)), sched, t, s.word.gen);
  }

  /** A close() has ended the generation it found by the time it returns, for good. */
  lemma CloseWorks(s: State, sched: seq<Step>, t: nat)
    requires Enabled(s, CallClose(t)) && s.word.gen > 0 && Run(Apply(s, CallClose(t)), sched).Some?
    ensures t < |Run(Apply(s, CallClose(t)), sched).value.callers|
    ensures
      var s' := Run(Apply(s, CallClose(t)), sched).value;
      s'.callers[t].NoCall? ==> Over(s'.word, s.word.gen)
  {
    CloseEnds(Apply(s, CallClose(t)), sched, t, s.word.gen);
  }

  /** open() and close() can be called by any thread at any time, and by a callback of the stream. */
  lemma CallsAreTaken(s: State, t: nat)
    requires t < |s.callers| && s.callers[t].NoCall? && (t == 0 ==> s.inCallback)
    ensures Enabled(s, CallOpen(t)) && Enabled(s, CallClose(t))
  {
  }

  /** The late end of an old session leaves the newer generation alone. */
  lemma OldSessionHarmless(s: State, yes: bool, events: nat)
    requires Reachable(s) && Enabled(s, Co(yes, events)) && s.co.Session? && s.word.gen != s.co.g
    ensures Apply(s, Co(yes, events)).word == s.word
  {
    ReachableInv(s);
    OlderLeavesWord(s, yes, events);
  }

  /** Each of its two compare-and-swaps expects its own generation. */
  lemma OlderLeavesWord(s: State, yes: bool, events: nat)
    requires Enabled(s, Co(yes, events)) && s.co.Session? && s.word.gen != s.co.g
    ensures Apply(s, Co(yes, events)).word == s.word
  {
  }

  // ---- the data of a piece ----

  /** How often generation g has been given data. */
  function Datas(trace: seq<Event>, g: nat): nat {
    if trace == [] then 0
    else Datas(trace[..|trace| - 1], g) + (if trace[|trace| - 1] == OnData(g) then 1 else 0)
  }

  /** The session of generation g is going through the events of a piece it has read. */
  predicate InPiece(co: Serving, g: nat) { co.Session? && co.g == g && (co.pc.Deliver? || co.pc.CallData?) }

  function Left(pc: SessionPc): nat
    requires pc.Deliver? || pc.CallData?
  {
    if pc.Deliver? then pc.events else pc.events + 1
  }

  ghost predicate Conserved(s: State, s': State, g: nat)
    requires InPiece(s.co, g)
  {
    if InPiece(s'.co, g)
    then Datas(s'.trace, g) + Left(s'.co.pc) == Datas(s.trace, g) + Left(s.co.pc) && s'.co.pc.err == s.co.pc.err
    else s'.co == Session(g, AfterRead(s.co.pc.err)) && Left(s.co.pc) == 0 && s'.trace == s.trace
  }

  lemma PieceSession(s: State, yes: bool, events: nat, g: nat)
    requires Enabled(s, Co(yes, events)) && InPiece(s.co, g) && Current(s.word, g)
    ensures Conserved(s, Apply(s, Co(yes, events)), g)
  {
    if s.co.pc.CallData? {
      assert (s.trace + [OnData(g)])[..|s.trace|] == s.trace;
    }
  }

  /** While its generation is open, a piece loses no event and gains none, whatever else happens. */
  lemma PieceConserved(s: State, a: Step, g: nat)
    requires Enabled(s, a) && InPiece(s.co, g) && Current(s.word, g)
    ensures Conserved(s, Apply(s, a), g)
  {
    if a.Co? {
      PieceSession(s, a.yes, a.events, g);
    }
  }

  /** The run goes no further than the end of the piece. */
  predicate WithinPiece(s: State, sched: seq<Step>, g: nat)
    requires Run(s, sched).Some?
    decreases |sched|
  {
    sched == [] || (InPiece(s.co, g) && WithinPiece(Apply(s, sched[0]), sched[1..], g))
  }

  lemma CurrentAllAlong(s: State, sched: seq<Step>, g: nat)
    requires Run(s, sched).Some? && 0 < g <= s.word.gen && Current(Run(s, sched).value.word, g)
    ensures Current(s.word, g)
  {
    if !Current(s.word, g) {
      SilentAfterClose(s, sched, g);
    }
  }

  /** A session whose generation is still open at the end of a piece has passed all its events to onData. */
  lemma {:induction false} PieceDelivered(s: State, sched: seq<Step>, g: nat)
    requires Run(s, sched).Some? && InPiece(s.co, g) && WithinPiece(s, sched, g) && 0 < g <= s.word.gen
    requires !InPiece(Run(s, sched).value.co, g) && Current(Run(s, sched).value.word, g)
    ensures Datas(Run(s, sched).value.trace, g) == Datas(s.trace, g) + Left(s.co.pc)
    ensures Run(s, sched).value.co == Session(g, AfterRead(s.co.pc.err))
    decreases |sched|
  {
    var s1, rest := Apply(s, sched[0]), sched[1..];
    PieceGoesOn(s, sched, g);
    if InPiece(s1.co, g) {
      PieceDelivered(s1, rest, g);
    }
  }

  lemma PieceGoesOn(s: State, sched: seq<Step>, g: nat)
    requires sched != [] && Run(s, sched).Some? && InPiece(s.co, g) && WithinPiece(s, sched, g) && 0 < g <= s.word.gen
    requires Current(Run(s, sched).value.word, g)
    ensures
      var s1, rest := Apply(s, sched[0]), sched[1..];
      && WithinPiece(s1, rest, g) && g <= s1.word.gen
      && if InPiece(s1.co, g)
         then Datas(s1.trace, g) + Left(s1.co.pc) == Datas(s.trace, g) + Left(s.co.pc) && s1.co.pc.err == s.co.pc.err
         else rest == [] && s1.co == Session(g, AfterRead(s.co.pc.err)) && Left(s.co.pc) == 0 && s1.trace == s.trace
  {
    CurrentAllAlong(s, sched, g);
    PieceConserved(s, sched[0], g);
    WordMovesForward(s, sched[0]);
  }

  // ---- cancellation ----

  predicate Waits(s: State) { AtAwait(s.co) }

  /** A session that still waits although its generation is over has a cancel queued, about to be posted, or
      already run; and one that has run has left only a DNS lookup, a connect with further addresses, or an await
      that was between two of its operations. */
  lemma CancellationComplete(s: State)
    requires Reachable(s) && Waits(s) && Outstanding(s.co.pc.io) && !Current(s.word, s.co.g)
    ensures s.co.pc.io.missed.NotAsked? ==>
              s.cancels > 0 || exists t :: 0 <= t < |s.callers| && s.callers[t].ClosePost?
    ensures s.co.pc.io.missed.LookupRuns? ==> AtLookup(s.co.pc)
    ensures s.co.pc.io.missed.NextAddress? ==> s.co.pc.Await? && s.co.pc.stage.Connect?
    ensures s.co.pc.io.missed.BetweenOps? ==> !AtLookup(s.co.pc)
  {
    ReachableInv(s);
    CountZero(s.callers, ClosePosting);
  }

  /** A cancel that runs while a session waits whose generation is over ends the wait if and only if an operation
      is pending that is no DNS lookup, and no connect that goes on with another address. */
  lemma CancelEndsWaitIff(s: State, more: bool)
    requires Reachable(s) && Enabled(s, RunCancel(more))
    requires Waits(s) && Outstanding(s.co.pc.io) && !Current(s.word, s.co.g)
    ensures
      var pc := Apply(s, RunCancel(more)).co.pc;
      pc.io.Cancelled? <==>
        s.co.pc.io.Pending? && !AtLookup(s.co.pc) && !(s.co.pc.Await? && s.co.pc.stage.Connect? && more)
  {
    ReachableInv(s);
  }

  /** A cancel never reaches a wait of a generation that is still open. */
  lemma CancellationPrecise(s: State)
    requires Reachable(s) && Waits(s) && Asked(s.co.pc.io)
    ensures !Current(s.word, s.co.g)
  {
    ReachableInv(s);
  }

  /** From an await to the end of a session whose generation is over: no further stage, no callback but the last. */
  predicate DeadEnd(pc: SessionPc) {
    || pc.Await? || pc.Check? || pc.Thrown? || pc.AwaitRead? || pc.ReadDone? || pc.Leave? || pc.AwaitShutdown?
    || pc.EndLoad? || pc.EndHave? || pc.CallDisconnected?
  }

  /** The session of generation g is in its dead end, or gone. */
  predicate Doomed(s: State, g: nat) {
    && Over(s.word, g) && g <= s.served
    && (s.co.Session? && s.co.g == g ==> DeadEnd(s.co.pc))
  }

  lemma DeadEndStep(s: State, yes: bool, events: nat)
    requires Enabled(s, Co(yes, events)) && s.co.Session? && DeadEnd(s.co.pc) && !Current(s.word, s.co.g)
    ensures
      var s' := Apply(s, Co(yes, events));
      s'.co.Session? ==> DeadEnd(s'.co.pc)
  {
  }

  /** The loop goes on to later generations. */
  lemma LoopServes(s: State, yes: bool, events: nat)
    requires Enabled(s, Co(yes, events)) && !s.co.Session?
    ensures
      var s' := Apply(s, Co(yes, events));
      s.served <= s'.served && (s'.co.Session? ==> s'.co.g == s'.served == s.served + 1)
  {
  }

  lemma DoomedStep(s: State, a: Step, g: nat)
    requires Doomed(s, g) && Enabled(s, a)
    ensures Doomed(Apply(s, a), g)
  {
    StepAfterClose(s, a, g);
    if a.Co? && s.co.Session? {
      SessionFrame(s, a.yes, a.events);
      if s.co.g == g { DeadEndStep(s, a.yes, a.events); }
    } else if a.Co? {
      LoopServes(s, a.yes, a.events);
    } else {
      OtherFrame(s, a);
    }
  }

  lemma {:induction false} DoomedRun(s: State, sched: seq<Step>, g: nat)
    requires Doomed(s, g) && Run(s, sched).Some?
    ensures Doomed(Run(s, sched).value, g)
    decreases |sched|
  {
    if sched != [] {
      DoomedStep(s, sched[0], g);
      DoomedRun(Apply(s, sched[0]), sched[1..], g);
    }
  }

  /** The result of an await that completes after its generation is over, one that a cancel has missed or I/O that
      was faster than its cancel, is thrown away: the session begins no further stage and reports
      nothing, however the run goes on. */
  lemma LateResultIsDropped(s: State, sched: seq<Step>, g: nat)
    requires Reachable(s) && Waits(s) && s.co.g == g && !Current(s.word, g)
    requires Run(s, sched).Some?
    ensures
      var s' := Run(s, sched).value;
      && (s'.co.Session? && s'.co.g == g ==> DeadEnd(s'.co.pc))
      && Reports(s'.trace, g) == Reports(s.trace, g)
  {
    ReachableInv(s);
    DoomedRun(s, sched, g);
    SilentAfterClose(s, sched, g);
    ReportsGrow(s, sched, g);
  }

  lemma StepReports(s: State, a: Step, g: nat)
    requires Enabled(s, a)
    ensures Reports(Apply(s, a).trace, g) >= Reports(s.trace, g)
  {
    if !(a.Co? && s.co.Session?) {
      OthersReportNothing(s, a, g);
    } else if IsCall(s.co.pc) {
      CallbackIsCommitted(s, a.yes, a.events, g);
      ReportsSnoc(s.trace, EventOf(s.co.pc, s.co.g), g);
    } else {
      QuietStep(s, a.yes, a.events);
    }
  }

  lemma {:induction false} ReportsGrow(s: State, sched: seq<Step>, g: nat)
    requires Run(s, sched).Some?
    ensures Reports(Run(s, sched).value.trace, g) >= Reports(s.trace, g)
    decreases |sched|
  {
    if sched != [] {
      StepReports(s, sched[0], g);
      ReportsGrow(Apply(s, sched[0]), sched[1..], g);
    }
  }
}
