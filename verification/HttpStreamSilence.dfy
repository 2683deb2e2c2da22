/**
 What may still be heard of a generation after close().

 A callback runs behind a check of the generation, but not in one step with it. A close() from another thread can
 fall, and return, in between; the callback then begins although the close() is over. A close() from a callback
 cannot.
 */
module HttpStreamSilence {
  import opened Wrappers
  import opened HttpStream
  import opened HttpStreamProofs
  import opened HttpStreamTheorems

  // ---- every report was let through by a check that saw its generation open ----

  lemma RunOne(s: State, a: Step)
    ensures Run(s, [a]) == if Enabled(s, a) then Some(Apply(s, a)) else None
  {
    assert [a][1..] == [] && [a][0] == a;
  }

  /** The run up to its last step, and that step. */
  lemma RunSnoc(s: State, sched: seq<Step>)
    requires sched != [] && Run(s, sched).Some?
    ensures
      var n := |sched| - 1;
      && Run(s, sched[..n]).Some? && Enabled(Run(s, sched[..n]).value, sched[n])
      && Run(s, sched).value == Apply(Run(s, sched[..n]).value, sched[n])
  {
    var n := |sched| - 1;
    RunPrefix(s, sched, n);
    assert sched[n..] == [sched[n]];
    RunOne(Run(s, sched[..n]).value, sched[n]);
  }

  lemma {:induction false} RunPrefix(s: State, sched: seq<Step>, n: nat)
    requires Run(s, sched).Some? && n <= |sched|
    ensures Run(s, sched[..n]).Some? && Run(Run(s, sched[..n]).value, sched[n..]) == Run(s, sched)
    decreases |sched|
  {
    if n > 0 {
      RunPrefix(Apply(s, sched[0]), sched[1..], n - 1);
      assert sched[..n][0] == sched[0] && sched[..n][1..] == sched[1..][..n - 1];
      assert sched[1..][n - 1..] == sched[n..];
    } else {
      assert sched[0..] == sched;
    }
  }

  /** Only a step of the session that finds the generation open lets a callback of it through. */
  lemma CommitStep(s: State, a: Step, g: nat)
    requires Enabled(s, a) && Committed(s.co, g) == 0 && Committed(Apply(s, a).co, g) == 1
    ensures a.Co? && Current(s.word, g)
  {
    if !(a.Co? && s.co.Session?) {
      OthersReportNothing(s, a, g);
    } else if IsCall(s.co.pc) {
      CallbackIsCommitted(s, a.yes, a.events, g);
    } else if !Current(s.word, g) {
      SessionCommitsNothing(s, a.yes, a.events, g);
    }
  }

  /** After n steps of the run the session is let through for one more callback of generation g. */
  ghost predicate CommittedAt(s: State, sched: seq<Step>, n: nat, g: nat) {
    n <= |sched| && Run(s, sched[..n]).Some? && Committed(Run(s, sched[..n]).value.co, g) == 1
  }

  lemma {:induction false} CommitFound(s: State, sched: seq<Step>, n: nat, g: nat) returns (k: nat)
    requires Run(s, sched).Some? && Committed(s.co, g) == 0 && CommittedAt(s, sched, n, g)
    ensures k < n && sched[k].Co?
    ensures Run(s, sched[..k]).Some? && Current(Run(s, sched[..k]).value.word, g)
    ensures forall j :: k < j <= n ==> CommittedAt(s, sched, j, g)
    decreases n
  {
    LastStep(s, sched, n);
    if CommittedAt(s, sched, n - 1, g) {
      k := CommitFound(s, sched, n - 1, g);
    } else {
      k := n - 1;
      CommitStep(Run(s, sched[..k]).value, sched[k], g);
    }
  }

  lemma LastStep(s: State, sched: seq<Step>, n: nat)
    requires Run(s, sched).Some? && n <= |sched|
    ensures Run(s, sched[..n]).Some?
    ensures n == 0 ==> Run(s, sched[..n]).value == s
    ensures
      n > 0 ==>
        && Run(s, sched[..n - 1]).Some? && Enabled(Run(s, sched[..n - 1]).value, sched[n - 1])
        && Run(s, sched[..n]).value == Apply(Run(s, sched[..n - 1]).value, sched[n - 1])
  {
    RunPrefix(s, sched, n);
    if n > 0 {
      RunSnoc(s, sched[..n]);
      assert sched[..n][..n - 1] == sched[..n - 1];
    }
  }

  lemma ReportingStep(s: State, a: Step, g: nat)
    requires Enabled(s, a) && Reports(Apply(s, a).trace, g) > Reports(s.trace, g)
    ensures Committed(s.co, g) == 1
  {
    if !(a.Co? && s.co.Session?) {
      OthersReportNothing(s, a, g);
    } else if IsCall(s.co.pc) {
      CallbackIsCommitted(s, a.yes, a.events, g);
      ReportsSnoc(s.trace, EventOf(s.co.pc, s.co.g), g);
    } else {
      QuietStep(s, a.yes, a.events);
    }
  }

  /** Behind every onConnected, onData and onError of every run there is an earlier step of the session that found
      the generation open, and from there to the callback the session is only on its way to that one call. */
  lemma ReportWasSeenOpen(s: State, sched: seq<Step>, a: Step, g: nat) returns (k: nat)
    requires Init(s) && Run(s, sched).Some? && Enabled(Run(s, sched).value, a)
    requires Reports(Apply(Run(s, sched).value, a).trace, g) > Reports(Run(s, sched).value.trace, g)
    ensures k < |sched| && sched[k].Co?
    ensures Run(s, sched[..k]).Some? && Current(Run(s, sched[..k]).value.word, g)
    ensures forall j :: k < j <= |sched| ==> CommittedAt(s, sched, j, g)
  {
    ReportingStep(Run(s, sched).value, a, g);
    assert sched[..|sched|] == sched;
    k := CommitFound(s, sched, |sched|, g);
  }

  // ---- exactly when a closed generation is heard of again ----

  /** Where the coroutine is while a callback runs. */
  predicate AfterCallback(co: Serving) {
    || co.LoopHead? || co.Skip?
    || (co.Session? && (co.pc.Leave? || co.pc.LoopTest? || co.pc.Deliver? || co.pc.EndLoad?))
  }

  predicate CallbackOk(s: State) { s.inCallback ==> AfterCallback(s.co) }

  lemma SessionCallbackOk(s: State, yes: bool, events: nat)
    requires Enabled(s, Co(yes, events)) && s.co.Session?
    ensures CallbackOk(Apply(s, Co(yes, events)))
  {
  }

  lemma CallbackOkStep(s: State, a: Step)
    requires CallbackOk(s) && Enabled(s, a)
    ensures CallbackOk(Apply(s, a))
  {
    if a.Co? && s.co.Session? {
      SessionCallbackOk(s, a.yes, a.events);
    }
  }

  lemma {:induction false} CallbackOkRun(s: State, sched: seq<Step>)
    requires CallbackOk(s) && Run(s, sched).Some?
    ensures CallbackOk(Run(s, sched).value)
    decreases |sched|
  {
    if sched != [] {
      CallbackOkStep(s, sched[0]);
      CallbackOkRun(Apply(s, sched[0]), sched[1..]);
    }
  }

  lemma ReachableCallbackOk(s: State)
    requires Reachable(s)
    ensures CallbackOk(s)
  {
    var s0: State, sched: seq<Step> :| Init(s0) && Run(s0, sched) == Some(s);
    CallbackOkRun(s0, sched);
  }

  /** The schedule that makes the call the session has been let through for. */
  function Speak(s: State): seq<Step> {
    if s.co.Session? && s.co.pc.Header? then [Co(false, 0), Co(false, 0)] else [Co(false, 0)]
  }

  lemma CallReports(s: State, g: nat)
    requires Enabled(s, Co(false, 0)) && Committed(s.co, g) == 1 && IsCall(s.co.pc)
    ensures Reports(Apply(s, Co(false, 0)).trace, g) == Reports(s.trace, g) + 1
  {
    CallbackAppends(s, false, 0);
    ReportsSnoc(s.trace, EventOf(s.co.pc, g), g);
  }

  lemma HeaderFails(s: State)
    requires Enabled(s, Co(false, 0)) && s.co.Session? && s.co.pc.Header?
    ensures Apply(s, Co(false, 0)) == At(s, s.co.g, CallHttpError)
  {
  }

  lemma SpeakReports(s: State, g: nat)
    requires Reachable(s) && Committed(s.co, g) == 1
    ensures Run(s, Speak(s)).Some? && Reports(Run(s, Speak(s)).value.trace, g) == Reports(s.trace, g) + 1
  {
    ReachableCallbackOk(s);
    var sched := Speak(s);
    if s.co.pc.Header? {
      HeaderFails(s);
      CallReports(At(s, g, CallHttpError), g);
      assert sched[1..] == [Co(false, 0)] && [Co(false, 0)][1..] == [];
    } else {
      CallReports(s, g);
      assert sched[1..] == [];
    }
  }

  /** A generation that is over is heard of again, by onConnected, onData or onError, in some run if and only if
      its session has already been let through for one of them. */
  lemma HeardAgainIffCommitted(s: State, g: nat)
    requires Reachable(s) && Over(s.word, g)
    ensures
      (exists sched: seq<Step> :: Run(s, sched).Some? && Reports(Run(s, sched).value.trace, g) > Reports(s.trace, g))
      <==> Committed(s.co, g) == 1
  {
    if Committed(s.co, g) == 1 {
      SpeakReports(s, g);
    } else {
      forall sched: seq<Step> | Run(s, sched).Some?
        ensures Reports(Run(s, sched).value.trace, g) <= Reports(s.trace, g)
      {
        SilentAfterClose(s, sched, g);
      }
    }
  }

  // ---- close() from a callback ----

  /** While a callback runs nothing is reported. */
  lemma {:induction false} CallbackHolds(s: State, sched: seq<Step>)
    requires s.inCallback && Run(s, sched).Some? && CallbackReturns !in sched
    ensures Run(s, sched).value.inCallback && Run(s, sched).value.trace == s.trace
    decreases |sched|
  {
    if sched != [] {
      assert sched[0] != CallbackReturns;
      CallbackHolds(Apply(s, sched[0]), sched[1..]);
    }
  }

  /** A close() from a callback of the stream is silent at once: from its call on, whatever else happens while it
      looks and swaps, the generation it finds is never heard of again but by its onDisconnected. */
  lemma CloseInCallbackSilences(s: State, closing: seq<Step>, rest: seq<Step>)
    requires Reachable(s) && Enabled(s, CallClose(0)) && s.word.gen > 0
    requires CallbackReturns !in closing && Run(s, [CallClose(0)] + closing).Some?
    requires var callers := Run(s, [CallClose(0)] + closing).value.callers; callers != [] && !callers[0].CloseHave?
    requires Run(s, [CallClose(0)] + closing + rest).Some?
    ensures
      var s' := Run(s, [CallClose(0)] + closing + rest).value;
      Reports(s'.trace, s.word.gen) == Reports(s.trace, s.word.gen) && Over(s'.word, s.word.gen)
  {
    var g, calls := s.word.gen, [CallClose(0)] + closing;
    assert calls[1..] == closing;
    var s1 := Apply(s, CallClose(0));
    CallbackHolds(s1, closing);
    CloseEnds(s1, closing, 0, g);
    RunPrefix(s, calls + rest, |calls|);
    assert (calls + rest)[..|calls|] == calls && (calls + rest)[|calls|..] == rest;
    var s2 := Run(s, calls).value;
    ReachableCallbackOk(s);
    CallbackOkRun(s, calls);
    SilentAfterClose(s2, rest, g);
    ReportsGrow(s2, rest, g);
  }
}
