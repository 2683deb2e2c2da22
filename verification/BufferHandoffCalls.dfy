/** What open(), close() and the destructor of the facade have achieved when they return. */
module BufferHandoffCalls {
  import opened Wrappers
  import opened BufferHandoff
  import opened BufferHandoffProofs

  // ---- an open that will not happen ----

  /** The impl has no session and will not get one: its open was called off before it looked. */
  predicate Withheld(m: Impl) {
    && m.session.NoSession? && !m.started && (m.cancelled || m.detached)
    && (m.open.NotOpened? || m.open.Entered? || m.open.Abort? || m.open.AbortRelease? || m.open.AbortContinue?
        || m.open.Returned?)
  }

  lemma OwnOpenWithheld(s: State, i: nat)
    requires Enabled(s, OpenNext(i)) && Withheld(s.impls[i])
    ensures i < |OpenSteps(s, i).impls| && Withheld(OpenSteps(s, i).impls[i])
  {
  }

  lemma OtherOpenWithheld(s: State, j: nat, i: nat)
    requires Enabled(s, OpenNext(j)) && i < |s.impls| && i != j && Withheld(s.impls[i])
    ensures i < |OpenSteps(s, j).impls| && Withheld(OpenSteps(s, j).impls[i])
  {
  }

  lemma FacadeWithheld(s: State, i: nat)
    requires Enabled(s, FacadeNext) && i < |s.impls| && Withheld(s.impls[i])
    ensures i < |FacadeSteps(s).impls| && Withheld(FacadeSteps(s).impls[i])
  {
  }

  lemma StepKeepsWithheld(s: State, a: Step, i: nat)
    requires Enabled(s, a) && i < |s.impls| && Withheld(s.impls[i])
    ensures i < |Apply(s, a).impls| && Withheld(Apply(s, a).impls[i])
  {
    if a.FacadeNext? { FacadeWithheld(s, i); }
    else if a.OpenNext? {
      if a.i == i { OwnOpenWithheld(s, i); } else { OtherOpenWithheld(s, a.i, i); }
    }
  }

  lemma {:induction false} WithheldForever(s: State, sched: seq<Step>, i: nat)
    requires i < |s.impls| && Withheld(s.impls[i]) && Run(s, sched).Some?
    ensures i < |Run(s, sched).value.impls| && Withheld(Run(s, sched).value.impls[i])
    decreases |sched|
  {
    if sched != [] {
      StepKeepsWithheld(s, sched[0], i);
      WithheldForever(Apply(s, sched[0]), sched[1..], i);
    }
  }

  // ---- a session that is closed ----

  predicate IsDown(v: Status) { v.Disconnecting? || v.Disconnected? }

  predicate IsClosed(m: Impl) { m.started && IsDown(m.status) }

  lemma OpenKeepsClosed(s: State, j: nat, i: nat)
    requires Inv(s) && Enabled(s, OpenNext(j)) && i < |s.impls| && IsClosed(s.impls[i])
    ensures i < |OpenSteps(s, j).impls| && IsClosed(OpenSteps(s, j).impls[i])
  {
    LinkAt(s, i);
    LinkAt(s, j);
  }

  lemma FacadeKeepsClosed(s: State, i: nat)
    requires Enabled(s, FacadeNext) && i < |s.impls| && IsClosed(s.impls[i])
    ensures i < |FacadeSteps(s).impls| && IsClosed(FacadeSteps(s).impls[i])
  {
  }

  lemma StepKeepsClosed(s: State, a: Step, i: nat)
    requires Inv(s) && Enabled(s, a) && i < |s.impls| && IsClosed(s.impls[i])
    ensures i < |Apply(s, a).impls| && IsClosed(Apply(s, a).impls[i])
  {
    if a.FacadeNext? { FacadeKeepsClosed(s, i); } else if a.OpenNext? { OpenKeepsClosed(s, a.i, i); }
  }

  lemma {:induction false} ClosedForever(s: State, sched: seq<Step>, i: nat)
    requires Inv(s) && i < |s.impls| && IsClosed(s.impls[i]) && Run(s, sched).Some?
    ensures i < |Run(s, sched).value.impls| && IsClosed(Run(s, sched).value.impls[i])
    decreases |sched|
  {
    if sched != [] {
      StepKeepsClosed(s, sched[0], i);
      StepKeepsInv(s, sched[0]);
      ClosedForever(Apply(s, sched[0]), sched[1..], i);
    }
  }

  // ---- on the way ----

  /** Nothing that has happened to an impl is undone. */
  predicate Kept(m: Impl, m': Impl) {
    (m.cancelled ==> m'.cancelled) && (m.detached ==> m'.detached) && (m.started ==> m'.started)
  }

  lemma StepKeeps(s: State, a: Step, i: nat)
    requires Enabled(s, a) && i < |s.impls|
    ensures i < |Apply(s, a).impls| && Kept(s.impls[i], Apply(s, a).impls[i])
  {
    if a.OpenNext? { OpenKeeps(s, a.i, i); } else if a.FacadeNext? { FacadeKeeps(s, i); }
  }

  lemma OpenKeeps(s: State, j: nat, i: nat)
    requires Enabled(s, OpenNext(j)) && i < |s.impls|
    ensures i < |OpenSteps(s, j).impls| && Kept(s.impls[i], OpenSteps(s, j).impls[i])
  {
  }

  lemma FacadeKeeps(s: State, i: nat)
    requires Enabled(s, FacadeNext) && i < |s.impls|
    ensures i < |FacadeSteps(s).impls| && Kept(s.impls[i], FacadeSteps(s).impls[i])
  {
  }

  /** No other step moves a call of the facade. */
  lemma OthersKeepFacade(s: State, a: Step)
    requires Enabled(s, a) && !s.facade.Free? && !a.FacadeNext?
    ensures Apply(s, a).facade == s.facade && |Apply(s, a).impls| == |s.impls|
  {
    if a.OpenNext? { OpenKeepsFacade(s, a.i); }
  }

  lemma OpenKeepsFacade(s: State, i: nat)
    requires Enabled(s, OpenNext(i))
    ensures OpenSteps(s, i).facade == s.facade && |OpenSteps(s, i).impls| == |s.impls|
  {
  }

  // ---- close() ----

  /** Once close() of a pending open has stored its cancellation. */
  lemma {:induction false} CancelIsStored(s: State, close: seq<Step>, i: nat)
    requires i < |s.impls| && Run(s, close).Some? && (s.facade == Cancel(i) || s.impls[i].cancelled)
    requires Run(s, close).value.facade.Free?
    ensures i < |Run(s, close).value.impls| && Run(s, close).value.impls[i].cancelled
    decreases |close|
  {
    if close != [] {
      var a := close[0];
      StepKeeps(s, a, i);
      if s.facade == Cancel(i) && !a.FacadeNext? {
        OthersKeepFacade(s, a);
      }
      CancelIsStored(Apply(s, a), close[1..], i);
    }
  }

  /** A close() that returns before the deferred open runs has called it off: in no run does the impl get a session,
      and when nothing is left to do and it has been opened, it has handed the buffer on. */
  lemma PendingCloseIsFinal(s: State, close: seq<Step>, rest: seq<Step>)
    requires Reachable(s) && Enabled(s, FacadeClose) && s.impls[Last(s)].opens == 0
    requires Run(Apply(s, FacadeClose), close).Some? && Run(Apply(s, FacadeClose), close).value.facade.Free?
    requires
      var s1 := Run(Apply(s, FacadeClose), close).value;
      Last(s) < |s1.impls| && s1.impls[Last(s)].opens == 0 && Run(s1, rest).Some?
    ensures
      var s' := Run(Run(Apply(s, FacadeClose), close).value, rest).value;
      && Last(s) < |s'.impls| && s'.impls[Last(s)].session.NoSession?
      && (AtRest(s') && s'.impls[Last(s)].opens > 0 ==> s'.impls[Last(s)].release.Released?)
  {
    var i, s0 := Last(s), Apply(s, FacadeClose);
    ReachableInv(s);
    LinkAt(s, i);
    StepKeepsInv(s, FacadeClose);
    CancelIsStored(s0, close, i);
    RunKeepsInv(s0, close);
    var s1 := Run(s0, close).value;
    LinkAt(s1, i);
    WithheldForever(s1, rest, i);
    RunKeepsInv(s1, rest);
    LinkAt(Run(s1, rest).value, i);
  }

  /** A close() of a started session ends it for good: it is neither CONNECTING nor CONNECTED in any later state. */
  lemma CloseIsFinal(s: State, rest: seq<Step>)
    requires Reachable(s) && Enabled(s, FacadeClose) && s.impls[Last(s)].started
    requires Run(Apply(s, FacadeClose), rest).Some?
    ensures
      var s' := Run(Apply(s, FacadeClose), rest).value;
      Last(s) < |s'.impls| && IsDown(s'.impls[Last(s)].status)
  {
    ReachableInv(s);
    StepKeepsInv(s, FacadeClose);
    ClosedForever(Apply(s, FacadeClose), rest, Last(s));
  }

  // ---- the destructor ----

  /** What the destructor leaves of the last impl, on its way. */
  predicate Dropping(s: State, i: nat, started: bool) {
    && i < |s.impls| && s.impls[i].detached && (started ==> s.impls[i].started)
    && (s.facade == DropCancel(i) || s.facade == DropClose(i)
        || (s.facade.Gone? && s.impls[i].cancelled && (started ==> IsClosed(s.impls[i]))))
    && (s.facade == DropClose(i) ==> s.impls[i].cancelled)
  }

  lemma DropStep(s: State, a: Step, i: nat, started: bool)
    requires Inv(s) && Enabled(s, a) && Dropping(s, i, started)
    ensures Dropping(Apply(s, a), i, started)
  {
    StepKeeps(s, a, i);
    if a.FacadeNext? {
      DropFacade(s, i, started);
    } else {
      OthersKeepFacade(s, a);
      if s.facade.Gone? && started {
        StepKeepsClosed(s, a, i);
      }
    }
  }

  lemma DropFacade(s: State, i: nat, started: bool)
    requires Enabled(s, FacadeNext) && Dropping(s, i, started)
    ensures Dropping(FacadeSteps(s), i, started)
  {
  }

  lemma {:induction false} DropRun(s: State, sched: seq<Step>, i: nat, started: bool)
    requires Inv(s) && Run(s, sched).Some? && Dropping(s, i, started)
    ensures Dropping(Run(s, sched).value, i, started)
    decreases |sched|
  {
    if sched != [] {
      DropStep(s, sched[0], i, started);
      StepKeepsInv(s, sched[0]);
      DropRun(Apply(s, sched[0]), sched[1..], i, started);
    }
  }

  /** The destructor detaches the last impl and calls its open off; a session that had started is closed when it is
      through, and one that has not been opened by then never will have one. */
  lemma DestroyIsFinal(s: State, sched: seq<Step>)
    requires Reachable(s) && Enabled(s, FacadeDestroy) && s.impls != []
    requires Run(Apply(s, FacadeDestroy), sched).Some?
    ensures
      var s', i := Run(Apply(s, FacadeDestroy), sched).value, Last(s);
      && i < |s'.impls| && s'.impls[i].detached
      && (s'.facade.Gone? ==> s'.impls[i].cancelled)
      && (s'.facade.Gone? && s.impls[i].started ==> IsDown(s'.impls[i].status))
      && (s.impls[i].opens == 0 ==> s'.impls[i].session.NoSession?)
  {
    var i, s0 := Last(s), Apply(s, FacadeDestroy);
    ReachableInv(s);
    LinkAt(s, i);
    StepKeepsInv(s, FacadeDestroy);
    DropRun(s0, sched, i, s.impls[i].started);
    if s.impls[i].opens == 0 {
      LinkAt(s0, i);
      WithheldForever(s0, sched, i);
    }
  }

  /** A facade that was never opened has nothing to drop. */
  lemma DestroyUnused(s: State)
    requires Enabled(s, FacadeDestroy) && s.impls == []
    ensures Apply(s, FacadeDestroy) == State([], Gone)
  {
  }

  /** detach() is for good too: the impl stays detached, and if it has not been opened it never has a session. */
  lemma {:induction false} DetachIsFinal(s: State, sched: seq<Step>)
    requires Reachable(s) && Enabled(s, FacadeDetach) && Run(Apply(s, FacadeDetach), sched).Some?
    ensures
      var s', i := Run(Apply(s, FacadeDetach), sched).value, Last(s);
      i < |s'.impls| && s'.impls[i].detached && (s.impls[i].opens == 0 ==> s'.impls[i].session.NoSession?)
  {
    var i, s0 := Last(s), Apply(s, FacadeDetach);
    ReachableInv(s);
    LinkAt(s, i);
    DetachedForever(s0, sched, i);
    if s.impls[i].opens == 0 {
      WithheldForever(s0, sched, i);
    }
  }

  lemma {:induction false} DetachedForever(s: State, sched: seq<Step>, i: nat)
    requires i < |s.impls| && s.impls[i].detached && Run(s, sched).Some?
    ensures i < |Run(s, sched).value.impls| && Run(s, sched).value.impls[i].detached
    decreases |sched|
  {
    if sched != [] {
      StepKeeps(s, sched[0], i);
      DetachedForever(Apply(s, sched[0]), sched[1..], i);
    }
  }

  // ---- open() ----

  /** The impl is no longer of use: its session is over or ending, or its open has been called off. */
  predicate Spent(m: Impl) { if m.started then IsDown(m.status) else m.cancelled }

  /** Where an open() that replaces impl i is. */
  predicate Replacing(s: State, i: nat) {
    && i < |s.impls|
    && ((s.facade == Detach(i) && |s.impls| == i + 1)
        || ((s.facade == CloseOld(i) || s.facade == Create(i)) && |s.impls| == i + 1 && s.impls[i].detached)
        || (|s.impls| > i + 1 && s.impls[i].detached))
  }

  lemma ReplaceStep(s: State, a: Step, i: nat)
    requires Enabled(s, a) && Replacing(s, i)
    ensures Replacing(Apply(s, a), i)
  {
    StepKeeps(s, a, i);
    if a.FacadeNext? {
      ReplaceFacade(s, i);
    } else if a.OpenNext? {
      OpenKeepsFacade(s, a.i);
    }
  }

  lemma ReplaceFacade(s: State, i: nat)
    requires Enabled(s, FacadeNext) && Replacing(s, i)
    ensures Replacing(FacadeSteps(s), i)
  {
  }

  lemma {:induction false} ReplaceRun(s: State, sched: seq<Step>, i: nat)
    requires Run(s, sched).Some? && Replacing(s, i)
    ensures Replacing(Run(s, sched).value, i)
    decreases |sched|
  {
    if sched != [] {
      ReplaceStep(s, sched[0], i);
      ReplaceRun(Apply(s, sched[0]), sched[1..], i);
    }
  }

  /** An open() that finds the last impl spent has detached it and made a new one by the time it returns; one that
      finds an open pending, or a session that is up, leaves everything as it is. */
  lemma OpenReplacesSpent(s: State, sched: seq<Step>)
    requires Enabled(s, FacadeOpen) && s.impls != [] && Run(Apply(s, FacadeOpen), sched).Some?
    ensures !Spent(s.impls[Last(s)]) ==> Apply(s, FacadeOpen) == s
    ensures
      var s' := Run(Apply(s, FacadeOpen), sched).value;
      Spent(s.impls[Last(s)]) && s'.facade.Free? ==> |s'.impls| > |s.impls| && s'.impls[Last(s)].detached
  {
    if Spent(s.impls[Last(s)]) {
      ReplaceRun(Apply(s, FacadeOpen), sched, Last(s));
    }
  }

  /** The first open() makes the first impl, opens it, and returns when that is done. */
  lemma FirstOpenOpens(s: State, sched: seq<Step>)
    requires Reachable(s) && Enabled(s, FacadeOpen) && s.impls == []
    requires Run(Apply(s, FacadeOpen), sched).Some?
    ensures
      var s' := Run(Apply(s, FacadeOpen), sched).value;
      && s'.impls != [] && s'.impls[0].opens == 1
      && (s'.facade.Free? ==> s'.impls[0].open.Returned?)
  {
    ReachableInv(s);
    StepKeepsInv(s, FacadeOpen);
    RunKeepsInv(Apply(s, FacadeOpen), sched);
    InsideRun(Apply(s, FacadeOpen), sched);
  }

  /** A call that runs impl_->open() itself returns behind it. */
  lemma {:induction false} InsideRun(s: State, sched: seq<Step>)
    requires Inv(s) && Run(s, sched).Some? && s.impls != [] && (s.facade == Inside(0) || s.impls[0].open.Returned?)
    ensures
      var s' := Run(s, sched).value;
      s'.impls != [] && (s'.facade == Inside(0) || s'.impls[0].open.Returned?)
    decreases |sched|
  {
    if sched != [] {
      InsideStep(s, sched[0]);
      StepKeepsInv(s, sched[0]);
      InsideRun(Apply(s, sched[0]), sched[1..]);
    }
  }

  lemma InsideStep(s: State, a: Step)
    requires Inv(s) && Enabled(s, a) && s.impls != [] && (s.facade == Inside(0) || s.impls[0].open.Returned?)
    ensures
      var s' := Apply(s, a);
      s'.impls != [] && (s'.facade == Inside(0) || s'.impls[0].open.Returned?)
  {
    LinkAt(s, 0);
    if a.OpenNext? { OpenKeepsReturned(s, a.i); } else if a.FacadeNext? { FacadeKeepsReturned(s); }
  }

  lemma OpenKeepsReturned(s: State, i: nat)
    requires Inv(s) && Enabled(s, OpenNext(i))
    ensures
      var s' := OpenSteps(s, i);
      s'.facade == s.facade && s'.impls != [] && (s.impls[0].open.Returned? ==> s'.impls[0].open.Returned?)
  {
  }

  lemma FacadeKeepsReturned(s: State)
    requires Inv(s) && Enabled(s, FacadeNext)
    ensures
      var s' := FacadeSteps(s);
      s'.impls != [] && (s.impls[0].open.Returned? ==> s'.impls[0].open.Returned?)
  {
  }

  /** A session that had started by the time it is replaced is closed for good. */
  lemma ReplacedIsClosed(s: State, rest: seq<Step>, i: nat)
    requires Reachable(s) && s.facade == CloseOld(i) && i < |s.impls| && s.impls[i].started
    requires Run(Apply(s, FacadeNext), rest).Some?
    ensures i < |Run(Apply(s, FacadeNext), rest).value.impls|
    ensures IsDown(Run(Apply(s, FacadeNext), rest).value.impls[i].status)
  {
    ReachableInv(s);
    StepKeepsInv(s, FacadeNext);
    ClosedForever(Apply(s, FacadeNext), rest, i);
  }

  // ---- what the status says ----

  function StatusRank(v: Status): nat {
    match v
    case Connecting => 0
    case Connected => 1
    case Disconnecting => 2
    case Disconnected => 3
  }

  /** No call of the facade takes a status back: a close() of a session that is DISCONNECTED leaves it so. */
  lemma FacadeKeepsStatus(s: State, a: Step, i: nat)
    requires Inv(s) && Enabled(s, a) && i < |s.impls|
    requires a.FacadeOpen? || a.FacadeClose? || a.FacadeDetach? || a.FacadeDestroy? || a.FacadeNext?
    ensures i < |Apply(s, a).impls| && StatusRank(Apply(s, a).impls[i].status) >= StatusRank(s.impls[i].status)
  {
    if a.FacadeNext? { FacadeNextKeepsStatus(s, i); }
  }

  lemma FacadeNextKeepsStatus(s: State, i: nat)
    requires Enabled(s, FacadeNext) && i < |s.impls|
    ensures i < |FacadeSteps(s).impls|
    ensures StatusRank(FacadeSteps(s).impls[i].status) >= StatusRank(s.impls[i].status)
  {
  }

  /** An open that is past its checks is CONNECTING; one that was called off is not. */
  predicate StatusFits(m: Impl) {
    && (m.open.StartedStore? || m.open.StartedExchange? ==> m.status.Connecting?)
    && (m.open.Abort? ==> m.status.Connecting? || m.status.Disconnected?)
    && (m.open.Spawn? ==> m.status.Connecting? || IsDown(m.status))
    && ((m.open.AbortRelease? || m.open.AbortContinue? || m.open.Returned?) && !m.started ==> m.status.Disconnected?)
  }

  ghost predicate StatusesFit(s: State) { forall i :: 0 <= i < |s.impls| ==> StatusFits(s.impls[i]) }

  lemma OpenFits(s: State, j: nat, i: nat)
    requires Inv(s) && StatusesFit(s) && Enabled(s, OpenNext(j)) && i < |s.impls|
    ensures i < |OpenSteps(s, j).impls| && StatusFits(OpenSteps(s, j).impls[i])
  {
    LinkAt(s, j);
    LinkAt(s, i);
    assert StatusFits(s.impls[j]) && StatusFits(s.impls[i]);
    if s.impls[j].open.AbortContinue? {
      LinkAt(s, j + 1);
    }
  }

  /** What a step of the facade may do to an impl. */
  predicate Touched(m: Impl, m': Impl) {
    && m'.started == m.started && m'.session == m.session
    && (m'.open == m.open || (m.open.NotOpened? && m'.open.Entered?))
    && (m'.status == m.status || (m.started && IsDown(m'.status)))
  }

  lemma NewCallTouches(s: State, a: Step, i: nat)
    requires Enabled(s, a) && i < |s.impls|
    requires a.FacadeOpen? || a.FacadeClose? || a.FacadeDetach? || a.FacadeDestroy?
    ensures |Apply(s, a).impls| == |s.impls| && Touched(s.impls[i], Apply(s, a).impls[i])
  {
  }

  lemma FacadeTouches(s: State, i: nat)
    requires Enabled(s, FacadeNext) && i < |s.impls|
    requires s.facade.RunInline? && s.facade.i + 1 < |s.impls| ==> s.impls[s.facade.i + 1].open.NotOpened?
    ensures i < |FacadeSteps(s).impls| && Touched(s.impls[i], FacadeSteps(s).impls[i])
  {
  }

  lemma FacadeMakes(s: State, i: nat)
    requires Enabled(s, FacadeNext) && |s.impls| <= i < |FacadeSteps(s).impls|
    ensures FacadeSteps(s).impls[i] == PENDING
  {
  }

  lemma FacadeFits(s: State, a: Step, i: nat)
    requires Inv(s) && StatusesFit(s) && Enabled(s, a) && i < |Apply(s, a).impls|
    requires a.FacadeOpen? || a.FacadeClose? || a.FacadeDetach? || a.FacadeDestroy? || a.FacadeNext?
    ensures StatusFits(Apply(s, a).impls[i])
  {
    if a.FacadeNext? {
      if s.facade.RunInline? {
        LinkAt(s, s.facade.i);
        LinkAt(s, s.facade.i + 1);
      }
      if i < |s.impls| { FacadeTouches(s, i); } else { FacadeMakes(s, i); }
    } else if i < |s.impls| {
      NewCallTouches(s, a, i);
    }
    if i < |s.impls| {
      assert StatusFits(s.impls[i]) && ImplOk(s.impls[i]);
    }
  }

  lemma SessionFits(s: State, a: Step, i: nat)
    requires Inv(s) && StatusesFit(s) && Enabled(s, a) && i < |Apply(s, a).impls|
    requires a.SessionConnects? || a.SessionReads? || a.SessionEnds? || a.SessionNext? || a.StatusDown?
    ensures StatusFits(Apply(s, a).impls[i])
  {
    assert i < |s.impls| ==> StatusFits(s.impls[i]) && ImplOk(s.impls[i]);
    LinkAt(s, a.i);
  }

  lemma StepFits(s: State, a: Step)
    requires Inv(s) && StatusesFit(s) && Enabled(s, a)
    ensures StatusesFit(Apply(s, a))
  {
    forall i | 0 <= i < |Apply(s, a).impls| ensures StatusFits(Apply(s, a).impls[i]) {
      if a.OpenNext? {
        OpenKeepsFacade(s, a.i);
        OpenFits(s, a.i, i);
      } else if a.SessionConnects? || a.SessionReads? || a.SessionEnds? || a.SessionNext? || a.StatusDown? {
        SessionFits(s, a, i);
      } else {
        FacadeFits(s, a, i);
      }
    }
  }

  lemma {:induction false} RunFits(s: State, sched: seq<Step>)
    requires Inv(s) && StatusesFit(s) && Run(s, sched).Some?
    ensures StatusesFit(Run(s, sched).value)
    decreases |sched|
  {
    if sched != [] {
      StepFits(s, sched[0]);
      StepKeepsInv(s, sched[0]);
      RunFits(Apply(s, sched[0]), sched[1..]);
    }
  }

  /** A session begins CONNECTING, or closed in between; an open that was called off leaves DISCONNECTED behind. */
  lemma StatusTellsOpen(s: State, i: nat)
    requires Reachable(s) && i < |s.impls|
    ensures s.impls[i].open.StartedStore? ==> s.impls[i].status.Connecting?
    ensures s.impls[i].open.Spawn? ==> s.impls[i].status.Connecting? || IsDown(s.impls[i].status)
    ensures s.impls[i].open.Returned? && s.impls[i].session.NoSession? ==> s.impls[i].status.Disconnected?
  {
    var s0: State, sched: seq<Step> :| Init(s0) && Run(s0, sched) == Some(s);
    RunFits(s0, sched);
    ReachableInv(s);
    LinkAt(s, i);
    assert StatusFits(s.impls[i]);
  }
}
