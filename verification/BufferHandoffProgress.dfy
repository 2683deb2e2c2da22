/** A handoff never goes on for ever: every run takes a bounded number of steps for each call of the facade. */
module BufferHandoffProgress {
  import opened Wrappers
  import opened BufferHandoff
  import opened BufferHandoffProofs

  function OpenRank(pc: OpenPc): nat {
    match pc
    case NotOpened => 8
    case Entered => 6
    case Abort => 5
    case AbortRelease => 4
    case AbortContinue => 3
    case StatusCas => 5
    case StartedStore => 4
    case StartedExchange => 4
    case Spawn => 3
    case Returned => 0
  }

  function SessionRank(pc: SessionPc): nat {
    match pc
    case NoSession => 5
    case Handshaking => 4
    case Reading => 3
    case Ending => 2
    case Continuing => 1
    case Over => 0
  }

  function FacadeRank(f: FacadePc): nat {
    match f
    case Free => 0
    case Gone => 0
    case Inside(_) => 1
    case RunInline(_) => 2
    case SetCas(_) => 3
    case StoreCallback(_) => 4
    case Create(_) => 18
    case CloseOld(_) => 19
    case Detach(_) => 20
    case Cancel(_) => 1
    case DropClose(_) => 1
    case DropCancel(_) => 2
  }

  function ImplRank(m: Impl): nat { OpenRank(m.open) + SessionRank(m.session) }

  function ImplsRank(impls: seq<Impl>): nat {
    if impls == [] then 0 else ImplsRank(impls[..|impls| - 1]) + ImplRank(impls[|impls| - 1])
  }

  /** The steps left of every impl, from its open to its release, and of the call of the facade. */
  function Measure(s: State): nat { ImplsRank(s.impls) + FacadeRank(s.facade) }

  lemma {:induction false} ImplsRankUpdate(impls: seq<Impl>, i: nat, m: Impl)
    requires i < |impls|
    ensures ImplsRank(impls[i := m]) == ImplsRank(impls) - ImplRank(impls[i]) + ImplRank(m)
  {
    var last := |impls| - 1;
    if i == last {
      assert impls[i := m][..last] == impls[..last];
    } else {
      assert impls[i := m][..last] == impls[..last][i := m];
      ImplsRankUpdate(impls[..last], i, m);
    }
  }

  lemma ImplsRankAppend(impls: seq<Impl>, m: Impl)
    ensures ImplsRank(impls + [m]) == ImplsRank(impls) + ImplRank(m)
  {
    assert (impls + [m])[..|impls|] == impls;
  }

  /** A step of a call that is going on, or of a session on its way to its release. */
  predicate OnTheWay(a: Step) {
    a.FacadeNext? || a.OpenNext? || a.SessionNext? || a.SessionReads? || a.SessionEnds?
  }

  /** What a new call of the facade adds. */
  function Added(a: Step): nat {
    if a.FacadeOpen? then 20 else if a.FacadeDestroy? then 2 else if a.FacadeClose? then 1 else 0
  }

  lemma OpenedLowers(impls: seq<Impl>, i: nat, m: Impl, n: Impl)
    requires i + 1 < |impls| && ImplRank(m) == ImplRank(impls[i]) && ImplRank(n) == ImplRank(impls[i + 1]) - 2
    ensures ImplsRank(impls[i := m][i + 1 := n]) == ImplsRank(impls) - 2
  {
    ImplsRankUpdate(impls, i, m);
    ImplsRankUpdate(impls[i := m], i + 1, n);
  }

  /** The impl behind one that is about to continue has not been opened. */
  lemma NextNotOpened(s: State, i: nat)
    requires Inv(s) && i + 1 < |s.impls| && (AboutToContinue(s.impls[i]) || s.facade == RunInline(i))
    ensures s.impls[i + 1].open.NotOpened?
  {
    LinkAt(s, i);
    LinkAt(s, i + 1);
  }

  /** Running the continuation of impl i opens an impl that was not open. */
  lemma ContinueLowers(s: State, i: nat)
    requires i + 1 < |s.impls| && s.impls[i + 1].open.NotOpened?
    ensures
      var s' := Continue(s, i);
      && ImplsRank(s'.impls) == ImplsRank(s.impls) - 2 && |s'.impls| == |s.impls|
      && ImplRank(s'.impls[i]) == ImplRank(s.impls[i])
  {
    var m, n := s.impls[i], s.impls[i + 1];
    OpenedLowers(s.impls, i, m.(continued := m.continued + 1), n.(open := Entered, opens := n.opens + 1));
  }

  lemma FacadeIsLocal(s: State)
    requires Enabled(s, FacadeNext) && !s.facade.Create? && !s.facade.RunInline?
    ensures
      var i, s' := s.facade.i, FacadeSteps(s);
      && i < |s'.impls| && s'.impls == s.impls[i := s'.impls[i]]
      && ImplRank(s'.impls[i]) == ImplRank(s.impls[i]) && FacadeRank(s'.facade) < FacadeRank(s.facade)
  {
  }

  lemma FacadeLowers(s: State)
    requires Inv(s) && Enabled(s, FacadeNext)
    ensures Measure(Apply(s, FacadeNext)) < Measure(s)
  {
    var i, s' := s.facade.i, Apply(s, FacadeNext);
    if s.facade.Create? {
      ImplsRankAppend(s.impls, PENDING);
    } else if s.facade.RunInline? {
      LinkAt(s, i);
      if i + 1 < |s.impls| {
        NextNotOpened(s, i);
        ContinueLowers(s, i);
      }
    } else {
      FacadeIsLocal(s);
      ImplsRankUpdate(s.impls, i, s'.impls[i]);
    }
  }

  lemma OpenIsLocal(s: State, i: nat)
    requires Enabled(s, OpenNext(i)) && ImplOk(s.impls[i]) && !s.impls[i].open.AbortContinue?
    ensures
      var s' := OpenSteps(s, i);
      i < |s'.impls| && s' == With(s, i, s'.impls[i]) && ImplRank(s'.impls[i]) < ImplRank(s.impls[i])
  {
  }

  lemma OpenLowers(s: State, i: nat)
    requires Inv(s) && Enabled(s, OpenNext(i))
    ensures Measure(Apply(s, OpenNext(i))) < Measure(s)
  {
    if s.impls[i].open.AbortContinue? {
      ContinuedLowers(s, i, Continue(s, i).impls[i].(open := Returned));
    } else {
      LinkAt(s, i);
      OpenIsLocal(s, i);
      ImplsRankUpdate(s.impls, i, OpenSteps(s, i).impls[i]);
    }
  }

  /** The releaser of impl i runs its continuation and goes on as m. */
  lemma ContinuedLowers(s: State, i: nat, m: Impl)
    requires Inv(s) && i + 1 < |s.impls| && AboutToContinue(s.impls[i]) && ImplRank(m) < ImplRank(s.impls[i])
    ensures Measure(With(Continue(s, i), i, m)) < Measure(s)
  {
    NextNotOpened(s, i);
    ContinueLowers(s, i);
    ImplsRankUpdate(Continue(s, i).impls, i, m);
  }

  lemma SessionIsLocal(s: State, a: Step)
    requires Enabled(s, a) && (a.SessionNext? || a.SessionReads? || a.SessionEnds?)
    requires !s.impls[a.i].session.Continuing?
    ensures
      var s' := Apply(s, a);
      a.i < |s'.impls| && s' == With(s, a.i, s'.impls[a.i]) && ImplRank(s'.impls[a.i]) < ImplRank(s.impls[a.i])
  {
  }

  lemma SessionLowers(s: State, a: Step)
    requires Inv(s) && Enabled(s, a) && (a.SessionNext? || a.SessionReads? || a.SessionEnds?)
    ensures Measure(Apply(s, a)) < Measure(s)
  {
    if s.impls[a.i].session.Continuing? {
      ContinuedLowers(s, a.i, Continue(s, a.i).impls[a.i].(session := Over));
    } else {
      SessionIsLocal(s, a);
      ImplsRankUpdate(s.impls, a.i, Apply(s, a).impls[a.i]);
    }
  }

  lemma NewCallAdds(s: State, a: Step)
    requires Inv(s) && Enabled(s, a) && (a.FacadeOpen? || a.FacadeClose? || a.FacadeDetach? || a.FacadeDestroy?)
    ensures Measure(Apply(s, a)) <= Measure(s) + Added(a)
  {
    if s.impls != [] {
      var s', i := Apply(s, a), Last(s);
      ImplsRankUpdate(s.impls, i, s'.impls[i]);
      assert s'.impls == s.impls[i := s'.impls[i]];
    } else if a.FacadeOpen? {
      ImplsRankAppend([], FIRST);
      assert [] + [FIRST] == [FIRST];
    }
  }

  /** Every step on the way leaves fewer than there were; a new call adds a few; nothing else adds any. */
  lemma StepLowers(s: State, a: Step)
    requires Inv(s) && Enabled(s, a)
    ensures if OnTheWay(a) then Measure(Apply(s, a)) < Measure(s) else Measure(Apply(s, a)) <= Measure(s) + Added(a)
  {
    if a.FacadeNext? {
      FacadeLowers(s);
    } else if a.OpenNext? {
      OpenLowers(s, a.i);
    } else if a.SessionNext? || a.SessionReads? || a.SessionEnds? {
      SessionLowers(s, a);
    } else if a.SessionConnects? || a.StatusDown? {
      ImplsRankUpdate(s.impls, a.i, Apply(s, a).impls[a.i]);
    } else {
      NewCallAdds(s, a);
    }
  }

  function StepsOnTheWay(sched: seq<Step>): nat {
    if sched == [] then 0 else (if OnTheWay(sched[0]) then 1 else 0) + StepsOnTheWay(sched[1..])
  }

  function AddedBy(sched: seq<Step>): nat {
    if sched == [] then 0 else Added(sched[0]) + AddedBy(sched[1..])
  }

  /** However the steps interleave, a run has a bounded number of them for each call of the facade. With CallsGoOn
      one of them is possible while a call is in progress: no call waits, and none is retried for ever. */
  lemma {:induction false} HandoffIsBounded(s: State, sched: seq<Step>)
    requires Inv(s) && Run(s, sched).Some?
    ensures StepsOnTheWay(sched) + Measure(Run(s, sched).value) <= Measure(s) + AddedBy(sched)
    decreases |sched|
  {
    if sched != [] {
      StepLowers(s, sched[0]);
      StepKeepsInv(s, sched[0]);
      HandoffIsBounded(Apply(s, sched[0]), sched[1..]);
    }
  }
}
