/** What holds in every reachable state of the buffer handoff, for any number of reconnects. */
module BufferHandoffProofs {
  import opened Wrappers
  import opened BufferHandoff

  /** One impl on its own: open() is entered once at most, and either starts the session or releases the buffer. */
  predicate ImplOk(m: Impl) {
    && m.opens == (if m.open.NotOpened? then 0 else 1)
    && (m.started ==> m.open.Spawn? || m.open.Returned?)
    && (m.open.Spawn? ==> m.started)
    && (m.session.NoSession? <==> !(m.open.Returned? && m.started))
    && (m.release.Released? <==>
          m.session.Over? || m.session.Continuing? || (!m.started && (m.open.Returned? || m.open.AbortContinue?)))
    && (m.open.NotOpened? || m.open.Entered? || m.open.StatusCas? ==> m.status.Connecting? || m.status.Disconnected?)
    && (m.open.NotOpened? || m.open.StartedExchange? ==> m.status.Connecting?)
    && (m.release.CallbackSet? || AboutToContinue(m) || m.continued > 0 ==> m.callback)
    && (AboutToContinue(m) ==> m.continued == 0)
    && (m.continued > 0 ==> m.release.Released?)
  }

  /** The facade has not yet made the continuation of impl i available. */
  predicate Linking(f: FacadePc, i: nat) { f == StoreCallback(i) || f == SetCas(i) }

  /** An impl and its successor: the continuation is with exactly one of the facade, the releaser and the release
      word. */
  predicate LinkOk(m: Impl, next: Impl, i: nat, f: FacadePc) {
    && m.continued <= 1
    && (next.opens > 0 <==> m.continued == 1)
    && (m.release.Active? ==> Linking(f, i))
    && (m.release.CallbackSet? ==> !Linking(f, i) && f != RunInline(i) && m.continued == 0)
    && (m.release.Released? ==> m.continued == 1 || AboutToContinue(m) || Linking(f, i) || f == RunInline(i))
    && (Linking(f, i) || f == RunInline(i) ==> !AboutToContinue(m) && m.continued == 0)
    && (f == RunInline(i) ==> m.release.Released? && m.callback)
    && (f == SetCas(i) ==> m.callback)
  }

  /** The newest impl has no continuation. */
  predicate LastOk(m: Impl) { !m.release.CallbackSet? && !AboutToContinue(m) && m.continued == 0 }

  predicate FacadeOk(f: FacadePc, count: nat) {
    match f
    case Free => true
    case Gone => true
    case StoreCallback(i) => i + 2 == count
    case SetCas(i) => i + 2 == count
    case RunInline(i) => i + 2 == count
    case _ => f.i + 1 == count
  }

  ghost predicate Inv(s: State) {
    && FacadeOk(s.facade, |s.impls|)
    && (forall i :: 0 <= i < |s.impls| ==> ImplOk(s.impls[i]))
    && (forall i, j :: 0 <= i && j == i + 1 && j < |s.impls| ==> LinkOk(s.impls[i], s.impls[j], i, s.facade))
    && (s.impls != [] ==> s.impls[0].opens == 1 && LastOk(s.impls[|s.impls| - 1]))
    && (s.facade.Inside? ==> s.impls[s.facade.i].opens == 1)
  }

  // ---- preservation ----

  /** The facade, if it is handing on a continuation, is at impl i. */
  predicate Only(f: FacadePc, i: nat) { f.StoreCallback? || f.SetCas? || f.RunInline? ==> f.i == i }

  /** A step that changes impl i, and nothing its neighbours can see but its end of the link. */
  lemma LocalKeepsInv(s: State, i: nat, m: Impl, f: FacadePc)
    requires Inv(s) && i < |s.impls| && FacadeOk(f, |s.impls|)
    requires f == s.facade || (Only(f, i) && Only(s.facade, i))
    requires ImplOk(m) && m.opens == s.impls[i].opens && (f.Inside? ==> s.facade == f)
    requires if i + 1 < |s.impls| then LinkOk(m, s.impls[i + 1], i, f) else LastOk(m)
    ensures Inv(State(s.impls[i := m], f))
  {
    var s' := State(s.impls[i := m], f);
    forall j, k | 0 <= j && k == j + 1 && k < |s.impls| ensures LinkOk(s'.impls[j], s'.impls[k], j, f) {
      assert LinkOk(s.impls[j], s.impls[k], j, s.facade);
    }
  }

  /** Whoever runs the continuation of impl i opens impl i + 1, which was not open before. */
  lemma ContinueKeepsInv(s: State, i: nat, m: Impl, f: FacadePc)
    requires Inv(s) && i + 1 < |s.impls| && FacadeOk(f, |s.impls|)
    requires f == s.facade || (Only(f, i) && Only(s.facade, i))
    requires AboutToContinue(s.impls[i]) || s.facade == RunInline(i)
    requires m.opens == s.impls[i].opens && m.continued == s.impls[i].continued + 1 && !AboutToContinue(m)
    requires ImplOk(m) && m.release.Released? && !Linking(f, i) && f != RunInline(i)
    requires f.Inside? ==> f == s.facade || f.i == i + 1
    ensures
      var n := s.impls[i + 1];
      Inv(State(s.impls[i := m][i + 1 := n.(open := Entered, opens := n.opens + 1)], f))
  {
    var n := s.impls[i + 1];
    var n' := n.(open := Entered, opens := n.opens + 1);
    var impls' := s.impls[i := m][i + 1 := n'];
    assert LinkOk(s.impls[i], n, i, s.facade) && ImplOk(n) && n.open.NotOpened?;
    assert ImplOk(n');
    forall j, k | 0 <= j && k == j + 1 && k < |impls'| ensures LinkOk(impls'[j], impls'[k], j, f) {
      assert LinkOk(s.impls[j], s.impls[k], j, s.facade);
    }
  }

  /** The link behind impl i, if there is one. */
  lemma LinkAt(s: State, i: nat)
    requires Inv(s) && i < |s.impls|
    ensures ImplOk(s.impls[i])
    ensures if i + 1 < |s.impls| then LinkOk(s.impls[i], s.impls[i + 1], i, s.facade) else LastOk(s.impls[i])
  {
  }

  lemma FacadeKeepsInv(s: State, a: Step)
    requires Inv(s) && Enabled(s, a)
    requires a.FacadeOpen? || a.FacadeClose? || a.FacadeDetach? || a.FacadeDestroy?
    ensures Inv(Apply(s, a))
  {
    if s.impls != [] {
      var s' := Apply(s, a);
      LinkAt(s, Last(s));
      LocalKeepsInv(s, Last(s), s'.impls[Last(s)], s'.facade);
      assert s.impls == s.impls[Last(s) := s.impls[Last(s)]];
    }
  }

  lemma CreateKeepsInv(s: State)
    requires Inv(s) && s.facade.Create?
    ensures Inv(Apply(s, FacadeNext))
  {
    var s' := Apply(s, FacadeNext);
    var n := |s.impls|;
    assert s'.impls == s.impls + [PENDING];
    LinkAt(s, n - 1);
    forall j, k | 0 <= j && k == j + 1 && k < |s'.impls| ensures LinkOk(s'.impls[j], s'.impls[k], j, s'.facade) {
      if k < n {
        assert LinkOk(s.impls[j], s.impls[k], j, s.facade);
      }
    }
  }

  lemma InlineKeepsInv(s: State)
    requires Inv(s) && s.facade.RunInline?
    ensures Inv(Apply(s, FacadeNext))
  {
    var i, s' := s.facade.i, Apply(s, FacadeNext);
    LinkAt(s, i);
    ContinueKeepsInv(s, i, s'.impls[i], s'.facade);
    assert s'.impls == s.impls[i := s'.impls[i]][i + 1 := s'.impls[i + 1]];
  }

  lemma FacadeNextKeepsInv(s: State)
    requires Inv(s) && Enabled(s, FacadeNext)
    ensures Inv(Apply(s, FacadeNext))
  {
    if s.facade.Create? {
      CreateKeepsInv(s);
    } else if s.facade.RunInline? {
      InlineKeepsInv(s);
    } else {
      var i, s' := s.facade.i, Apply(s, FacadeNext);
      LinkAt(s, i);
      assert s'.impls == s.impls[i := s'.impls[i]];
      LocalKeepsInv(s, i, s'.impls[i], s'.facade);
    }
  }

  lemma OpenContinueKeepsInv(s: State, i: nat)
    requires Inv(s) && Enabled(s, OpenNext(i)) && s.impls[i].open.AbortContinue?
    ensures Inv(Apply(s, OpenNext(i)))
  {
    var s' := Apply(s, OpenNext(i));
    LinkAt(s, i);
    ContinueKeepsInv(s, i, s'.impls[i], s.facade);
    assert s'.impls == s.impls[i := s'.impls[i]][i + 1 := s'.impls[i + 1]];
  }

  lemma OpenAbortKeepsInv(s: State, i: nat)
    requires Inv(s) && Enabled(s, OpenNext(i)) && (s.impls[i].open.Abort? || s.impls[i].open.AbortRelease?)
    ensures Inv(Apply(s, OpenNext(i)))
  {
    LinkAt(s, i);
    LocalKeepsInv(s, i, Apply(s, OpenNext(i)).impls[i], s.facade);
  }

  lemma OpenCheckKeepsInv(s: State, i: nat)
    requires Inv(s) && Enabled(s, OpenNext(i)) && (s.impls[i].open.Entered? || s.impls[i].open.StatusCas?)
    ensures Inv(Apply(s, OpenNext(i)))
  {
    LinkAt(s, i);
    LocalKeepsInv(s, i, Apply(s, OpenNext(i)).impls[i], s.facade);
  }

  lemma OpenStartKeepsInv(s: State, i: nat)
    requires Inv(s) && Enabled(s, OpenNext(i))
    requires s.impls[i].open.StartedStore? || s.impls[i].open.StartedExchange? || s.impls[i].open.Spawn?
    ensures Inv(Apply(s, OpenNext(i)))
  {
    LinkAt(s, i);
    LocalKeepsInv(s, i, Apply(s, OpenNext(i)).impls[i], s.facade);
  }

  lemma OpenKeepsInv(s: State, i: nat)
    requires Inv(s) && Enabled(s, OpenNext(i))
    ensures Inv(Apply(s, OpenNext(i)))
  {
    var pc := s.impls[i].open;
    if pc.AbortContinue? { OpenContinueKeepsInv(s, i); }
    else if pc.Abort? || pc.AbortRelease? { OpenAbortKeepsInv(s, i); }
    else if pc.Entered? || pc.StatusCas? { OpenCheckKeepsInv(s, i); }
    else { OpenStartKeepsInv(s, i); }
  }

  lemma SessionKeepsInv(s: State, i: nat)
    requires Inv(s) && Enabled(s, SessionNext(i))
    ensures Inv(Apply(s, SessionNext(i)))
  {
    var s' := Apply(s, SessionNext(i));
    LinkAt(s, i);
    if s.impls[i].session.Continuing? {
      ContinueKeepsInv(s, i, s'.impls[i], s.facade);
      assert s'.impls == s.impls[i := s'.impls[i]][i + 1 := s'.impls[i + 1]];
    } else {
      LocalKeepsInv(s, i, s'.impls[i], s.facade);
    }
  }

  lemma SessionMovesKeepInv(s: State, a: Step)
    requires Inv(s) && Enabled(s, a) && (a.SessionConnects? || a.SessionReads? || a.SessionEnds? || a.StatusDown?)
    ensures Inv(Apply(s, a))
  {
    LinkAt(s, a.i);
    LocalKeepsInv(s, a.i, Apply(s, a).impls[a.i], s.facade);
  }

  lemma StepKeepsInv(s: State, a: Step)
    requires Inv(s) && Enabled(s, a)
    ensures Inv(Apply(s, a))
  {
    match a
    case FacadeNext => FacadeNextKeepsInv(s);
    case OpenNext(i) => OpenKeepsInv(s, i);
    case SessionNext(i) => SessionKeepsInv(s, i);
    case SessionConnects(_) => SessionMovesKeepInv(s, a);
    case SessionReads(_) => SessionMovesKeepInv(s, a);
    case SessionEnds(_) => SessionMovesKeepInv(s, a);
    case StatusDown(_, _) => SessionMovesKeepInv(s, a);
    case _ => FacadeKeepsInv(s, a);
  }

  lemma {:induction false} RunKeepsInv(s: State, sched: seq<Step>)
    requires Inv(s) && Run(s, sched).Some?
    ensures Inv(Run(s, sched).value)
    decreases |sched|
  {
    if sched != [] {
      StepKeepsInv(s, sched[0]);
      RunKeepsInv(Apply(s, sched[0]), sched[1..]);
    }
  }

  lemma ReachableInv(s: State)
    requires Reachable(s)
    ensures Inv(s)
  {
    var s0: State, sched: seq<Step> :| Init(s0) && Run(s0, sched) == Some(s);
    RunKeepsInv(s0, sched);
  }

  /** While a call is in progress there is a call that can go on: nobody waits for anybody else. */
  lemma CallsGoOn(s: State) returns (a: Step)
    requires Reachable(s) && !AtRest(s)
    ensures Enabled(s, a) && (a.FacadeNext? || a.OpenNext? || a.SessionNext?)
  {
    ReachableInv(s);
    if i :| 0 <= i < |s.impls| && !s.impls[i].open.NotOpened? && !s.impls[i].open.Returned? {
      LinkAt(s, i);
      a := OpenNext(i);
    } else if i :| 0 <= i < |s.impls| && (s.impls[i].session.Ending? || s.impls[i].session.Continuing?) {
      LinkAt(s, i);
      a := SessionNext(i);
    } else {
      a := FacadeNext;
      if s.facade.Inside? {
        LinkAt(s, s.facade.i);
      }
    }
  }

  // ---- main results ----

  /** An impl is opened only after every earlier one has released. */
  lemma {:induction false} OpenedAfterRelease(s: State, i: nat, j: nat)
    requires Inv(s) && i < j < |s.impls| && s.impls[j].opens > 0
    ensures s.impls[i].release.Released?
    decreases j
  {
    assert LinkOk(s.impls[j - 1], s.impls[j], j - 1, s.facade);
    assert ImplOk(s.impls[j - 1]);
    if i < j - 1 {
      assert s.impls[j - 1].opens > 0;
      OpenedAfterRelease(s, i, j - 1);
    }
  }

  /** At most one session holds the shared buffer, and a session reads only while it holds it. */
  lemma OneHolder(s: State, i: nat, j: nat)
    requires Reachable(s) && i < |s.impls| && j < |s.impls|
    ensures Holds(s.impls[i]) && Holds(s.impls[j]) ==> i == j
    ensures !s.impls[i].session.NoSession? && i < j && s.impls[j].opens > 0 ==> s.impls[i].release.Released?
    ensures s.impls[i].session.Handshaking? || s.impls[i].session.Reading? ==> Holds(s.impls[i])
  {
    ReachableInv(s);
    assert ImplOk(s.impls[i]);
    if i < j && s.impls[j].opens > 0 {
      OpenedAfterRelease(s, i, j);
    } else if j < i && s.impls[i].opens > 0 {
      OpenedAfterRelease(s, j, i);
    }
  }

  /** Every continuation runs once at most, never before it is stored or before the release; and once no call is
      in progress it has run exactly where a released impl has a successor. */
  lemma ContinuedOnce(s: State, i: nat)
    requires Reachable(s) && i < |s.impls|
    ensures s.impls[i].continued <= 1 && s.impls[i].opens <= 1
    ensures AboutToContinue(s.impls[i]) ==> s.impls[i].callback && s.impls[i].release.Released? && i + 1 < |s.impls|
    ensures s.impls[i].continued == 1 ==> s.impls[i].callback && s.impls[i].release.Released?
    ensures AtRest(s) ==> (s.impls[i].continued == 1 <==> s.impls[i].release.Released? && i + 1 < |s.impls|)
  {
    ReachableInv(s);
    LinkAt(s, i);
  }

  /** The release is never lost, and cancelled opens forward it: once no call is in progress, either every impl
      has been opened and has released, or one impl r has the buffer - all before it have released, none after
      it has been opened - and its session is running. */
  lemma ReleaseIsForwarded(s: State) returns (r: nat)
    requires Reachable(s) && AtRest(s)
    ensures r <= |s.impls| && forall i :: 0 <= i < r ==> s.impls[i].opens == 1 && s.impls[i].release.Released?
    ensures r < |s.impls| ==>
              && Holds(s.impls[r]) && s.impls[r].started
              && (s.impls[r].session.Handshaking? || s.impls[r].session.Reading?)
    ensures forall i :: r < i < |s.impls| ==> s.impls[i].opens == 0
  {
    ReachableInv(s);
    r := 0;
    while r < |s.impls| && s.impls[r].release.Released?
      invariant r <= |s.impls| && forall i :: 0 <= i < r ==> s.impls[i].opens == 1 && s.impls[i].release.Released?
      invariant r < |s.impls| ==> s.impls[r].opens == 1
      decreases |s.impls| - r
    {
      LinkAt(s, r);
      r := r + 1;
    }
    if r < |s.impls| {
      assert ImplOk(s.impls[r]);
      forall i | r < i < |s.impls| ensures s.impls[i].opens == 0 {
        assert ImplOk(s.impls[i]);
        if s.impls[i].opens > 0 { OpenedAfterRelease(s, r, i); }
      }
    }
  }
}
