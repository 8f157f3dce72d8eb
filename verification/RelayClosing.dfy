/** Closing a session removes it from every map but, sometimes, the upstream index, and nothing is sent to
    it any more. */
module RelayClosing {
  import opened RelayState
  import opened RelayLog
  import opened RelayActs
  import opened RelayPlan
  import opened RelayInv
  import opened RelayTrace
  import opened RelayLegal
  import opened RelayHandlers
  import opened RelayRuns
  import opened RelayFinality
  import opened RelayTheorems
  import opened RelayMatching
  import opened RelayRefusals

  /** No map but the upstream index mentions s, and no track keeps live legs for nobody. */
  ghost predicate CleanOf(st: State, s: SessionKey) {
    && s !in st.sessions
    && (forall ns :: ns in st.publishers ==> s !in st.publishers[ns])
    && (forall t :: !HasLeg(st, t, s))
    && (forall t, k :: HasSub(st, t, k) ==> k.session != s)
    && (forall k :: k in st.downIndex ==> k.session != s)
    && (forall t :: t in st.tracks && NoActiveDownstream(st.tracks[t]) ==> AllLegsTerminated(st.tracks[t]))
  }

  lemma ClosedTracks(st: State, s: SessionKey)
    ensures forall t :: !HasLeg(Closed(st, s), t, s)
    ensures forall t, k :: HasSub(Closed(st, s), t, k) ==> k.session != s
    ensures forall t :: t in Closed(st, s).tracks && NoActiveDownstream(Closed(st, s).tracks[t]) ==>
              AllLegsTerminated(Closed(st, s).tracks[t])
  {
    forall t | t in Closed(st, s).tracks && NoActiveDownstream(Closed(st, s).tracks[t])
      ensures AllLegsTerminated(Closed(st, s).tracks[t])
    {
      assert Closed(st, s).tracks[t] == LeftRoute(st.tracks[t], s);
      assert NoActiveDownstream(ForgetIn(st.tracks[t], s));
    }
  }

  lemma ClosedIsClean(st: State, s: SessionKey)
    requires StateInv(st)
    ensures CleanOf(Closed(st, s), s)
  {
    ClosedTracks(st, s);
    var st' := Closed(st, s);
    forall ns | ns in st'.publishers ensures s !in st'.publishers[ns] {
      assert ns in st.publishers && (s in st.publishers[ns] ==> s in st.sessions && ns in st.sessions[s].published);
    }
    forall k | k in st'.downIndex ensures k.session != s {
      assert HasSub(st, st.downIndex[k], k);
    }
  }

  /** Everything sent in these acts, other than CloseSession, goes to somebody other than s. */
  ghost predicate SilentTo(w: World, w': World, s: SessionKey) {
    forall i :: |w.log| <= i < |w'.log| && w'.log[i].Tx? && !w'.log[i].output.Close? ==> w'.log[i].output.session != s
  }

  /** The same, with no exception for CloseSession. */
  ghost predicate NothingSentTo(w: World, w': World, s: SessionKey) {
    forall i :: |w.log| <= i < |w'.log| && w'.log[i].Tx? ==> w'.log[i].output.session != s
  }

  /** Acts that clear s away: Forget, and UNSUBSCRIBE to other sessions. */
  function Clearing(s: SessionKey): Act -> bool {
    (a: Act) => (a.Forget? && a.s == s) || (a.Unsub? && a.p != s) || a.Depart?
  }

  lemma {:induction false} UnsubsClear(order: seq<SessionKey>, t: TrackKey, s: SessionKey)
    requires s !in order
    ensures Only(Unsubs(order, t, true), Clearing(s))
  {
    if order != [] {
      UnsubsClear(order[..|order|-1], t, s);
    }
  }

  lemma {:induction false} LeavingClears(st: State, s: SessionKey, order: seq<TrackKey>,
                                         legs: map<TrackKey, seq<SessionKey>>)
    requires forall t :: t in order ==>
               t in st.tracks && t in legs && IsOrder(legs[t], LiveLegs(ForgetIn(st.tracks[t], s)))
    ensures Only(LeaveTracks(st, s, order, legs), Clearing(s))
  {
    if order != [] {
      var n := |order| - 1;
      LeavingClears(st, s, order[..n], legs);
      UnsubsClear(legs[order[n]], order[n], s);
    }
  }

  lemma {:induction false} ClearingIsSilent(w: World, acts: seq<Act>, s: SessionKey)
    requires Only(acts, Clearing(s))
    ensures |w.log| <= |Exec(w, acts).log| && NothingSentTo(w, Exec(w, acts), s)
  {
    if acts != [] {
      ClearingIsSilent(w, acts[..|acts|-1], s);
    }
  }

  /** SessionClosed(s): nothing of s remains but perhaps index entries, idle tracks have been unsubscribed,
      and s is sent nothing. */
  lemma CloseDownComplete(cfg: RelayConfig, run: seq<Stimulus>, x: Stimulus, s: SessionKey)
    requires ConfigOk(cfg) && ValidRun(cfg, run + [x]) && x.event == SessionClosed(s)
    ensures CleanOf(Reach(cfg, run + [x]).st, s)
    ensures NothingSentTo(Reach(cfg, run), Reach(cfg, run + [x]), s)
  {
    SplitStep(cfg, run, x);
    Reachable(cfg, run);
    var w := Reach(cfg, run);
    var w1 := Receive(w, x.event);
    ClosePlanEffect(w1, s, x.choice);
    ClosedIsClean(w.st, s);
    CloseIsSilent(w, s, x.choice);
  }

  /** Index entries of s itself outlive its close-down exactly when it has some but has no leg on any track. */
  lemma OwnEntriesSurviveIff(cfg: RelayConfig, run: seq<Stimulus>, x: Stimulus, s: SessionKey)
    requires ConfigOk(cfg) && ValidRun(cfg, run + [x]) && x.event == SessionClosed(s)
    ensures (exists r :: RequestKey(s, r) in Reach(cfg, run + [x]).st.upIndex)
       <==> (exists r :: RequestKey(s, r) in Reach(cfg, run).st.upIndex)
            && !(exists t :: HasLeg(Reach(cfg, run).st, t, s))
  {
    SplitStep(cfg, run, x);
    Reachable(cfg, run);
    var st := Reach(cfg, run).st;
    ClosePlanEffect(Receive(Reach(cfg, run), x.event), s, x.choice);
    OwnEntriesClosed(st, s);
  }

  lemma OwnEntriesClosed(st: State, s: SessionKey)
    ensures (exists r :: RequestKey(s, r) in Closed(st, s).upIndex)
       <==> (exists r :: RequestKey(s, r) in st.upIndex) && !(exists t :: HasLeg(st, t, s))
  {
    if HadLeg(st, s) {
      var t :| t in st.tracks && s in st.tracks[t].ups;
      assert HasLeg(st, t, s);
    }
  }

  lemma CloseIsSilent(w: World, s: SessionKey, c: Choice)
    requires Fair(w.st, SessionClosed(s), c)
    ensures NothingSentTo(w, Exec(Receive(w, SessionClosed(s)), ClosePlan(Receive(w, SessionClosed(s)), s, c)), s)
  {
    var w1 := Receive(w, SessionClosed(s));
    var acts := ClosePlan(w1, s, c);
    LeavingClears(w.st, s, c.tracks, c.legs);
    ClearingIsSilent(w1, acts, s);
    LogPrefix(w1, acts);
    assert Exec(w1, acts).log[|w.log|] == w1.log[|w.log|] == Rx(SessionClosed(s));
  }

  // ---- Outputs reach open sessions only ----

  /** Whatever is sent is sent to a session that is open. */
  lemma AddresseeIsOpen(w: World, act: Act)
    requires Inv(w) && Enabled(w, act)
    ensures forall o :: o in Emit(w.st, act) && !o.Close? ==> o.session in w.st.sessions
  {
    if act.End? || act.Forward? {
      assert SubOk(w.st, act.t, act.k);
    } else if act.Unsub? {
      assert LegIsOk(w.st, act.t, act.p);
    }
  }

  lemma SessionsComeByOpen(w: World, act: Act, s: SessionKey)
    requires Enabled(w, act) && s in w.used && s !in w.st.sessions
    ensures s in ApplyWorld(w, act).used && s !in Apply(w.st, act).sessions
  {
  }

  lemma {:induction false} GoneRun(w: World, acts: seq<Act>, s: SessionKey)
    requires Inv(w) && Legal(w, acts) && s in w.used && s !in w.st.sessions
    ensures |w.log| <= |Exec(w, acts).log| && SilentTo(w, Exec(w, acts), s)
    ensures s in Exec(w, acts).used && s !in Exec(w, acts).st.sessions
  {
    if acts != [] {
      var n := |acts| - 1;
      var w1 := Exec(w, acts[..n]);
      GoneRun(w, acts[..n], s);
      InvRun(w, acts[..n]);
      AddresseeIsOpen(w1, acts[n]);
      SessionsComeByOpen(w1, acts[n], s);
    }
  }

  lemma {:induction false} GoneForever(cfg: RelayConfig, w: World, run: seq<Stimulus>, s: SessionKey)
    requires ConfigOk(cfg) && Inv(w) && TraceInv(w) && ValidFrom(cfg, w, run) && s in w.used && s !in w.st.sessions
    ensures Inv(Continue(cfg, w, run)) && TraceInv(Continue(cfg, w, run))
    ensures s in Continue(cfg, w, run).used && s !in Continue(cfg, w, run).st.sessions
    ensures |w.log| <= |Continue(cfg, w, run).log| && SilentTo(w, Continue(cfg, w, run), s)
  {
    if run != [] {
      var n := |run| - 1;
      var w1 := Continue(cfg, w, run[..n]);
      GoneForever(cfg, w, run[..n], s);
      StepKeeps(cfg, w1, run[n]);
      GoneStep(cfg, w1, run[n], s);
    }
  }

  lemma GoneStep(cfg: RelayConfig, w: World, x: Stimulus, s: SessionKey)
    requires ConfigOk(cfg) && Inv(w) && TraceInv(w) && Admissible(w, x) && s in w.used && s !in w.st.sessions
    ensures s in Step(cfg, w, x).used && s !in Step(cfg, w, x).st.sessions
    ensures w.log <= Step(cfg, w, x).log && SilentTo(w, Step(cfg, w, x), s)
  {
    var w1 := Receive(w, x.event);
    var acts := Plan(cfg, w1, x.event, x.choice);
    ReceiveKeeps(w, x.event);
    PlanLegal(cfg, w, x);
    GoneRun(w1, acts, s);
    LogPrefix(w1, acts);
    assert Exec(w1, acts).log[|w.log|] == Rx(x.event);
  }

  // ---- What CloseSession answers ----

  /** A message or an object from s. */
  predicate ComesFrom(o: Obs, s: SessionKey) {
    o.Rx? && (o.event.Control? || o.event.ObjectReceived?) && o.event.session == s
  }

  /** Every CloseSession directly follows something received from the session it closes. */
  ghost predicate ClosesAnswer(log: seq<Obs>) {
    forall i :: 0 <= i < |log| && log[i].Tx? && log[i].output.Close? ==>
      i > 0 && ComesFrom(log[i - 1], log[i].output.session)
  }

  lemma ClosesAnswerKept(w: World, ev: Event, acts: seq<Act>, s: SessionKey)
    requires ClosesAnswer(w.log)
    requires Only(acts, NoCloses()) || (ClosesOwn(acts, s) && ComesFrom(Rx(ev), s))
    ensures ClosesAnswer(Exec(Receive(w, ev), acts).log)
  {
    var w1 := Receive(w, ev);
    LogPrefix(w1, acts);
    var log' := Exec(w1, acts).log;
    assert log'[|w.log|] == Rx(ev);
    if Only(acts, NoCloses()) {
      NoCloseStep(w, ev, acts);
      OldClosesAnswer(w, log');
    } else if e :| acts == [Say(Close(s, e))] {
      SingleAct(w1, acts[0]);
      assert log' == w1.log + [Tx(Close(s, e))];
      OldClosesAnswer(w, w1.log);
    } else {
      var t, a, e :| acts == [LegOk(s, t, a), Say(Close(s, e))];
      TwoActs(w1, acts[0], acts[1]);
      assert log' == w1.log + [] + [Tx(Close(s, e))];
      OldClosesAnswer(w, w1.log);
    }
  }

  /** Where nothing was closed in a step the answers are the old ones. */
  lemma OldClosesAnswer(w: World, log': seq<Obs>)
    requires ClosesAnswer(w.log) && w.log <= log'
    requires forall i :: |w.log| <= i < |log'| && log'[i].Tx? ==> !log'[i].output.Close?
    ensures ClosesAnswer(log')
  {
  }

  /** Whatever the run, CloseSession is only ever sent in answer to what its session has just sent. */
  lemma {:induction false} ClosesAnswerAlways(cfg: RelayConfig, run: seq<Stimulus>)
    ensures ClosesAnswer(Reach(cfg, run).log)
  {
    if run != [] {
      var pre, x := run[..|run|-1], run[|run|-1];
      ClosesAnswerAlways(cfg, pre);
      AnswerStep(cfg, Reach(cfg, pre), x);
    }
  }

  lemma AnswerStep(cfg: RelayConfig, w: World, x: Stimulus)
    requires ClosesAnswer(w.log)
    ensures ClosesAnswer(Step(cfg, w, x).log)
  {
    var w1 := Receive(w, x.event);
    PlansCloseOwn(cfg, w1, x);
    ClosesAnswerKept(w, x.event, Plan(cfg, w1, x.event, x.choice), x.event.session);
  }

  lemma SilentAfterClose(cfg: RelayConfig, pre: seq<Stimulus>, x: Stimulus, post: seq<Stimulus>, s: SessionKey)
    requires ConfigOk(cfg) && ValidRun(cfg, pre + [x] + post) && x.event == SessionClosed(s)
    requires s in Reach(cfg, pre).used
    ensures SilentTo(Reach(cfg, pre), Reach(cfg, pre + [x] + post), s)
  {
    SplitRun(cfg, pre + [x], post);
    SplitStep(cfg, pre, x);
    Reachable(cfg, pre + [x]);
    var w, w1 := Reach(cfg, pre), Reach(cfg, pre + [x]);
    CloseDownComplete(cfg, pre, x, s);
    UsedGrows(Receive(w, x.event), Plan(cfg, Receive(w, x.event), x.event, x.choice));
    GoneForever(cfg, w1, post, s);
    StepsExtend(cfg, w1, post);
  }

  /** Once a session has been closed nothing is ever sent to it again, except CloseSession directly after a
      late message or object of its own. */
  lemma NothingAfterClose(cfg: RelayConfig, pre: seq<Stimulus>, x: Stimulus, post: seq<Stimulus>, s: SessionKey)
    requires ConfigOk(cfg) && ValidRun(cfg, pre + [x] + post) && x.event == SessionClosed(s)
    requires s in Reach(cfg, pre).used
    ensures var log := Reach(cfg, pre + [x] + post).log;
            forall i :: |Reach(cfg, pre).log| <= i < |log| && log[i].Tx? && log[i].output.session == s ==>
              log[i].output.Close? && i > 0 && ComesFrom(log[i - 1], s)
  {
    SilentAfterClose(cfg, pre, x, post, s);
    ClosesAnswerAlways(cfg, pre + [x] + post);
  }

  lemma {:induction false} UsedGrows(w: World, acts: seq<Act>)
    ensures w.used <= Exec(w, acts).used
  {
    if acts != [] {
      UsedGrows(w, acts[..|acts|-1]);
    }
  }

  lemma {:induction false} StepsExtend(cfg: RelayConfig, w: World, run: seq<Stimulus>)
    ensures w.log <= Continue(cfg, w, run).log
  {
    if run != [] {
      var n := |run| - 1;
      var w1 := Continue(cfg, w, run[..n]);
      StepsExtend(cfg, w, run[..n]);
      LogPrefix(Receive(w1, run[n].event), Plan(cfg, Receive(w1, run[n].event), run[n].event, run[n].choice));
    }
  }
}
