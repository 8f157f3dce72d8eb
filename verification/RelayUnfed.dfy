/** Tracks with an Established subscription and no Established leg: what was granted is no longer served, and
    nobody is told. When exactly that happens. */
module RelayUnfed {
  import opened RelayState
  import opened RelayActs
  import opened RelayPlan
  import opened RelayInv
  import opened RelayTrace
  import opened RelayLegal
  import opened RelayHandlers
  import opened RelayRuns
  import opened RelayTheorems
  import opened RelayRouting
  import opened RelayAbandoned
  import opened MoqTypes

  predicate Starving(r: TrackRoute) { EstablishedSubs(r) != {} && !HasEstablishedUpstream(r) }

  /** Somebody on t is Established, and no leg is. */
  predicate Unfed(st: State, t: TrackKey) { t in st.tracks && Starving(st.tracks[t]) }

  predicate OnlyEstablishedLeg(r: TrackRoute, s: SessionKey) {
    s in r.ups && r.ups[s].state.Established? && forall p :: p in r.ups && p != s ==> !r.ups[p].state.Established?
  }

  /** The only Established leg goes with its session, and an Established subscriber of another session stays. */
  predicate StopsFeeding(st: State, s: SessionKey, t: TrackKey) {
    && t in st.tracks && OnlyEstablishedLeg(st.tracks[t], s)
    && EstablishedSubs(ForgetIn(st.tracks[t], s)) != {}
  }

  /** The only Established leg is refused after all, with somebody Established. */
  predicate TakesBack(st: State, s: SessionKey, r: nat, t: TrackKey) {
    && Indexed(st, s, r, t) && t in st.tracks && OnlyEstablishedLeg(st.tracks[t], s)
    && EstablishedSubs(st.tracks[t]) != {}
  }

  predicate Unfeeds(st: State, ev: Event, t: TrackKey) {
    || (ev.SessionClosed? && StopsFeeding(st, ev.session, t))
    || (ev.Control? && ev.message.RequestError? && TakesBack(st, ev.session, ev.message.requestId, t))
  }

  // ---- Acts that keep everybody served ----

  predicate Cuts(a: Act, t: TrackKey) { (a.EndLeg? || a.Forget?) && a.t == t }

  function Sparing(t: TrackKey): Act -> bool { (a: Act) => !Cuts(a, t) }

  lemma SparingAct(w: World, act: Act, t: TrackKey)
    requires Enabled(w, act) && !Cuts(act, t) && Unfed(Apply(w.st, act), t)
    ensures Unfed(w.st, t)
  {
    var k :| k in EstablishedSubs(Apply(w.st, act).tracks[t]);
    SparedSub(w, act, t, k);
    forall p | p in w.st.tracks[t].ups ensures !w.st.tracks[t].ups[p].state.Established? {
      SparedLeg(w, act, t, p, k);
    }
  }

  /** An Established subscription was so before, or has just been granted behind an Established leg. */
  lemma SparedSub(w: World, act: Act, t: TrackKey, k: RequestKey)
    requires Enabled(w, act) && Unfed(Apply(w.st, act), t) && k in EstablishedSubs(Apply(w.st, act).tracks[t])
    ensures t in w.st.tracks && k in EstablishedSubs(w.st.tracks[t])
  {
    assert act.Grant? ==> Apply(w.st, act).tracks[act.t].ups == w.st.tracks[act.t].ups;
  }

  lemma SparedLeg(w: World, act: Act, t: TrackKey, p: SessionKey, k: RequestKey)
    requires Enabled(w, act) && !Cuts(act, t) && Unfed(Apply(w.st, act), t) && HasLeg(w.st, t, p)
    requires k in EstablishedSubs(w.st.tracks[t])
    ensures !LegOf(w.st, t, p).state.Established?
  {
    assert Live(w.st.tracks[t].downs[k].state);
    if LegOf(w.st, t, p).state.Established? {
      EstablishedLegStays(w, act, t, p);
    }
  }

  /** An Established leg of a track with a live subscription stays, unless it is ended or forgotten. */
  lemma EstablishedLegStays(w: World, act: Act, t: TrackKey, p: SessionKey)
    requires Enabled(w, act) && !Cuts(act, t) && HasLeg(w.st, t, p) && LegOf(w.st, t, p).state.Established?
    requires !NoActiveDownstream(w.st.tracks[t]) && t in Apply(w.st, act).tracks
    ensures p in Apply(w.st, act).tracks[t].ups && Apply(w.st, act).tracks[t].ups[p].state.Established?
  {
  }

  lemma {:induction false} SparingRun(w: World, acts: seq<Act>, t: TrackKey)
    requires Legal(w, acts) && Only(acts, Sparing(t)) && Unfed(Exec(w, acts).st, t)
    ensures Unfed(w.st, t)
  {
    if acts != [] {
      var n := |acts| - 1;
      assert Sparing(t)(acts[n]);
      SparingAct(Exec(w, acts[..n]), acts[n], t);
      SparingRun(w, acts[..n], t);
    }
  }

  lemma SparingOnly(w: World, acts: seq<Act>, t: TrackKey)
    requires Legal(w, acts) && Only(acts, Sparing(t))
    ensures Unfed(Exec(w, acts).st, t) ==> Unfed(w.st, t)
  {
    if Unfed(Exec(w, acts).st, t) { SparingRun(w, acts, t); }
  }

  // ---- REQUEST_ERROR and PUBLISH_DONE ----

  /** What EndLeg does to the Established legs of the route it names. */
  lemma EstablishedAfterEnd(st: State, s: SessionKey, r: nat, t: TrackKey)
    requires t in st.tracks
    ensures var st1 := Apply(st, EndLeg(s, r, t));
            && t in st1.tracks && EstablishedSubs(st1.tracks[t]) == EstablishedSubs(st.tracks[t])
            && (HasEstablishedUpstream(st1.tracks[t])
                <==> HasEstablishedUpstream(st.tracks[t]) && !OnlyEstablishedLeg(st.tracks[t], s))
  {
    var r0, r1 := st.tracks[t], Apply(st, EndLeg(s, r, t)).tracks[t];
    assert forall p :: p in r0.ups <==> p in r1.ups;
    assert forall p :: p in r0.ups ==> (r1.ups[p].state.Established? <==> p != s && r0.ups[p].state.Established?);
  }

  /** Ending subscriptions that are not Established changes nothing here. */
  lemma EndedStarving(r: TrackRoute, ks: set<RequestKey>)
    ensures Starving(EndedRoute(r, ks)) <==> !HasEstablishedUpstream(r) && EstablishedSubs(r) - ks != {}
  {
    assert EstablishedSubs(EndedRoute(r, ks)) == EstablishedSubs(r) - ks;
    assert EndedRoute(r, ks).ups == r.ups;
  }

  lemma DropUnfeedsNot(w: World, acts: seq<Act>, t: TrackKey, dead: bool)
    ensures Unfed(Exec(w, acts + DropIf(t, dead)).st, t) ==> Unfed(Exec(w, acts).st, t)
    ensures !dead ==> Exec(w, acts + DropIf(t, dead)) == Exec(w, acts)
  {
    if dead {
      ExecSnoc(w, acts, Drop(t));
    } else {
      assert acts + [] == acts;
    }
  }

  lemma ErrorTailStarves(w: World, t: TrackKey, v: Verdict, c: Choice)
    requires t in w.st.tracks && v.Refused? && IsOrder(c.subs, PendingSubs(w.st.tracks[t]))
    ensures Unfed(Exec(w, RequestErrorTail(w.st.tracks[t], t, v, c)).st, t) <==> Unfed(w.st, t)
  {
    var route := w.st.tracks[t];
    if AllUpstreamTerminated(route) {
      EndsEffect(w, c.subs, t, v);
      EndedStarving(route, ToSet(c.subs));
      assert EstablishedSubs(route) - ToSet(c.subs) == EstablishedSubs(route);
      DropUnfeedsNot(w, Ends(c.subs, t, v), t, EstablishedSubs(route) == {});
    }
  }

  lemma RequestErrorUnfeeds(w: World, s: SessionKey, r: nat, v: Verdict, c: Choice, t: TrackKey)
    requires Inv(w) && s in w.st.sessions && w.st.sessions[s].setupDone && v.Refused?
    requires Indexed(w.st, s, r, t) && t in w.st.tracks && IsOrder(c.subs, PendingSubs(w.st.tracks[t]))
    ensures Unfed(Exec(w, RequestErrorPlan(w, s, r, v, c)).st, t) && !Unfed(w.st, t) <==> TakesBack(w.st, s, r, t)
  {
    var end := EndLeg(s, r, t);
    var w1 := ApplyWorld(w, end);
    SingleAct(w, end);
    EstablishedAfterEnd(w.st, s, r, t);
    EndedLegRoute(w.st, s, r, t);
    ErrorTailStarves(w1, t, v, c);
    ExecAppend(w, [end], RequestErrorTail(w1.st.tracks[t], t, v, c));
    OnlyMeansSome(w.st.tracks[t], s);
  }

  lemma OnlyMeansSome(r: TrackRoute, s: SessionKey)
    ensures OnlyEstablishedLeg(r, s) ==> HasEstablishedUpstream(r)
  {
  }

  lemma DoneEndsFeed(w: World, t: TrackKey, v: Verdict, c: Choice, late: seq<Act>)
    requires t in w.st.tracks && v.Completed?
    requires IsOrder(c.subs, EstablishedSubs(w.st.tracks[t])) && IsOrder(c.late, PendingSubs(w.st.tracks[t]))
    requires late == if AllUpstreamTerminated(w.st.tracks[t])
                     then Ends(c.late, t, GONE) else []
    ensures !Unfed(Exec(w, Ends(c.subs, t, v) + late).st, t)
  {
    var route := w.st.tracks[t];
    DoneEndsEffect(w, t, v, c);
    EndedStarving(route, DoneSubs(route, c));
    assert EstablishedSubs(route) - DoneSubs(route, c) == {};
  }

  lemma PublishDoneUnfeedsNot(w: World, s: SessionKey, r: nat, v: Verdict, c: Choice, t: TrackKey)
    requires Inv(w) && s in w.st.sessions && w.st.sessions[s].setupDone && v.Completed?
    requires Indexed(w.st, s, r, t) && t in w.st.tracks
    requires IsOrder(c.subs, EstablishedSubs(w.st.tracks[t])) && IsOrder(c.late, PendingSubs(w.st.tracks[t]))
    ensures !Unfed(Exec(w, PublishDonePlan(w, s, r, v, c)).st, t)
  {
    var end := EndLeg(s, r, t);
    var w1 := ApplyWorld(w, end);
    SingleAct(w, end);
    EndedLegRoute(w.st, s, r, t);
    var route := w1.st.tracks[t];
    var late := if AllUpstreamTerminated(route) then Ends(c.late, t, GONE) else [];
    var dead := AllLegsTerminated(route) && (AllUpstreamTerminated(route) || PendingSubs(route) == {});
    ExecAppend(w, [end], PublishDoneTail(route, t, v, c));
    DoneEndsFeed(w1, t, v, c, late);
    DropUnfeedsNot(w1, Ends(c.subs, t, v) + late, t, dead);
    assert PublishDoneTail(route, t, v, c) == Ends(c.subs, t, v) + late + DropIf(t, dead);
  }

  // ---- SessionClosed ----

  lemma ForgottenFeed(r: TrackRoute, s: SessionKey)
    ensures HasEstablishedUpstream(ForgetIn(r, s)) <==> HasEstablishedUpstream(r) && !OnlyEstablishedLeg(r, s)
    ensures EstablishedSubs(ForgetIn(r, s)) <= EstablishedSubs(r)
  {
    var f := ForgetIn(r, s);
    assert forall p :: p in f.ups <==> p in r.ups && p != s;
  }

  lemma ClosedUnfeeds(st: State, s: SessionKey, t: TrackKey)
    ensures Unfed(Closed(st, s), t) && !Unfed(st, t) <==> StopsFeeding(st, s, t)
  {
    if t in st.tracks {
      var r := st.tracks[t];
      var f := ForgetIn(r, s);
      ForgottenFeed(r, s);
      OnlyMeansSome(r, s);
      if NoActiveDownstream(f) {
        assert LeftRoute(r, s).downs == f.downs;
        assert EstablishedSubs(f) == {} by { assert forall k :: k in f.downs ==> !Live(f.downs[k].state); }
      } else {
        var k :| k in f.downs && Live(f.downs[k].state);
        assert t in Closed(st, s).tracks && Closed(st, s).tracks[t] == f;
      }
    }
  }

  // ---- One event, and whole runs ----

  lemma ControlSparing(cfg: RelayConfig, w: World, s: SessionKey, ch: Channel, m: ControlMessage, c: Choice,
                       t: TrackKey)
    requires s in w.st.sessions && ((m.RequestError? || m.PublishDone?) ==> !Indexed(w.st, s, m.requestId, t))
    ensures Only(ControlPlan(cfg, w, s, ch, m, c), Sparing(t))
  {
    if m.RequestError? || m.PublishDone? {
      EndingGentle(cfg, w, s, ch, m, c, t);
      var acts := ControlPlan(cfg, w, s, ch, m, c);
      forall i | 0 <= i < |acts| ensures Sparing(t)(acts[i]) { assert Gentle(t)(acts[i]); }
    } else {
      ControlOnly(cfg, w, s, ch, m, c, Sparing(t));
    }
  }

  lemma ControlUnfeeds(cfg: RelayConfig, w: World, s: SessionKey, ch: Channel, m: ControlMessage, c: Choice,
                       t: TrackKey)
    requires Inv(w) && FairControl(w.st, s, m, c) && Legal(w, ControlPlan(cfg, w, s, ch, m, c))
    ensures Unfed(Exec(w, ControlPlan(cfg, w, s, ch, m, c)).st, t) && !Unfed(w.st, t)
       <==> Unfeeds(w.st, Control(s, ch, m), t)
  {
    assert HasLeg(w.st, t, s) ==> LegIsOk(w.st, t, s);
    if s !in w.st.sessions {
      SparingOnly(w, Violation(s), t);
    } else if !((m.RequestError? || m.PublishDone?) && Indexed(w.st, s, m.requestId, t)) {
      ControlSparing(cfg, w, s, ch, m, c, t);
      SparingOnly(w, ControlPlan(cfg, w, s, ch, m, c), t);
    } else if w.st.sessions[s].setupDone && t in w.st.tracks {
      if m.RequestError? {
        RequestErrorUnfeeds(w, s, m.requestId, Refused(m.errorCode, m.retryInterval, m.errorReason), c, t);
      } else {
        PublishDoneUnfeedsNot(w, s, m.requestId, Completed(m.statusCode, m.streamCount, m.errorReason), c, t);
      }
    } else {
      EndingMisses(cfg, w, s, m.requestId, ch, m, c);
    }
  }

  lemma UnfeedStep(cfg: RelayConfig, w: World, x: Stimulus, t: TrackKey)
    requires ConfigOk(cfg) && Inv(w) && TraceInv(w) && Admissible(w, x)
    ensures Unfed(Step(cfg, w, x).st, t) && !Unfed(w.st, t) <==> Unfeeds(w.st, x.event, t)
  {
    var w1 := Receive(w, x.event);
    ReceiveKeeps(w, x.event);
    PlanLegal(cfg, w, x);
    match x.event
    case SessionOpened(_, _) => SparingOnly(w1, Plan(cfg, w1, x.event, x.choice), t);
    case SessionClosed(s) =>
      ClosePlanEffect(w1, s, x.choice);
      ClosedUnfeeds(w.st, s, t);
    case Control(s, ch, m) => ControlUnfeeds(cfg, w1, s, ch, m, x.choice, t);
    case ObjectReceived(s, alias, body) => ObjectPlanLegal(w1, s, alias, body, x.choice);
    case FetchObjectReceived(_) =>
  }

  /** An Established subscription comes to have no Established leg by two kinds of events and by no other: the
      only Established leg closes under a subscriber of another session, or gets REQUEST_ERROR after all. */
  lemma UnfedIff(cfg: RelayConfig, run: seq<Stimulus>, x: Stimulus, t: TrackKey)
    requires ConfigOk(cfg) && ValidRun(cfg, run + [x])
    ensures var st, st' := Reach(cfg, run).st, Reach(cfg, run + [x]).st;
            Unfed(st', t) && !Unfed(st, t) <==> Unfeeds(st, x.event, t)
  {
    SplitStep(cfg, run, x);
    Reachable(cfg, run);
    UnfeedStep(cfg, Reach(cfg, run), x, t);
  }
}
