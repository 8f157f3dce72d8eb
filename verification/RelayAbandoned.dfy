/** Tracks with live subscribers and no live publisher leg: the code lets them come about and tells nobody.
    When exactly that happens. */
module RelayAbandoned {
  import opened MoqTypes
  import opened RelayState
  import opened RelayActs
  import opened RelayPlan
  import opened RelayInv
  import opened RelayTrace
  import opened RelayLegal
  import opened RelayHandlers
  import opened RelayRuns
  import opened RelayTheorems
  import opened RelayMatching
  import opened RelayRouting
  import opened RelayAsking

  /** Somebody is still subscribed, and no leg is live. */
  predicate Forsaken(r: TrackRoute) { !NoActiveDownstream(r) && AllLegsTerminated(r) }

  predicate Abandoned(st: State, t: TrackKey) { t in st.tracks && Forsaken(st.tracks[t]) }

  /** Nobody's leg but s's is live. */
  predicate OnlyLiveLeg(r: TrackRoute, s: SessionKey) {
    s in r.ups && Live(r.ups[s].state) && forall p :: p in r.ups && p != s ==> r.ups[p].state.Terminated?
  }

  /** The last live leg goes with its session, and a subscriber of another session stays. */
  predicate LeavesBehind(st: State, s: SessionKey, t: TrackKey) {
    t in st.tracks && OnlyLiveLeg(st.tracks[t], s) && !NoActiveDownstream(ForgetIn(st.tracks[t], s))
  }

  /** The last live leg is refused after the track has been granted. */
  predicate RefusesGranted(st: State, s: SessionKey, r: nat, t: TrackKey) {
    Indexed(st, s, r, t) && t in st.tracks && OnlyLiveLeg(st.tracks[t], s) && EstablishedSubs(st.tracks[t]) != {}
  }

  /** The first subscriber of a track whose publishers cannot be asked. */
  ghost predicate AsksNobody(st: State, s: SessionKey, id: nat, t: TrackKey) {
    && Acceptable(st, s, id)
    && NoActiveDownstream(RouteOr(st, t)) && AllLegsTerminated(RouteOr(st, t))
    && MatchPublishers(st, t.namespace) != {} && forall p :: !Askable(st, t, p)
  }

  ghost predicate Abandons(st: State, ev: Event, t: TrackKey) {
    || (ev.SessionClosed? && LeavesBehind(st, ev.session, t))
    || (ev.Control? && ev.message.RequestError? && RefusesGranted(st, ev.session, ev.message.requestId, t))
    || (ev.Control? && ev.message.Subscribe? && t == TrackKey(ev.message.trackNamespace, ev.message.trackName)
        && AsksNobody(st, ev.session, ev.message.requestId, t))
  }

  // ---- Acts that abandon nothing ----

  predicate Harsh(a: Act, t: TrackKey) { (a.AddSub? || a.EndLeg? || a.Forget?) && a.t == t }

  function Gentle(t: TrackKey): Act -> bool { (a: Act) => !Harsh(a, t) }

  lemma GentleAct(w: World, act: Act, t: TrackKey)
    requires Enabled(w, act) && !Harsh(act, t) && Abandoned(Apply(w.st, act), t)
    ensures Abandoned(w.st, t)
  {
    if act.OpenLeg? || act.LegOk? || act.Unsub? {
      GentleLegAct(w, act, t);
    } else if act.Grant? || act.End? {
      GentleSubAct(w, act, t);
    } else {
      GentleOtherAct(w, act, t);
    }
  }

  lemma GentleLegAct(w: World, act: Act, t: TrackKey)
    requires Enabled(w, act) && (act.OpenLeg? || act.LegOk? || act.Unsub?) && Abandoned(Apply(w.st, act), t)
    ensures Abandoned(w.st, t)
  {
    var r, r' := w.st.tracks[t], Apply(w.st, act).tracks[t];
    assert r'.downs == r.downs;
    forall p | p in r.ups ensures r.ups[p].state.Terminated? {
      LegEndsEarlier(w, act, t, p);
    }
  }

  lemma LegEndsEarlier(w: World, act: Act, t: TrackKey, p: SessionKey)
    requires Enabled(w, act) && (act.OpenLeg? || act.LegOk? || act.Unsub?) && Abandoned(Apply(w.st, act), t)
    requires HasLeg(w.st, t, p)
    ensures LegOf(w.st, t, p).state.Terminated?
  {
    assert p in Apply(w.st, act).tracks[t].ups;
  }

  lemma GentleSubAct(w: World, act: Act, t: TrackKey)
    requires Enabled(w, act) && (act.Grant? || act.End?) && Abandoned(Apply(w.st, act), t)
    ensures Abandoned(w.st, t)
  {
    var r, r' := w.st.tracks[t], Apply(w.st, act).tracks[t];
    assert r'.ups == r.ups;
    var k :| k in r'.downs && Live(r'.downs[k].state);
    assert k in r.downs && Live(r.downs[k].state);
  }

  lemma GentleOtherAct(w: World, act: Act, t: TrackKey)
    requires Enabled(w, act) && !Harsh(act, t) && Abandoned(Apply(w.st, act), t)
    requires !(act.OpenLeg? || act.LegOk? || act.Unsub? || act.Grant? || act.End?)
    ensures Abandoned(w.st, t)
  {
    assert Apply(w.st, act).tracks[t].downs == w.st.tracks[t].downs
           && Apply(w.st, act).tracks[t].ups == w.st.tracks[t].ups;
  }

  lemma {:induction false} GentleRun(w: World, acts: seq<Act>, t: TrackKey)
    requires Legal(w, acts) && Only(acts, Gentle(t)) && Abandoned(Exec(w, acts).st, t)
    ensures Abandoned(w.st, t)
  {
    if acts != [] {
      var n := |acts| - 1;
      assert Gentle(t)(acts[n]);
      GentleAct(Exec(w, acts[..n]), acts[n], t);
      GentleRun(w, acts[..n], t);
    }
  }

  // ---- SUBSCRIBE ----

  /** Nobody who could be asked: nothing happens. */
  lemma {:induction false} NobodyAsked(w: World, order: seq<SessionKey>, t: TrackKey)
    requires forall p :: p in order ==> !CanOpenLeg(w.st, p, t)
    ensures Exec(w, OpenLegs(order, t)).st == w.st
  {
    if order != [] {
      var n := |order| - 1;
      NobodyAsked(w, order[..n], t);
      assert order[n] in order;
      ExecSnoc(w, OpenLegs(order[..n], t), OpenLeg(order[n], t));
    }
  }

  lemma AddedRoute(st: State, k: RequestKey, t: TrackKey, params: Parameters)
    requires k.session in st.sessions
    ensures var st1 := Apply(st, AddSub(k, t, params));
            && t in st1.tracks && st1.tracks[t].ups == RouteOr(st, t).ups
            && st1.tracks[t].downs == RouteOr(st, t).downs[k := Downstream(Pending, params, true, None)]
            && !NoActiveDownstream(st1.tracks[t])
            && (AllLegsTerminated(st1.tracks[t]) <==> AllLegsTerminated(RouteOr(st, t)))
  {
    var st1 := Apply(st, AddSub(k, t, params));
    assert k in st1.tracks[t].downs && Live(st1.tracks[t].downs[k].state);
  }

  /** Publishers match: abandoned afterwards exactly if nothing was live and nobody can be asked. */
  lemma AskingAbandons(w: World, k: RequestKey, t: TrackKey, params: Parameters, order: seq<SessionKey>)
    requires Enabled(w, AddSub(k, t, params)) && IsOrder(order, MatchPublishers(w.st, t.namespace))
    requires Legal(w, [AddSub(k, t, params)] + OpenLegs(order, t))
    ensures Abandoned(Exec(w, [AddSub(k, t, params)] + OpenLegs(order, t)).st, t)
       <==> AllLegsTerminated(RouteOr(w.st, t)) && forall p :: !Askable(w.st, t, p)
  {
    var add := AddSub(k, t, params);
    var w1 := ApplyWorld(w, add);
    SingleAct(w, add);
    ExecAppend(w, [add], OpenLegs(order, t));
    AddedRoute(w.st, k, t, params);
    if p :| Askable(w.st, t, p) {
      PeersAfterAdd(w, k, t, params, order, p);
    } else {
      forall p | p in order ensures !CanOpenLeg(w1.st, p, t) {
        OpenAfterAdd(w.st, k, t, params, p);
        assert !Askable(w.st, t, p);
      }
      NobodyAsked(w1, order, t);
    }
  }

  /** Nobody matches: the refused subscription leaves the track as abandoned as it was. */
  lemma RefusalAbandons(w: World, k: RequestKey, t: TrackKey, params: Parameters, ch: Channel, v: Verdict, dead: bool)
    requires Enabled(w, AddSub(k, t, params)) && Legal(w, [AddSub(k, t, params), End(k, t, ch, v)] + DropIf(t, dead))
    requires Abandoned(Exec(w, [AddSub(k, t, params), End(k, t, ch, v)] + DropIf(t, dead)).st, t)
    ensures Abandoned(w.st, t)
  {
    var add, refuse := AddSub(k, t, params), End(k, t, ch, v);
    TwoActs(w, add, refuse);
    ExecAppend(w, [add, refuse], DropIf(t, dead));
    var w2 := Exec(w, [add, refuse]);
    GentleRun(w2, DropIf(t, dead), t);
    RefusedRoute(w.st, k, t, params, ch, v);
    var j :| j in w2.st.tracks[t].downs && Live(w2.st.tracks[t].downs[j].state);
    assert j in RouteOr(w.st, t).downs && Live(RouteOr(w.st, t).downs[j].state);
  }

  lemma SubscribeAbandons(w: World, s: SessionKey, ch: Channel, id: nat, t: TrackKey, params: Parameters, c: Choice)
    requires Inv(w) && s in w.st.sessions && IsOrder(c.peers, MatchPublishers(w.st, t.namespace))
    requires Legal(w, SubscribePlan(w, s, ch, id, t, params, c))
    ensures Abandoned(Exec(w, SubscribePlan(w, s, ch, id, t, params, c)).st, t) && !Abandoned(w.st, t)
       <==> AsksNobody(w.st, s, id, t)
  {
    var acts := SubscribePlan(w, s, ch, id, t, params, c);
    var k := RequestKey(s, id);
    assert SessionOk(w.st.sessions[s]);
    if !Acceptable(w.st, s, id) {
      GentleOnly(w, acts, t);
    } else if HasEstablishedUpstream(RouteOr(w.st, t)) {
      GrantedNotAbandoned(w, k, t, params, acts);
    } else if MatchPublishers(w.st, t.namespace) == {} {
      if Abandoned(Exec(w, acts).st, t) {
        RefusalAbandons(w, k, t, params, ch, acts[1].verdict,
                        AllDownTerminated(RouteOr(w.st, t)) && RouteOr(w.st, t).ups == map[]);
      }
    } else {
      FirstEnabled(w, acts);
      AskingAbandons(w, k, t, params, c.peers);
    }
  }

  lemma GentleOnly(w: World, acts: seq<Act>, t: TrackKey)
    requires Legal(w, acts) && Only(acts, Gentle(t))
    ensures Abandoned(Exec(w, acts).st, t) ==> Abandoned(w.st, t)
  {
    if Abandoned(Exec(w, acts).st, t) { GentleRun(w, acts, t); }
  }

  lemma GrantedNotAbandoned(w: World, k: RequestKey, t: TrackKey, params: Parameters, acts: seq<Act>)
    requires Legal(w, acts) && |acts| == 2 && acts[0] == AddSub(k, t, params) && acts[1].Grant?
             && k.session in w.st.sessions
    requires HasEstablishedUpstream(RouteOr(w.st, t))
    ensures !Abandoned(Exec(w, acts).st, t)
  {
    assert acts == [acts[0], acts[1]];
    TwoActs(w, acts[0], acts[1]);
    AddedRoute(w.st, k, t, params);
    if Abandoned(Exec(w, acts).st, t) { GentleAct(ApplyWorld(w, acts[0]), acts[1], t); }
  }

  // ---- REQUEST_ERROR and PUBLISH_DONE ----

  /** What EndLeg does to the route it names. */
  lemma AfterEndLeg(st: State, s: SessionKey, r: nat, t: TrackKey)
    requires t in st.tracks
    ensures var st1 := Apply(st, EndLeg(s, r, t));
            && t in st1.tracks && st1.tracks[t].downs == st.tracks[t].downs
                 && st1.tracks[t].ups.Keys == st.tracks[t].ups.Keys
            && (AllLegsTerminated(st1.tracks[t]) <==> AllLegsTerminated(st.tracks[t]) || OnlyLiveLeg(st.tracks[t], s))
            && (s !in st.tracks[t].ups ==> st1.tracks[t] == st.tracks[t])
  {
    var r0, r1 := st.tracks[t], Apply(st, EndLeg(s, r, t)).tracks[t];
    forall p | p in r0.ups ensures r1.ups[p].state.Terminated? <==> p == s || r0.ups[p].state.Terminated? { }
    if AllLegsTerminated(r1) && !AllLegsTerminated(r0) {
      var p :| p in r0.ups && !r0.ups[p].state.Terminated?;
      assert p == s;
    }
  }

  /** Once some subscriptions have ended, those left live decide. */
  lemma EndedForsaken(r: TrackRoute, ks: set<RequestKey>)
    ensures Forsaken(EndedRoute(r, ks))
            <==> AllLegsTerminated(r) && exists k :: k in r.downs && Live(r.downs[k].state) && k !in ks
  {
    var e := EndedRoute(r, ks);
    if k :| k in r.downs && Live(r.downs[k].state) && k !in ks {
      assert k in e.downs && Live(e.downs[k].state);
    }
    if !NoActiveDownstream(e) {
      var k :| k in e.downs && Live(e.downs[k].state);
      assert k in r.downs && Live(r.downs[k].state) && k !in ks;
    }
  }

  lemma ErrorEndsAbandon(w: World, t: TrackKey, v: Verdict, c: Choice)
    requires t in w.st.tracks && v.Refused? && IsOrder(c.subs, PendingSubs(w.st.tracks[t]))
             && AllUpstreamTerminated(w.st.tracks[t])
    ensures Abandoned(Exec(w, Ends(c.subs, t, v)).st, t) <==> EstablishedSubs(w.st.tracks[t]) != {}
  {
    EndsEffect(w, c.subs, t, v);
    ErrorLeavesEstablished(w.st.tracks[t], c.subs);
  }

  lemma ErrorLeavesEstablished(r: TrackRoute, pending: seq<RequestKey>)
    requires IsOrder(pending, PendingSubs(r)) && AllUpstreamTerminated(r)
    ensures Forsaken(EndedRoute(r, ToSet(pending))) <==> EstablishedSubs(r) != {}
  {
    EndedForsaken(r, ToSet(pending));
    forall k ensures k in r.downs && Live(r.downs[k].state) && k !in ToSet(pending) <==> k in EstablishedSubs(r) {
      assert k in ToSet(pending) <==> k in PendingSubs(r);
    }
  }

  lemma RequestErrorTailAbandons(w: World, t: TrackKey, v: Verdict, c: Choice)
    requires t in w.st.tracks && v.Refused? && IsOrder(c.subs, PendingSubs(w.st.tracks[t]))
    ensures var st' := Exec(w, RequestErrorTail(w.st.tracks[t], t, v, c)).st;
            Abandoned(st', t) <==> if AllUpstreamTerminated(w.st.tracks[t]) then EstablishedSubs(w.st.tracks[t]) != {}
                                   else Abandoned(w.st, t)
  {
    var route := w.st.tracks[t];
    if AllUpstreamTerminated(route) {
      ErrorEndsAbandon(w, t, v, c);
      DropLater(w, Ends(c.subs, t, v), t, EstablishedSubs(route) == {});
      assert Ends(c.subs, t, v) + [] == Ends(c.subs, t, v);
    }
  }

  lemma RequestErrorAbandons(w: World, s: SessionKey, r: nat, v: Verdict, c: Choice, t: TrackKey)
    requires Inv(w) && s in w.st.sessions && w.st.sessions[s].setupDone && v.Refused? && Indexed(w.st, s, r, t)
             && t in w.st.tracks
    requires IsOrder(c.subs, PendingSubs(w.st.tracks[t]))
    ensures Abandoned(Exec(w, RequestErrorPlan(w, s, r, v, c)).st, t) && !Abandoned(w.st, t)
            <==> RefusesGranted(w.st, s, r, t)
  {
    var end := EndLeg(s, r, t);
    var w1 := ApplyWorld(w, end);
    SingleAct(w, end);
    AfterEndLeg(w.st, s, r, t);
    RequestErrorTailAbandons(w1, t, v, c);
    ExecAppend(w, [end], RequestErrorTail(w1.st.tracks[t], t, v, c));
    assert EstablishedSubs(w1.st.tracks[t]) == EstablishedSubs(w.st.tracks[t]);
    if k :| k in EstablishedSubs(w.st.tracks[t]) {
      assert Live(w.st.tracks[t].downs[k].state);
    }
  }

  lemma DoneEndsAbandon(w: World, t: TrackKey, v: Verdict, c: Choice, late: seq<Act>)
    requires t in w.st.tracks && v.Completed?
    requires IsOrder(c.subs, EstablishedSubs(w.st.tracks[t])) && IsOrder(c.late, PendingSubs(w.st.tracks[t]))
    requires late == if AllUpstreamTerminated(w.st.tracks[t]) then Ends(c.late, t, GONE) else []
    ensures Legal(w, Ends(c.subs, t, v) + late)
    ensures Abandoned(Exec(w, Ends(c.subs, t, v) + late).st, t)
            ==> Abandoned(w.st, t) && !AllUpstreamTerminated(w.st.tracks[t])
  {
    var route := w.st.tracks[t];
    DoneEndsEffect(w, t, v, c);
    EndedForsaken(route, DoneSubs(route, c));
    DoneLeavesPending(route, c);
  }

  lemma PublishDoneTailAbandons(w: World, t: TrackKey, v: Verdict, c: Choice)
    requires t in w.st.tracks && v.Completed? && Legal(w, PublishDoneTail(w.st.tracks[t], t, v, c))
    requires IsOrder(c.subs, EstablishedSubs(w.st.tracks[t])) && IsOrder(c.late, PendingSubs(w.st.tracks[t]))
    ensures Abandoned(Exec(w, PublishDoneTail(w.st.tracks[t], t, v, c)).st, t) ==>
              Abandoned(w.st, t) && !AllUpstreamTerminated(w.st.tracks[t])
  {
    var route := w.st.tracks[t];
    var late := if AllUpstreamTerminated(route) then Ends(c.late, t, GONE) else [];
    var dead := AllLegsTerminated(route) && (AllUpstreamTerminated(route) || PendingSubs(route) == {});
    DoneEndsAbandon(w, t, v, c, late);
    DropLater(w, Ends(c.subs, t, v) + late, t, dead);
    assert PublishDoneTail(route, t, v, c) == Ends(c.subs, t, v) + late + DropIf(t, dead);
  }

  /** Dropping the route abandons nothing. */
  lemma DropLater(w: World, acts: seq<Act>, t: TrackKey, dead: bool)
    ensures Abandoned(Exec(w, acts + DropIf(t, dead)).st, t) ==> Abandoned(Exec(w, acts).st, t)
  {
    if dead {
      ExecSnoc(w, acts, Drop(t));
    } else {
      assert acts + [] == acts;
    }
  }

  /** PUBLISH_DONE leaves live only Pending subscriptions, and those only while some leg is left. */
  lemma DoneLeavesPending(r: TrackRoute, c: Choice)
    requires IsOrder(c.subs, EstablishedSubs(r)) && IsOrder(c.late, PendingSubs(r))
    ensures forall k :: k in r.downs && Live(r.downs[k].state) && k !in DoneSubs(r, c) ==>
              k in PendingSubs(r) && !AllUpstreamTerminated(r)
  {
    forall k | k in r.downs && Live(r.downs[k].state) && k !in DoneSubs(r, c)
      ensures k in PendingSubs(r) && !AllUpstreamTerminated(r)
    {
      assert k in EstablishedSubs(r) || k in PendingSubs(r);
    }
  }

  lemma PublishDoneAbandons(w: World, s: SessionKey, r: nat, v: Verdict, c: Choice, t: TrackKey)
    requires Inv(w) && s in w.st.sessions && w.st.sessions[s].setupDone && v.Completed? && Indexed(w.st, s, r, t)
             && t in w.st.tracks
    requires IsOrder(c.subs, EstablishedSubs(w.st.tracks[t])) && IsOrder(c.late, PendingSubs(w.st.tracks[t]))
    requires Legal(w, PublishDonePlan(w, s, r, v, c))
    ensures Abandoned(Exec(w, PublishDonePlan(w, s, r, v, c)).st, t) ==> Abandoned(w.st, t)
  {
    var end := EndLeg(s, r, t);
    var w1 := ApplyWorld(w, end);
    SingleAct(w, end);
    AfterEndLeg(w.st, s, r, t);
    ExecAppend(w, [end], PublishDoneTail(w1.st.tracks[t], t, v, c));
    PublishDoneTailAbandons(w1, t, v, c);
  }

  // ---- SessionClosed ----

  lemma ClosedAbandons(st: State, s: SessionKey, t: TrackKey)
    ensures Abandoned(Closed(st, s), t) && !Abandoned(st, t) <==> LeavesBehind(st, s, t)
  {
    if t in st.tracks {
      var r := st.tracks[t];
      var f := ForgetIn(r, s);
      assert AllLegsTerminated(f) <==> AllLegsTerminated(r) || OnlyLiveLeg(r, s) by { ForgottenLegs(r, s); }
      if NoActiveDownstream(f) {
        assert NoActiveDownstream(LeftRoute(r, s));
      } else {
        var k :| k in f.downs && Live(f.downs[k].state);
        assert k in r.downs;
        assert t in Closed(st, s).tracks && Closed(st, s).tracks[t] == f;
      }
    }
  }

  lemma ForgottenLegs(r: TrackRoute, s: SessionKey)
    ensures AllLegsTerminated(ForgetIn(r, s)) <==> AllLegsTerminated(r) || OnlyLiveLeg(r, s)
  {
    var f := ForgetIn(r, s);
    assert forall p :: p in f.ups <==> p in r.ups && p != s;
  }

  // ---- One event, and whole runs ----

  /** Messages whose acts can abandon t. */
  predicate Concerns(st: State, s: SessionKey, m: ControlMessage, t: TrackKey) {
    || (m.Subscribe? && t == TrackKey(m.trackNamespace, m.trackName))
    || ((m.RequestError? || m.PublishDone?) && Indexed(st, s, m.requestId, t))
  }

  lemma ControlGentle(cfg: RelayConfig, w: World, s: SessionKey, ch: Channel, m: ControlMessage, c: Choice, t: TrackKey)
    requires s in w.st.sessions && !Concerns(w.st, s, m, t)
    ensures Only(ControlPlan(cfg, w, s, ch, m, c), Gentle(t))
  {
    var p := Gentle(t);
    if m.PublishNamespace? {
      OnlyOffers(c.tracks, s, m.trackNamespace, p);
    } else if m.Subscribe? {
      OnlyOpenLegs(c.peers, TrackKey(m.trackNamespace, m.trackName), p);
    } else if m.SubscribeOk? {
      if RequestKey(s, m.requestId) in w.st.upIndex {
        OnlyGrants(c.subs, w.st.upIndex[RequestKey(s, m.requestId)], m.trackExtensions, p);
      }
    } else if m.RequestError? || m.PublishDone? {
      EndingGentle(cfg, w, s, ch, m, c, t);
    } else if m.Unsubscribe? {
      UnsubscribeOnly(w, s, m.requestId, c, p);
    }
  }

  lemma EndingGentle(cfg: RelayConfig, w: World, s: SessionKey, ch: Channel, m: ControlMessage, c: Choice, t: TrackKey)
    requires s in w.st.sessions && (m.RequestError? || m.PublishDone?) && !Indexed(w.st, s, m.requestId, t)
    ensures Only(ControlPlan(cfg, w, s, ch, m, c), Gentle(t))
  {
    var x := RequestKey(s, m.requestId);
    if w.st.sessions[s].setupDone && x in w.st.upIndex && w.st.upIndex[x] in w.st.tracks {
      EndingTail(cfg, w, s, m.requestId, ch, m, c, Gentle(t));
      var acts := ControlPlan(cfg, w, s, ch, m, c);
      forall i | 0 <= i < |acts| ensures Gentle(t)(acts[i]) {
        assert i > 0 ==> acts[1..][i - 1] == acts[i];
      }
    }
  }

  lemma ControlAbandons(cfg: RelayConfig, w: World, s: SessionKey, ch: Channel, m: ControlMessage, c: Choice,
                        t: TrackKey)
    requires Inv(w) && FairControl(w.st, s, m, c) && Legal(w, ControlPlan(cfg, w, s, ch, m, c))
    ensures Abandoned(Exec(w, ControlPlan(cfg, w, s, ch, m, c)).st, t) && !Abandoned(w.st, t)
       <==> Abandons(w.st, Control(s, ch, m), t)
  {
    if s !in w.st.sessions {
      StrangerAbandonsNothing(w, s, ch, m, t);
      GentleOnly(w, Violation(s), t);
    } else if !Concerns(w.st, s, m, t) {
      ControlGentle(cfg, w, s, ch, m, c, t);
      GentleOnly(w, ControlPlan(cfg, w, s, ch, m, c), t);
    } else if m.Subscribe? {
      SubscribeAbandons(w, s, ch, m.requestId, t, m.parameters, c);
    } else if w.st.sessions[s].setupDone && t in w.st.tracks {
      if m.RequestError? {
        RequestErrorAbandons(w, s, m.requestId, Refused(m.errorCode, m.retryInterval, m.errorReason), c, t);
      } else {
        PublishDoneAbandons(w, s, m.requestId, Completed(m.statusCode, m.streamCount, m.errorReason), c, t);
      }
    } else {
      EndingMisses(cfg, w, s, m.requestId, ch, m, c);
      StrangerAbandonsNothing(w, s, ch, m, t);
    }
  }

  /** A session that is not set up has no leg to end and no request to make. */
  lemma StrangerAbandonsNothing(w: World, s: SessionKey, ch: Channel, m: ControlMessage, t: TrackKey)
    requires Inv(w) && (s !in w.st.sessions || !w.st.sessions[s].setupDone || (t !in w.st.tracks && !m.Subscribe?))
    ensures !Abandons(w.st, Control(s, ch, m), t)
  {
    assert HasLeg(w.st, t, s) ==> LegIsOk(w.st, t, s);
  }

  lemma AbandonStep(cfg: RelayConfig, w: World, x: Stimulus, t: TrackKey)
    requires ConfigOk(cfg) && Inv(w) && TraceInv(w) && Admissible(w, x)
    ensures Abandoned(Step(cfg, w, x).st, t) && !Abandoned(w.st, t) <==> Abandons(w.st, x.event, t)
  {
    var w1 := Receive(w, x.event);
    ReceiveKeeps(w, x.event);
    PlanLegal(cfg, w, x);
    match x.event
    case SessionOpened(_, _) => GentleOnly(w1, Plan(cfg, w1, x.event, x.choice), t);
    case SessionClosed(s) =>
      ClosePlanEffect(w1, s, x.choice);
      ClosedAbandons(w.st, s, t);
    case Control(s, ch, m) => ControlAbandons(cfg, w1, s, ch, m, x.choice, t);
    case ObjectReceived(s, alias, body) => ObjectPlanLegal(w1, s, alias, body, x.choice);
    case FetchObjectReceived(_) =>
  }

  /** A track is abandoned by three kinds of events and by no other: its last live leg closes under a
      subscriber of another session, its last live leg is refused after it had been granted, or its first
      subscriber comes when publishers match but none of them can be asked. */
  lemma AbandonedIff(cfg: RelayConfig, run: seq<Stimulus>, x: Stimulus, t: TrackKey)
    requires ConfigOk(cfg) && ValidRun(cfg, run + [x])
    ensures var st, st' := Reach(cfg, run).st, Reach(cfg, run + [x]).st;
            Abandoned(st', t) && !Abandoned(st, t) <==> Abandons(st, x.event, t)
  {
    SplitStep(cfg, run, x);
    Reachable(cfg, run);
    AbandonStep(cfg, Reach(cfg, run), x, t);
  }

  /** Event i abandons the track. */
  ghost predicate AbandonsAt(cfg: RelayConfig, run: seq<Stimulus>, i: nat, t: TrackKey)
    requires i < |run|
  {
    Abandons(Reach(cfg, run[..i]).st, run[i].event, t)
  }

  lemma AbandonsBefore(cfg: RelayConfig, pre: seq<Stimulus>, x: Stimulus, i: nat, t: TrackKey)
    requires i < |pre| && AbandonsAt(cfg, pre, i, t)
    ensures AbandonsAt(cfg, pre + [x], i, t)
  {
    assert (pre + [x])[..i] == pre[..i];
  }

  lemma AbandonsNow(cfg: RelayConfig, pre: seq<Stimulus>, x: Stimulus, t: TrackKey)
    requires ConfigOk(cfg) && ValidRun(cfg, pre + [x])
    requires Abandoned(Reach(cfg, pre + [x]).st, t) && !Abandoned(Reach(cfg, pre).st, t)
    ensures AbandonsAt(cfg, pre + [x], |pre|, t)
  {
    assert (pre + [x])[..|pre|] == pre;
    AbandonedIff(cfg, pre, x, t);
  }

  /** Every abandoned track was abandoned by such an event. */
  lemma {:induction false} AbandonedSometime(cfg: RelayConfig, run: seq<Stimulus>, t: TrackKey)
    requires ConfigOk(cfg) && ValidRun(cfg, run) && Abandoned(Reach(cfg, run).st, t)
    ensures exists i: nat :: i < |run| && AbandonsAt(cfg, run, i, t)
  {
    if run != [] {
      var pre, x := run[..|run|-1], run[|run|-1];
      assert run == pre + [x];
      if Abandoned(Reach(cfg, pre).st, t) {
        AbandonedSometime(cfg, pre, t);
        AbandonedBefore(cfg, pre, x, t);
      } else {
        AbandonsNow(cfg, pre, x, t);
      }
    }
  }

  lemma AbandonedBefore(cfg: RelayConfig, pre: seq<Stimulus>, x: Stimulus, t: TrackKey)
    requires exists i: nat :: i < |pre| && AbandonsAt(cfg, pre, i, t)
    ensures exists i: nat :: i < |pre + [x]| && AbandonsAt(cfg, pre + [x], i, t)
  {
    var i: nat :| i < |pre| && AbandonsAt(cfg, pre, i, t);
    AbandonsBefore(cfg, pre, x, i, t);
  }
}
