/** Tracks with a live leg and no live subscription: their publisher goes on sending to nobody, and is not
    unsubscribed. When exactly that happens. */
module RelayLingering {
  import opened MoqTypes
  import opened RelayState
  import opened RelayActs
  import opened RelayPlan
  import opened RelayInv
  import opened RelayTrace
  import opened RelayLegal
  import opened RelayHandlers
  import opened RelayRuns
  import opened RelayTheorems
  import opened RelayRouting
  import opened RelayAbandoned

  predicate Idling(r: TrackRoute) { NoActiveDownstream(r) && !AllLegsTerminated(r) }

  /** Some leg for t is live, and nobody is subscribed any more. */
  predicate Lingering(st: State, t: TrackKey) { t in st.tracks && Idling(st.tracks[t]) }

  /** PUBLISH_DONE for one of several live legs, with somebody Established and nobody Pending. */
  predicate LeavesIdle(st: State, s: SessionKey, r: nat, t: TrackKey) {
    && s in st.sessions && Indexed(st, s, r, t) && t in st.tracks
    && (exists p :: p in st.tracks[t].ups && p != s && Live(st.tracks[t].ups[p].state))
    && EstablishedSubs(st.tracks[t]) != {} && PendingSubs(st.tracks[t]) == {}
  }

  predicate Idles(st: State, ev: Event, t: TrackKey) {
    ev.Control? && ev.message.PublishDone? && LeavesIdle(st, ev.session, ev.message.requestId, t)
  }

  // ---- Acts that take no subscription away ----

  predicate Takes(a: Act, t: TrackKey) { (a.End? || a.Forget?) && a.t == t }

  function Retaining(t: TrackKey): Act -> bool { (a: Act) => !Takes(a, t) }

  lemma RetainingAct(w: World, act: Act, t: TrackKey)
    requires Enabled(w, act) && !Takes(act, t) && Lingering(Apply(w.st, act), t)
    ensures Lingering(w.st, t)
  {
    var p :| p in Apply(w.st, act).tracks[t].ups && !Apply(w.st, act).tracks[t].ups[p].state.Terminated?;
    RetainedLeg(w, act, t, p);
    forall k | k in w.st.tracks[t].downs ensures !Live(w.st.tracks[t].downs[k].state) {
      RetainedSub(w, act, t, k);
    }
  }

  /** A live leg was live before, or has just been opened for somebody. */
  lemma RetainedLeg(w: World, act: Act, t: TrackKey, p: SessionKey)
    requires Enabled(w, act) && Lingering(Apply(w.st, act), t)
    requires HasLeg(Apply(w.st, act), t, p) && !LegOf(Apply(w.st, act), t, p).state.Terminated?
    ensures HasLeg(w.st, t, p) && !LegOf(w.st, t, p).state.Terminated?
  {
    assert act.OpenLeg? && act.t in w.st.tracks ==> Apply(w.st, act).tracks[act.t].downs == w.st.tracks[act.t].downs;
  }

  lemma RetainedSub(w: World, act: Act, t: TrackKey, k: RequestKey)
    requires Enabled(w, act) && !Takes(act, t) && Lingering(Apply(w.st, act), t) && HasSub(w.st, t, k)
    ensures !Live(Sub(w.st, t, k).state)
  {
    var st' := Apply(w.st, act);
    assert HasSub(st', t, k) ==> !Live(Sub(st', t, k).state);
  }

  lemma {:induction false} RetainingRun(w: World, acts: seq<Act>, t: TrackKey)
    requires Legal(w, acts) && Only(acts, Retaining(t)) && Lingering(Exec(w, acts).st, t)
    ensures Lingering(w.st, t)
  {
    if acts != [] {
      var n := |acts| - 1;
      assert Retaining(t)(acts[n]);
      RetainingAct(Exec(w, acts[..n]), acts[n], t);
      RetainingRun(w, acts[..n], t);
    }
  }

  lemma RetainingOnly(w: World, acts: seq<Act>, t: TrackKey)
    requires Legal(w, acts) && Only(acts, Retaining(t))
    ensures Lingering(Exec(w, acts).st, t) ==> Lingering(w.st, t)
  {
    if Lingering(Exec(w, acts).st, t) { RetainingRun(w, acts, t); }
  }

  lemma DropIdlesNot(w: World, acts: seq<Act>, t: TrackKey, dead: bool)
    ensures Lingering(Exec(w, acts + DropIf(t, dead)).st, t) ==> Lingering(Exec(w, acts).st, t)
    ensures !dead ==> Exec(w, acts + DropIf(t, dead)) == Exec(w, acts)
  {
    if dead {
      ExecSnoc(w, acts, Drop(t));
    } else {
      assert acts + [] == acts;
    }
  }

  // ---- SUBSCRIBE ----

  lemma RefusalIdlesNot(w: World, k: RequestKey, t: TrackKey, params: Parameters, ch: Channel, v: Verdict, dead: bool)
    requires Enabled(w, AddSub(k, t, params)) && k.session in w.st.sessions && Inv(w)
    ensures Lingering(Exec(w, [AddSub(k, t, params), End(k, t, ch, v)] + DropIf(t, dead)).st, t) ==> Lingering(w.st, t)
  {
    var add, refuse := AddSub(k, t, params), End(k, t, ch, v);
    TwoActs(w, add, refuse);
    DropIdlesNot(w, [add, refuse], t, dead);
    RefusedRoute(w.st, k, t, params, ch, v);
    assert HasSub(w.st, t, k) ==> SubOk(w.st, t, k);
    var r, r' := RouteOr(w.st, t), Exec(w, [add, refuse]).st.tracks[t];
    assert r'.ups == r.ups;
    forall j | j in r.downs ensures j in r'.downs && r'.downs[j].state == r.downs[j].state { }
  }

  lemma SubscribeIdlesNot(w: World, s: SessionKey, ch: Channel, id: nat, t: TrackKey, params: Parameters, c: Choice)
    requires Inv(w) && s in w.st.sessions && Legal(w, SubscribePlan(w, s, ch, id, t, params, c))
    ensures Lingering(Exec(w, SubscribePlan(w, s, ch, id, t, params, c)).st, t) ==> Lingering(w.st, t)
  {
    var acts := SubscribePlan(w, s, ch, id, t, params, c);
    assert SessionOk(w.st.sessions[s]);
    if acts[0].AddSub? && !HasEstablishedUpstream(RouteOr(w.st, t)) && MatchPublishers(w.st, t.namespace) == {} {
      FirstEnabled(w, acts);
      RefusalIdlesNot(w, RequestKey(s, id), t, params, ch, acts[1].verdict,
                      AllDownTerminated(RouteOr(w.st, t)) && RouteOr(w.st, t).ups == map[]);
    } else {
      OnlyOpenLegs(c.peers, t, Retaining(t));
      RetainingOnly(w, acts, t);
    }
  }

  // ---- UNSUBSCRIBE ----

  /** Whoever leaves last takes the live legs and the route along. */
  lemma UnsubscribeIdlesNot(w: World, s: SessionKey, id: nat, c: Choice, t: TrackKey)
    requires Inv(w) && s in w.st.sessions && w.st.sessions[s].setupDone
    requires RequestKey(s, id) in w.st.downIndex && w.st.downIndex[RequestKey(s, id)] == t
    ensures !Lingering(Exec(w, UnsubscribePlan(w, s, id, c)).st, t)
  {
    var k := RequestKey(s, id);
    var gone := End(k, t, ControlStream, Withdrawn);
    SingleAct(w, gone);
    if t in w.st.tracks && NoActiveDownstream(RouteOr(Apply(w.st, gone), t)) {
      DroppedLast(w, [gone] + Unsubs(c.peers, t, false), t);
    }
  }

  lemma DroppedLast(w: World, acts: seq<Act>, t: TrackKey)
    ensures t !in Exec(w, acts + [Drop(t)]).st.tracks
  {
    ExecSnoc(w, acts, Drop(t));
  }

  // ---- REQUEST_ERROR and PUBLISH_DONE ----

  lemma ErrorTailIdles(w: World, t: TrackKey, v: Verdict, c: Choice)
    requires t in w.st.tracks && v.Refused? && IsOrder(c.subs, PendingSubs(w.st.tracks[t]))
    ensures Lingering(Exec(w, RequestErrorTail(w.st.tracks[t], t, v, c)).st, t) ==> Lingering(w.st, t)
  {
    var route := w.st.tracks[t];
    if AllUpstreamTerminated(route) {
      EndsEffect(w, c.subs, t, v);
      assert EndedRoute(route, ToSet(c.subs)).ups == route.ups;
      DropIdlesNot(w, Ends(c.subs, t, v), t, EstablishedSubs(route) == {});
    }
  }

  lemma RequestErrorIdlesNot(w: World, s: SessionKey, r: nat, v: Verdict, c: Choice, t: TrackKey)
    requires Inv(w) && s in w.st.sessions && w.st.sessions[s].setupDone && v.Refused?
    requires Indexed(w.st, s, r, t) && t in w.st.tracks && IsOrder(c.subs, PendingSubs(w.st.tracks[t]))
    ensures Lingering(Exec(w, RequestErrorPlan(w, s, r, v, c)).st, t) ==> Lingering(w.st, t)
  {
    var end := EndLeg(s, r, t);
    var w1 := ApplyWorld(w, end);
    SingleAct(w, end);
    EndedLegRoute(w.st, s, r, t);
    ErrorTailIdles(w1, t, v, c);
    ExecAppend(w, [end], RequestErrorTail(w1.st.tracks[t], t, v, c));
    AfterEndLeg(w.st, s, r, t);
  }

  /** Which legs are live after EndLeg. */
  lemma OthersLive(st: State, s: SessionKey, r: nat, t: TrackKey)
    requires t in st.tracks
    ensures !AllLegsTerminated(Apply(st, EndLeg(s, r, t)).tracks[t])
       <==> exists p :: p in st.tracks[t].ups && p != s && Live(st.tracks[t].ups[p].state)
  {
    var r0, r1 := st.tracks[t], Apply(st, EndLeg(s, r, t)).tracks[t];
    assert forall p :: p in r0.ups <==> p in r1.ups;
    assert forall p :: p in r0.ups ==> (r1.ups[p].state.Terminated? <==> p == s || r0.ups[p].state.Terminated?);
  }

  lemma DoneEndsIdle(w: World, t: TrackKey, v: Verdict, c: Choice, late: seq<Act>)
    requires t in w.st.tracks && v.Completed?
    requires IsOrder(c.subs, EstablishedSubs(w.st.tracks[t])) && IsOrder(c.late, PendingSubs(w.st.tracks[t]))
    requires late == if AllUpstreamTerminated(w.st.tracks[t])
                     then Ends(c.late, t, GONE) else []
    ensures Lingering(Exec(w, Ends(c.subs, t, v) + late).st, t)
       <==> !AllLegsTerminated(w.st.tracks[t]) && PendingSubs(w.st.tracks[t]) == {}
  {
    var route := w.st.tracks[t];
    DoneEndsEffect(w, t, v, c);
    DoneRouteIdle(route, c);
  }

  lemma DoneRouteIdle(r: TrackRoute, c: Choice)
    requires IsOrder(c.subs, EstablishedSubs(r)) && IsOrder(c.late, PendingSubs(r))
    ensures Idling(EndedRoute(r, DoneSubs(r, c))) <==> !AllLegsTerminated(r) && PendingSubs(r) == {}
  {
    var e := EndedRoute(r, DoneSubs(r, c));
    assert e.ups == r.ups;
    DoneLeavesPending(r, c);
    if k :| k in PendingSubs(r) {
      assert k !in EstablishedSubs(r);
      assert !AllLegsTerminated(r) ==> k in e.downs && Live(e.downs[k].state);
    } else {
      assert forall k :: k in e.downs ==> !Live(e.downs[k].state);
    }
  }

  lemma PublishDoneIdles(w: World, s: SessionKey, r: nat, v: Verdict, c: Choice, t: TrackKey)
    requires Inv(w) && s in w.st.sessions && w.st.sessions[s].setupDone && v.Completed?
    requires Indexed(w.st, s, r, t) && t in w.st.tracks
    requires IsOrder(c.subs, EstablishedSubs(w.st.tracks[t])) && IsOrder(c.late, PendingSubs(w.st.tracks[t]))
    ensures Lingering(Exec(w, PublishDonePlan(w, s, r, v, c)).st, t) && !Lingering(w.st, t)
            <==> LeavesIdle(w.st, s, r, t)
  {
    var end := EndLeg(s, r, t);
    var w1 := ApplyWorld(w, end);
    SingleAct(w, end);
    EndedLegRoute(w.st, s, r, t);
    OthersLive(w.st, s, r, t);
    var route := w1.st.tracks[t];
    ExecAppend(w, [end], PublishDoneTail(route, t, v, c));
    DoneTailIdles(w1, t, v, c);
    ActiveIsEither(w.st.tracks[t]);
    assert PendingSubs(route) == PendingSubs(w.st.tracks[t]);
  }

  lemma ActiveIsEither(r: TrackRoute)
    ensures NoActiveDownstream(r) <==> EstablishedSubs(r) == {} && PendingSubs(r) == {}
  {
    assert forall k :: k in r.downs && Live(r.downs[k].state) <==> k in EstablishedSubs(r) || k in PendingSubs(r);
  }

  lemma DoneTailIdles(w: World, t: TrackKey, v: Verdict, c: Choice)
    requires t in w.st.tracks && v.Completed?
    requires IsOrder(c.subs, EstablishedSubs(w.st.tracks[t])) && IsOrder(c.late, PendingSubs(w.st.tracks[t]))
    ensures Lingering(Exec(w, PublishDoneTail(w.st.tracks[t], t, v, c)).st, t)
       <==> !AllLegsTerminated(w.st.tracks[t]) && PendingSubs(w.st.tracks[t]) == {}
  {
    var route := w.st.tracks[t];
    var late := if AllUpstreamTerminated(route) then Ends(c.late, t, GONE) else [];
    var dead := AllLegsTerminated(route) && (AllUpstreamTerminated(route) || PendingSubs(route) == {});
    DoneEndsIdle(w, t, v, c, late);
    DropIdlesNot(w, Ends(c.subs, t, v) + late, t, dead);
    assert PublishDoneTail(route, t, v, c) == Ends(c.subs, t, v) + late + DropIf(t, dead);
  }

  // ---- SessionClosed ----

  /** Closing a session unsubscribes every leg nobody needs. */
  lemma ClosedIdlesNot(st: State, s: SessionKey, t: TrackKey)
    ensures !Lingering(Closed(st, s), t)
  {
    if t in Closed(st, s).tracks {
      var r := st.tracks[t];
      assert Closed(st, s).tracks[t] == LeftRoute(r, s);
      var f := ForgetIn(r, s);
      assert NoActiveDownstream(f) ==> AllLegsTerminated(StoppedRoute(f, LiveLegs(f)));
    }
  }

  // ---- One event, and whole runs ----

  /** Messages whose acts can leave t without a subscription. */
  predicate Touches(st: State, s: SessionKey, m: ControlMessage, t: TrackKey) {
    || Concerns(st, s, m, t)
    || (m.Unsubscribe? && RequestKey(s, m.requestId) in st.downIndex && st.downIndex[RequestKey(s, m.requestId)] == t)
  }

  lemma ControlRetaining(cfg: RelayConfig, w: World, s: SessionKey, ch: Channel, m: ControlMessage, c: Choice,
                         t: TrackKey)
    requires s in w.st.sessions && !Touches(w.st, s, m, t)
    ensures Only(ControlPlan(cfg, w, s, ch, m, c), Retaining(t))
  {
    var p := Retaining(t);
    if m.PublishNamespace? {
      OnlyOffers(c.tracks, s, m.trackNamespace, p);
    } else if m.Subscribe? {
      OnlyOpenLegs(c.peers, TrackKey(m.trackNamespace, m.trackName), p);
    } else if m.SubscribeOk? {
      if RequestKey(s, m.requestId) in w.st.upIndex {
        OnlyGrants(c.subs, w.st.upIndex[RequestKey(s, m.requestId)], m.trackExtensions, p);
      }
    } else if m.RequestError? || m.PublishDone? {
      EndingRetains(cfg, w, s, ch, m, c, t);
    } else if m.Unsubscribe? {
      if RequestKey(s, m.requestId) in w.st.downIndex {
        OnlyUnsubs(c.peers, w.st.downIndex[RequestKey(s, m.requestId)], false, p);
      }
    }
  }

  lemma EndingRetains(cfg: RelayConfig, w: World, s: SessionKey, ch: Channel, m: ControlMessage, c: Choice, t: TrackKey)
    requires s in w.st.sessions && (m.RequestError? || m.PublishDone?) && !Indexed(w.st, s, m.requestId, t)
    ensures Only(ControlPlan(cfg, w, s, ch, m, c), Retaining(t))
  {
    var x := RequestKey(s, m.requestId);
    if w.st.sessions[s].setupDone && x in w.st.upIndex && w.st.upIndex[x] in w.st.tracks {
      var u := w.st.upIndex[x];
      OnlyEnds(c.subs, u, if m.RequestError? then Refused(m.errorCode, m.retryInterval, m.errorReason)
                          else Completed(m.statusCode, m.streamCount, m.errorReason), Retaining(t));
      OnlyEnds(c.late, u, GONE, Retaining(t));
    }
  }

  lemma ControlIdles(cfg: RelayConfig, w: World, s: SessionKey, ch: Channel, m: ControlMessage, c: Choice, t: TrackKey)
    requires Inv(w) && FairControl(w.st, s, m, c) && Legal(w, ControlPlan(cfg, w, s, ch, m, c))
    ensures Lingering(Exec(w, ControlPlan(cfg, w, s, ch, m, c)).st, t) && !Lingering(w.st, t)
       <==> Idles(w.st, Control(s, ch, m), t)
  {
    if s !in w.st.sessions {
      RetainingOnly(w, Violation(s), t);
    } else if Touches(w.st, s, m, t) {
      TouchingIdles(cfg, w, s, ch, m, c, t);
    } else {
      ControlRetaining(cfg, w, s, ch, m, c, t);
      RetainingOnly(w, ControlPlan(cfg, w, s, ch, m, c), t);
    }
  }

  lemma TouchingIdles(cfg: RelayConfig, w: World, s: SessionKey, ch: Channel, m: ControlMessage, c: Choice, t: TrackKey)
    requires Inv(w) && FairControl(w.st, s, m, c) && Legal(w, ControlPlan(cfg, w, s, ch, m, c))
    requires s in w.st.sessions && Touches(w.st, s, m, t)
    ensures Lingering(Exec(w, ControlPlan(cfg, w, s, ch, m, c)).st, t) && !Lingering(w.st, t)
       <==> Idles(w.st, Control(s, ch, m), t)
  {
    if m.Subscribe? {
      SubscribeIdlesNot(w, s, ch, m.requestId, t, m.parameters, c);
    } else if m.Unsubscribe? {
      SubscriberIsSetUp(w.st, t, RequestKey(s, m.requestId));
      UnsubscribeIdlesNot(w, s, m.requestId, c, t);
    } else {
      EndingIdles(cfg, w, s, ch, m, c, t);
    }
  }

  lemma EndingIdles(cfg: RelayConfig, w: World, s: SessionKey, ch: Channel, m: ControlMessage, c: Choice, t: TrackKey)
    requires Inv(w) && FairControl(w.st, s, m, c)
    requires s in w.st.sessions && (m.RequestError? || m.PublishDone?) && Indexed(w.st, s, m.requestId, t)
    ensures Lingering(Exec(w, ControlPlan(cfg, w, s, ch, m, c)).st, t) && !Lingering(w.st, t)
       <==> Idles(w.st, Control(s, ch, m), t)
  {
    assert w.st.sessions[s].setupDone;
    if t !in w.st.tracks {
      EndingMisses(cfg, w, s, m.requestId, ch, m, c);
    } else if m.RequestError? {
      RequestErrorIdlesNot(w, s, m.requestId, Refused(m.errorCode, m.retryInterval, m.errorReason), c, t);
    } else {
      PublishDoneIdles(w, s, m.requestId, Completed(m.statusCode, m.streamCount, m.errorReason), c, t);
    }
  }

  lemma IdleStep(cfg: RelayConfig, w: World, x: Stimulus, t: TrackKey)
    requires ConfigOk(cfg) && Inv(w) && TraceInv(w) && Admissible(w, x)
    ensures Lingering(Step(cfg, w, x).st, t) && !Lingering(w.st, t) <==> Idles(w.st, x.event, t)
  {
    var w1 := Receive(w, x.event);
    ReceiveKeeps(w, x.event);
    PlanLegal(cfg, w, x);
    match x.event
    case SessionOpened(_, _) => RetainingOnly(w1, Plan(cfg, w1, x.event, x.choice), t);
    case SessionClosed(s) =>
      ClosePlanEffect(w1, s, x.choice);
      ClosedIdlesNot(w.st, s, t);
    case Control(s, ch, m) => ControlIdles(cfg, w1, s, ch, m, x.choice, t);
    case ObjectReceived(s, alias, body) => ObjectPlanLegal(w1, s, alias, body, x.choice);
    case FetchObjectReceived(_) =>
  }

  /** A track comes to have a live leg and no live subscription by one kind of event and by no other:
      PUBLISH_DONE that resolves to it while another leg is live, somebody is Established and nobody Pending. */
  lemma LingeringIff(cfg: RelayConfig, run: seq<Stimulus>, x: Stimulus, t: TrackKey)
    requires ConfigOk(cfg) && ValidRun(cfg, run + [x])
    ensures var st, st' := Reach(cfg, run).st, Reach(cfg, run + [x]).st;
            Lingering(st', t) && !Lingering(st, t) <==> Idles(st, x.event, t)
  {
    SplitStep(cfg, run, x);
    Reachable(cfg, run);
    IdleStep(cfg, Reach(cfg, run), x, t);
  }
}
