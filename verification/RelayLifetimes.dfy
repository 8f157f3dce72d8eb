/** When a track gets its route and when it loses it, and what a subscriber hears at once. */
module RelayLifetimes {
  import opened MoqTypes
  import opened RelayState
  import opened RelayLog
  import opened RelayActs
  import opened RelayPlan
  import opened RelayInv
  import opened RelayTrace
  import opened RelayLegal
  import opened RelayHandlers
  import opened RelayRuns
  import opened RelayFinality
  import opened RelayTheorems
  import opened RelayMatching
  import opened RelayRouting

  // ---- What begins and ends a route ----

  /** The SUBSCRIBE is in order and somebody publishes the track, or serves it already. */
  ghost predicate BeginsRoute(st: State, ev: Event, t: TrackKey) {
    && ev.Control? && ev.message.Subscribe? && t == TrackKey(ev.message.trackNamespace, ev.message.trackName)
    && Acceptable(st, ev.session, ev.message.requestId)
    && exists p :: OwnsPrefix(st, p, t.namespace)
  }

  /** Nobody on either side is of any other session. */
  predicate OnlyOf(r: TrackRoute, s: SessionKey) {
    (forall k :: k in r.downs ==> k.session == s) && (forall p :: p in r.ups ==> p == s)
  }

  /** All legs but that of s have ended. */
  predicate OthersEnded(r: TrackRoute, s: SessionKey) {
    forall p :: p in r.ups && p != s ==> r.ups[p].state.Terminated?
  }

  predicate OnlyLive(r: TrackRoute, k: RequestKey) {
    forall j :: j in r.downs && j != k ==> !Live(r.downs[j].state)
  }

  /** The route goes: with its last session; with a SUBSCRIBE that finds it dead and nobody to serve it; with the
      last leg that ends, unless somebody would be left behind; with the last subscription. */
  ghost predicate MessageEndsRoute(st: State, s: SessionKey, m: ControlMessage, t: TrackKey)
    requires t in st.tracks
  {
    var r := st.tracks[t];
    match m
    case Subscribe(id, ns, name, _) =>
      && t == TrackKey(ns, name) && Acceptable(st, s, id)
      && NoActiveDownstream(r) && r.ups == map[] && !exists p :: OwnsPrefix(st, p, ns)
    case RequestError(id, _, _, _) =>
      Indexed(st, s, id, t) && OthersEnded(r, s) && r.ups != map[] && EstablishedSubs(r) == {}
    case PublishDone(id, _, _, _) =>
      Indexed(st, s, id, t) && OthersEnded(r, s) && (r.ups != map[] || PendingSubs(r) == {})
    case Unsubscribe(id) =>
      HasSub(st, t, RequestKey(s, id)) && Live(r.downs[RequestKey(s, id)].state) && OnlyLive(r, RequestKey(s, id))
    case _ => false
  }

  ghost predicate EndsRoute(st: State, ev: Event, t: TrackKey) {
    && t in st.tracks
    && match ev
       case SessionClosed(s) => OnlyOf(st.tracks[t], s)
       case Control(s, _, m) => s in st.sessions && MessageEndsRoute(st, s, m, t)
       case _ => false
  }

  // ---- Acts that neither begin nor end a route ----

  function Lasting(): Act -> bool { (a: Act) => !a.AddSub? && !a.Drop? && !a.Depart? }

  lemma RouteLasts(st: State, act: Act, t: TrackKey)
    requires !act.AddSub? && !act.Drop? && !act.Depart?
    ensures t in Apply(st, act).tracks <==> t in st.tracks
  {
  }

  lemma {:induction false} RouteLastsRun(w: World, acts: seq<Act>, t: TrackKey)
    requires Only(acts, Lasting())
    ensures t in Exec(w, acts).st.tracks <==> t in w.st.tracks
  {
    if acts != [] {
      var n := |acts| - 1;
      assert Lasting()(acts[n]);
      RouteLastsRun(w, acts[..n], t);
      RouteLasts(Exec(w, acts[..n]).st, acts[n], t);
    }
  }

  lemma DropLast(w: World, pre: seq<Act>, u: TrackKey, dead: bool, t: TrackKey)
    requires Only(pre, Lasting())
    ensures t in Exec(w, pre + DropIf(u, dead)).st.tracks <==> t in w.st.tracks && !(dead && t == u)
  {
    RouteLastsRun(w, pre, t);
    if dead {
      ExecSnoc(w, pre, Drop(u));
    } else {
      assert pre + DropIf(u, dead) == pre;
    }
  }

  // ---- Messages that end something ----

  lemma EndedLegs(st: State, s: SessionKey, r: nat, t: TrackKey)
    requires t in st.tracks
    ensures var after := RouteOr(Apply(st, EndLeg(s, r, t)), t);
            && after.downs == st.tracks[t].downs && (after.ups == map[] <==> st.tracks[t].ups == map[])
            && (AllLegsTerminated(after) <==> OthersEnded(st.tracks[t], s))
  {
    var before, after := st.tracks[t], RouteOr(Apply(st, EndLeg(s, r, t)), t);
    assert after.ups.Keys == before.ups.Keys;
    forall p | p in before.ups ensures after.ups[p].state.Terminated? <==> p == s || before.ups[p].state.Terminated? { }
  }

  lemma SameSubs(a: TrackRoute, b: TrackRoute)
    requires a.downs == b.downs
    ensures EstablishedSubs(a) == EstablishedSubs(b) && PendingSubs(a) == PendingSubs(b)
  {
  }

  lemma ErrorEndsRoute(w: World, s: SessionKey, r: nat, v: Verdict, c: Choice, t: TrackKey)
    requires s in w.st.sessions && w.st.sessions[s].setupDone && v.Refused?
    ensures t in Exec(w, RequestErrorPlan(w, s, r, v, c)).st.tracks
       <==> t in w.st.tracks
            && !(Indexed(w.st, s, r, t) && OthersEnded(w.st.tracks[t], s) && w.st.tracks[t].ups != map[]
                 && EstablishedSubs(w.st.tracks[t]) == {})
  {
    var x := RequestKey(s, r);
    if x in w.st.upIndex && w.st.upIndex[x] in w.st.tracks {
      var u := w.st.upIndex[x];
      var route := RouteOr(Apply(w.st, EndLeg(s, r, u)), u);
      EndedLegs(w.st, s, r, u);
      SameSubs(route, w.st.tracks[u]);
      OnlyEnds(c.subs, u, v, Lasting());
      var pre := [EndLeg(s, r, u)] + (if AllUpstreamTerminated(route) then Ends(c.subs, u, v) else []);
      var dead := AllUpstreamTerminated(route) && EstablishedSubs(route) == {};
      assert RequestErrorPlan(w, s, r, v, c) == pre + DropIf(u, dead);
      DropLast(w, pre, u, dead, t);
    }
  }

  lemma DoneEndsRoute(w: World, s: SessionKey, r: nat, v: Verdict, c: Choice, t: TrackKey)
    requires s in w.st.sessions && w.st.sessions[s].setupDone && v.Completed?
    ensures t in Exec(w, PublishDonePlan(w, s, r, v, c)).st.tracks
       <==> t in w.st.tracks
            && !(Indexed(w.st, s, r, t) && OthersEnded(w.st.tracks[t], s)
                 && (w.st.tracks[t].ups != map[] || PendingSubs(w.st.tracks[t]) == {}))
  {
    var x := RequestKey(s, r);
    if x in w.st.upIndex && w.st.upIndex[x] in w.st.tracks {
      var u := w.st.upIndex[x];
      var route := RouteOr(Apply(w.st, EndLeg(s, r, u)), u);
      EndedLegs(w.st, s, r, u);
      SameSubs(route, w.st.tracks[u]);
      OnlyEnds(c.subs, u, v, Lasting());
      OnlyEnds(c.late, u, GONE, Lasting());
      var pre := [EndLeg(s, r, u)]
                 + (Ends(c.subs, u, v) + (if AllUpstreamTerminated(route) then Ends(c.late, u, GONE) else []));
      var dead := AllLegsTerminated(route) && (AllUpstreamTerminated(route) || PendingSubs(route) == {});
      assert PublishDonePlan(w, s, r, v, c) == pre + DropIf(u, dead);
      DropLast(w, pre, u, dead, t);
    }
  }

  lemma UnsubscribeEndsRoute(w: World, s: SessionKey, id: nat, c: Choice, t: TrackKey)
    requires Inv(w) && s in w.st.sessions && w.st.sessions[s].setupDone
    ensures t in Exec(w, UnsubscribePlan(w, s, id, c)).st.tracks
       <==> t in w.st.tracks
            && !(HasSub(w.st, t, RequestKey(s, id)) && Live(w.st.tracks[t].downs[RequestKey(s, id)].state)
                 && OnlyLive(w.st.tracks[t], RequestKey(s, id)))
  {
    var k := RequestKey(s, id);
    IndexedIffLive(w, k);
    if k in w.st.downIndex {
      var u := w.st.downIndex[k];
      assert HasSub(w.st, u, k);
      LastOut(w.st, u, k);
      OnlyUnsubs(c.peers, u, false, Lasting());
      var dead := OnlyLive(w.st.tracks[u], k);
      var pre := [End(k, u, ControlStream, Withdrawn)] + (if dead then Unsubs(c.peers, u, false) else []);
      assert UnsubscribePlan(w, s, id, c) == pre + DropIf(u, dead);
      DropLast(w, pre, u, dead, t);
    } else {
      RouteLastsRun(w, UnsubscribePlan(w, s, id, c), t);
    }
  }

  lemma LastOut(st: State, t: TrackKey, k: RequestKey)
    requires HasSub(st, t, k)
    ensures NoActiveDownstream(RouteOr(Apply(st, End(k, t, ControlStream, Withdrawn)), t))
       <==> OnlyLive(st.tracks[t], k)
  {
    var after := RouteOr(Apply(st, End(k, t, ControlStream, Withdrawn)), t);
    assert after.downs.Keys == st.tracks[t].downs.Keys;
    forall j | j in after.downs ensures Live(after.downs[j].state) <==> j != k && Live(st.tracks[t].downs[j].state) { }
  }

  // ---- SUBSCRIBE ----

  /** No publisher matches exactly when nobody owns a prefix. */
  lemma NobodyMatches(st: State, ns: Namespace)
    requires PubInv(st)
    ensures MatchPublishers(st, ns) == {} <==> !exists p :: OwnsPrefix(st, p, ns)
  {
    if p :| OwnsPrefix(st, p, ns) { MatchIsOwnership(st, ns, p); }
    if p :| p in MatchPublishers(st, ns) { MatchIsOwnership(st, ns, p); }
  }

  /** After the subscriber has been recorded its track has a route, which a refusal may take away again. */
  lemma AddedRoute(w: World, add: Act, pre: seq<Act>, dead: bool, t: TrackKey)
    requires add.AddSub? && add.k.session in w.st.sessions && Only(pre, Lasting())
    ensures t in Exec(w, [add] + (pre + DropIf(add.t, dead))).st.tracks
       <==> (t in w.st.tracks || t == add.t) && !(dead && t == add.t)
  {
    ExecAppend(w, [add], pre + DropIf(add.t, dead));
    SingleAct(w, add);
    DropLast(ApplyWorld(w, add), pre, add.t, dead, t);
  }

  lemma SubscribeRoute(w: World, ch: Channel, k: RequestKey, u: TrackKey, params: Parameters, c: Choice, t: TrackKey)
    requires k.session in w.st.sessions && w.st.sessions[k.session].setupDone
    requires PeerIdError(w.st.sessions[k.session], k.id).None?
    ensures t in Exec(w, SubscribePlan(w, k.session, ch, k.id, u, params, c)).st.tracks
       <==> (t in w.st.tracks || t == u) && !(FindsNobody(w.st, u) && t == u)
  {
    var acts, route := SubscribePlan(w, k.session, ch, k.id, u, params, c), RouteOr(w.st, u);
    var add := AddSub(k, u, params);
    if HasEstablishedUpstream(route) {
      var grant := Grant(k, u, ch, if route.extensions.Some? then route.extensions.value else []);
      assert acts == [add] + ([grant] + DropIf(u, false));
      AddedRoute(w, add, [grant], false, t);
    } else if MatchPublishers(w.st, u.namespace) == {} {
      var end := End(k, u, ch, Refused(DOES_NOT_EXIST, 0, NO_PUBLISHER));
      var dead := AllDownTerminated(route) && route.ups == map[];
      assert acts == [add] + ([end] + DropIf(u, dead));
      AddedRoute(w, add, [end], dead, t);
    } else {
      OnlyOpenLegs(c.peers, u, Lasting());
      assert acts == [add] + (OpenLegs(c.peers, u) + DropIf(u, false));
      AddedRoute(w, add, OpenLegs(c.peers, u), false, t);
    }
  }

  // ---- One step ----

  /** Other messages, and refusals, begin and end no route. */
  lemma OthersLast(cfg: RelayConfig, w: World, s: SessionKey, ch: Channel, m: ControlMessage, c: Choice)
    requires s in w.st.sessions
    requires !m.Subscribe? && !m.RequestError? && !m.PublishDone? && !m.Unsubscribe?
    ensures forall i :: 0 <= i < |ControlPlan(cfg, w, s, ch, m, c)| ==> Lasting()(ControlPlan(cfg, w, s, ch, m, c)[i])
  {
    if m.PublishNamespace? {
      OnlyOffers(c.tracks, s, m.trackNamespace, Lasting());
    } else if m.SubscribeOk? && RequestKey(s, m.requestId) in w.st.upIndex {
      OnlyGrants(c.subs, w.st.upIndex[RequestKey(s, m.requestId)], m.trackExtensions, Lasting());
    }
  }

  /** A route after an event: there before and not ended, or begun. */
  ghost predicate RouteAfter(st: State, ev: Event, t: TrackKey) {
    (t in st.tracks && !EndsRoute(st, ev, t)) || (t !in st.tracks && BeginsRoute(st, ev, t))
  }

  lemma MessageRoute(cfg: RelayConfig, w: World, s: SessionKey, ch: Channel, m: ControlMessage, c: Choice, t: TrackKey)
    requires Inv(w)
    ensures t in Exec(w, ControlPlan(cfg, w, s, ch, m, c)).st.tracks <==> RouteAfter(w.st, Control(s, ch, m), t)
  {
    if s !in w.st.sessions {
      RouteLastsRun(w, Violation(s), t);
    } else if m.Subscribe? {
      SubscribeAfter(w, s, ch, m, c, t);
    } else if m.RequestError? || m.PublishDone? || m.Unsubscribe? {
      EndingAfter(cfg, w, s, ch, m, c, t);
    } else {
      OthersLast(cfg, w, s, ch, m, c);
      RouteLastsRun(w, ControlPlan(cfg, w, s, ch, m, c), t);
    }
  }

  lemma SubscribeAfter(w: World, s: SessionKey, ch: Channel, m: ControlMessage, c: Choice, t: TrackKey)
    requires Inv(w) && s in w.st.sessions && m.Subscribe?
    ensures var u := TrackKey(m.trackNamespace, m.trackName);
            t in Exec(w, SubscribePlan(w, s, ch, m.requestId, u, m.parameters, c)).st.tracks
            <==> RouteAfter(w.st, Control(s, ch, m), t)
  {
    var u := TrackKey(m.trackNamespace, m.trackName);
    assert SessionOk(w.st.sessions[s]);
    if Acceptable(w.st, s, m.requestId) {
      SubscribeRoute(w, ch, RequestKey(s, m.requestId), u, m.parameters, c, t);
      AcceptedRoute(w.st, s, ch, m, t);
    } else {
      RefusedPlan(w, s, ch, m.requestId, u, m.parameters, c);
      RouteLastsRun(w, SubscribePlan(w, s, ch, m.requestId, u, m.parameters, c), t);
    }
  }

  lemma RefusedPlan(w: World, s: SessionKey, ch: Channel, id: nat, u: TrackKey, params: Parameters, c: Choice)
    requires s in w.st.sessions && SessionOk(w.st.sessions[s]) && !Acceptable(w.st, s, id)
    ensures Only(SubscribePlan(w, s, ch, id, u, params, c), Lasting())
  {
  }

  /** A SUBSCRIBE that nobody can serve leaves no route without anybody else on it. */
  predicate FindsNobody(st: State, u: TrackKey) {
    && !HasEstablishedUpstream(RouteOr(st, u)) && MatchPublishers(st, u.namespace) == {}
    && AllDownTerminated(RouteOr(st, u)) && RouteOr(st, u).ups == map[]
  }

  lemma AcceptedRoute(st: State, s: SessionKey, ch: Channel, m: ControlMessage, t: TrackKey)
    requires PubInv(st) && m.Subscribe? && Acceptable(st, s, m.requestId)
    ensures var u := TrackKey(m.trackNamespace, m.trackName);
            (t in st.tracks || t == u) && !(FindsNobody(st, u) && t == u) <==> RouteAfter(st, Control(s, ch, m), t)
  {
    NobodyMatches(st, m.trackNamespace);
    TerminatedMeans(RouteOr(st, TrackKey(m.trackNamespace, m.trackName)));
  }

  lemma TerminatedMeans(r: TrackRoute)
    ensures AllDownTerminated(r) <==> NoActiveDownstream(r)
    ensures r.ups == map[] ==> !HasEstablishedUpstream(r)
  {
  }

  lemma EndingAfter(cfg: RelayConfig, w: World, s: SessionKey, ch: Channel, m: ControlMessage, c: Choice, t: TrackKey)
    requires Inv(w) && s in w.st.sessions && (m.RequestError? || m.PublishDone? || m.Unsubscribe?)
    ensures t in Exec(w, ControlPlan(cfg, w, s, ch, m, c)).st.tracks <==> RouteAfter(w.st, Control(s, ch, m), t)
  {
    if !w.st.sessions[s].setupDone {
      TooEarly(cfg, w, s, ch, m, c, t);
    } else {
      EndingMessage(cfg, w, s, ch, m, c, t);
    }
  }

  lemma EndingMessage(cfg: RelayConfig, w: World, s: SessionKey, ch: Channel, m: ControlMessage, c: Choice,
                      t: TrackKey)
    requires Inv(w) && s in w.st.sessions && (m.RequestError? || m.PublishDone? || m.Unsubscribe?)
    requires w.st.sessions[s].setupDone
    ensures t in Exec(w, ControlPlan(cfg, w, s, ch, m, c)).st.tracks
       <==> t in w.st.tracks && !MessageEndsRoute(w.st, s, m, t)
  {
    if m.RequestError? {
      ErrorEndsRoute(w, s, m.requestId, Refused(m.errorCode, m.retryInterval, m.errorReason), c, t);
    } else if m.PublishDone? {
      DoneEndsRoute(w, s, m.requestId, Completed(m.statusCode, m.streamCount, m.errorReason), c, t);
    } else {
      UnsubscribeEndsRoute(w, s, m.requestId, c, t);
    }
  }

  lemma TooEarly(cfg: RelayConfig, w: World, s: SessionKey, ch: Channel, m: ControlMessage, c: Choice, t: TrackKey)
    requires Inv(w) && s in w.st.sessions && (m.RequestError? || m.PublishDone? || m.Unsubscribe?)
    requires !w.st.sessions[s].setupDone
    ensures t in Exec(w, ControlPlan(cfg, w, s, ch, m, c)).st.tracks <==> t in w.st.tracks
    ensures t in w.st.tracks ==> !MessageEndsRoute(w.st, s, m, t)
  {
    if t in w.st.tracks { NotSetUp(w, s, m, t); }
    RouteLastsRun(w, Violation(s), t);
  }

  /** Before set-up a session is on no track. */
  lemma NotSetUp(w: World, s: SessionKey, m: ControlMessage, t: TrackKey)
    requires Inv(w) && s in w.st.sessions && !w.st.sessions[s].setupDone && t in w.st.tracks
    requires m.RequestError? || m.PublishDone? || m.Unsubscribe?
    ensures !MessageEndsRoute(w.st, s, m, t)
  {
    if m.Unsubscribe? { NoSubYet(w.st, t, RequestKey(s, m.requestId)); }
  }

  lemma NoSubYet(st: State, t: TrackKey, k: RequestKey)
    requires DownInv(st) && k.session in st.sessions && !st.sessions[k.session].setupDone
    ensures !HasSub(st, t, k)
  {
  }

  lemma ClosedRoute(st: State, s: SessionKey, t: TrackKey)
    ensures t in Closed(st, s).tracks <==> t in st.tracks && !OnlyOf(st.tracks[t], s)
  {
    if t in st.tracks {
      var r := LeftRoute(st.tracks[t], s);
      assert forall k :: k in r.downs <==> k in st.tracks[t].downs && k.session != s;
      assert forall p :: p in r.ups <==> p in st.tracks[t].ups && p != s;
      assert r.downs == map[] <==> forall k :: k !in r.downs;
      assert r.ups == map[] <==> forall p :: p !in r.ups;
    }
  }

  lemma RouteStep(cfg: RelayConfig, w: World, x: Stimulus, t: TrackKey)
    requires ConfigOk(cfg) && Inv(w) && TraceInv(w) && Admissible(w, x)
    ensures t in Step(cfg, w, x).st.tracks <==> RouteAfter(w.st, x.event, t)
  {
    var w1 := Receive(w, x.event);
    ReceiveKeeps(w, x.event);
    match x.event
    case SessionClosed(s) =>
      ClosePlanEffect(w1, s, x.choice);
      ClosedRoute(w.st, s, t);
    case Control(s, ch, m) => MessageRoute(cfg, w1, s, ch, m, x.choice, t);
    case _ =>
      OtherEventsLast(cfg, w1, x);
      RouteLastsRun(w1, Plan(cfg, w1, x.event, x.choice), t);
  }

  lemma OtherEventsLast(cfg: RelayConfig, w: World, x: Stimulus)
    requires !x.event.SessionClosed? && !x.event.Control?
    ensures Only(Plan(cfg, w, x.event, x.choice), Lasting())
  {
    if x.event.ObjectReceived? && x.event.session in w.st.sessions
       && x.event.alias in w.st.sessions[x.event.session].inbound {
      OnlyForwards(x.choice.subs, w.st.sessions[x.event.session].inbound[x.event.alias], x.event.body, Lasting());
    }
  }

  /** A track gets a route by an accepted SUBSCRIBE that somebody can serve, and loses it by the events of
      EndsRoute: in both directions, and in no other way. */
  lemma RouteIff(cfg: RelayConfig, run: seq<Stimulus>, x: Stimulus, t: TrackKey)
    requires ConfigOk(cfg) && ValidRun(cfg, run + [x])
    ensures var st, st' := Reach(cfg, run).st, Reach(cfg, run + [x]).st;
            && (t !in st.tracks ==> (t in st'.tracks <==> BeginsRoute(st, x.event, t)))
            && (t in st.tracks ==> (t !in st'.tracks <==> EndsRoute(st, x.event, t)))
  {
    SplitStep(cfg, run, x);
    Reachable(cfg, run);
    RouteStep(cfg, Reach(cfg, run), x, t);
  }

  // ---- What a subscriber hears at once ----

  function Wordless(k: RequestKey): Act -> bool { (a: Act) => !((a.Grant? || a.End?) && a.k == k) }

  lemma {:induction false} NothingSaid(w: World, acts: seq<Act>, k: RequestKey)
    requires Legal(w, acts) && Only(acts, Wordless(k))
    ensures Replies(Exec(w, acts).log, k) == Replies(w.log, k)
  {
    if acts != [] {
      var n := |acts| - 1;
      assert Wordless(k)(acts[n]);
      NothingSaid(w, acts[..n], k);
      RepliesGrow(Exec(w, acts[..n]), acts[n], k);
    }
  }

  lemma FirstTwo(w: World, acts: seq<Act>)
    requires |acts| >= 2
    ensures Exec(w, acts) == Exec(ApplyWorld(ApplyWorld(w, acts[0]), acts[1]), acts[2..])
    ensures Legal(w, acts) ==> Enabled(w, acts[0]) && Enabled(ApplyWorld(w, acts[0]), acts[1])
    ensures Legal(w, acts) ==> Legal(ApplyWorld(ApplyWorld(w, acts[0]), acts[1]), acts[2..])
  {
    assert acts == [acts[0], acts[1]] + acts[2..];
    ExecAppend(w, [acts[0], acts[1]], acts[2..]);
    TwoActs(w, acts[0], acts[1]);
  }

  /** The subscriber is recorded, and one act later it may have its answer. */
  lemma AnswerNext(w: World, acts: seq<Act>, k: RequestKey)
    requires Legal(w, acts) && |acts| >= 2 && Wordless(k)(acts[0]) && Only(acts[2..], Wordless(k))
    ensures Replies(Exec(w, acts).log, k) == Replies(w.log, k) + NewReply(Apply(w.st, acts[0]), acts[1], k)
  {
    var w1 := ApplyWorld(w, acts[0]);
    FirstTwo(w, acts);
    RepliesGrow(w, acts[0], k);
    assert Replies(w1.log, k) == Replies(w.log, k);
    RepliesGrow(w1, acts[1], k);
    NothingSaid(ApplyWorld(w1, acts[1]), acts[2..], k);
  }

  lemma SubscribeAnswer(w: World, ch: Channel, k: RequestKey, t: TrackKey, params: Parameters, c: Choice)
    requires Inv(w) && Acceptable(w.st, k.session, k.id)
             && Legal(w, SubscribePlan(w, k.session, ch, k.id, t, params, c))
    ensures Replies(Exec(w, SubscribePlan(w, k.session, ch, k.id, t, params, c)).log, k)
         == Replies(w.log, k)
            + (if HasEstablishedUpstream(RouteOr(w.st, t)) then [Accepted(w.st.sessions[k.session].nextOutbound)]
               else if MatchPublishers(w.st, t.namespace) == {} then [Failed]
               else [])
  {
    var acts := SubscribePlan(w, k.session, ch, k.id, t, params, c);
    assert SessionOk(w.st.sessions[k.session]) && k == RequestKey(k.session, k.id);
    if HasEstablishedUpstream(RouteOr(w.st, t)) || MatchPublishers(w.st, t.namespace) == {} {
      AnswerIsSecond(w, ch, k, t, params, c);
      AnswerNext(w, acts, k);
      AliasKept(w.st, acts[0], k.session);
    } else {
      OnlyOpenLegs(c.peers, t, Wordless(k));
      NothingSaid(w, acts, k);
      assert Replies(w.log, k) + [] == Replies(w.log, k);
    }
  }

  lemma AnswerIsSecond(w: World, ch: Channel, k: RequestKey, t: TrackKey, params: Parameters, c: Choice)
    requires Acceptable(w.st, k.session, k.id) && SessionOk(w.st.sessions[k.session])
    requires HasEstablishedUpstream(RouteOr(w.st, t)) || MatchPublishers(w.st, t.namespace) == {}
    ensures var acts := SubscribePlan(w, k.session, ch, k.id, t, params, c);
            && |acts| >= 2 && acts[0] == AddSub(k, t, params) && Only(acts[2..], Wordless(k))
            && (if HasEstablishedUpstream(RouteOr(w.st, t)) then acts[1].Grant?
                else (acts[1].End? && acts[1].verdict.Refused?))
            && acts[1].k == k
  {
    assert k == RequestKey(k.session, k.id);
  }

  lemma AliasKept(st: State, act: Act, s: SessionKey)
    requires act.AddSub? && s in st.sessions
    ensures s in Apply(st, act).sessions && Apply(st, act).sessions[s].nextOutbound == st.sessions[s].nextOutbound
  {
  }

  /** An accepted SUBSCRIBE is answered at once: with SUBSCRIBE_OK if some publisher serves the track, with
      REQUEST_ERROR if nobody publishes it, and not yet otherwise. */
  lemma AnsweredAtOnce(cfg: RelayConfig, run: seq<Stimulus>, x: Stimulus, k: RequestKey, ch: Channel, t: TrackKey,
                       params: Parameters)
    requires ConfigOk(cfg) && ValidRun(cfg, run + [x]) && !Refuses(Reach(cfg, run), Reach(cfg, run + [x]))
    requires x.event == Control(k.session, ch, Subscribe(k.id, t.namespace, t.name, params))
    ensures var w, w' := Reach(cfg, run), Reach(cfg, run + [x]);
            && k.session in w.st.sessions
            && Replies(w'.log, k)
               == if HasEstablishedUpstream(RouteOr(w.st, t)) then [Accepted(w.st.sessions[k.session].nextOutbound)]
                  else if exists p :: OwnsPrefix(w.st, p, t.namespace) then [] else [Failed]
  {
    var w := Reach(cfg, run);
    SplitStep(cfg, run, x);
    Reachable(cfg, run);
    RequestStep(cfg, w, x, k.session);
    PlanLegal(cfg, w, x);
    ReceiveKeeps(w, x.event);
    ReceiveReplies(w, x.event, k);
    NobodyMatches(w.st, t.namespace);
    SubscribeAnswer(Receive(w, x.event), ch, k, t, params, x.choice);
    assert RepliesFit(w, k, Replies(w.log, k));
  }
}
