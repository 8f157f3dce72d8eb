/** Legality of each control-message handler, and the step relation of the relay. */
module RelayHandlers {
  import opened MoqTypes
  import opened RelayState
  import opened RelayLog
  import opened RelayActs
  import opened RelayPlan
  import opened RelayInv
  import opened RelayLegal

  /** Integers that came off the wire are varints. */
  predicate WireOk(m: ControlMessage) {
    match m
    case MaxRequestId(max) => max <= MAX_VARINT
    case ServerSetup(params) =>
      forall i :: 0 <= i < |params| && params[i].value.Varint? ==> params[i].value.number <= MAX_VARINT
    case _ => true
  }

  lemma {:induction false} VarintParameterBound(ps: Parameters, key: nat)
    requires forall i :: 0 <= i < |ps| && ps[i].value.Varint? ==> ps[i].value.number <= MAX_VARINT
    ensures VarintParameter(ps, key).Some? ==> VarintParameter(ps, key).value <= MAX_VARINT
  {
    if ps != [] && !(ps[0].key == key && ps[0].value.Varint?) {
      forall i | 0 <= i < |ps[1..]| && ps[1..][i].value.Varint?
        ensures ps[1..][i].value.number <= MAX_VARINT
      {
        assert ps[1..][i] == ps[i + 1];
      }
      VarintParameterBound(ps[1..], key);
    }
  }

  lemma TwoActs(w: World, a: Act, b: Act)
    ensures Exec(w, [a, b]) == ApplyWorld(ApplyWorld(w, a), b)
    ensures Legal(w, [a, b]) <==> Enabled(w, a) && Enabled(ApplyWorld(w, a), b)
  {
    SingleAct(w, a);
    ExecSnoc(w, [a], b);
    assert [a] + [b] == [a, b];
  }

  lemma ClientSetupLegal(cfg: RelayConfig, w: World, s: SessionKey, ch: Channel)
    requires Inv(w) && s in w.st.sessions
    ensures Legal(w, ClientSetupPlan(cfg, s, w.st.sessions[s], ch))
  {
    var acts := ClientSetupPlan(cfg, s, w.st.sessions[s], ch);
    if |acts| == 2 {
      TwoActs(w, acts[0], acts[1]);
      assert acts == [acts[0], acts[1]];
    } else {
      SingleAct(w, acts[0]);
    }
  }

  lemma ServerSetupLegal(w: World, s: SessionKey, params: Parameters)
    requires Inv(w) && s in w.st.sessions && WireOk(ServerSetup(params))
    ensures Legal(w, ServerSetupPlan(s, w.st.sessions[s], params))
  {
    VarintParameterBound(params, PARAM_MAX_REQUEST_ID);
    SingleAct(w, ServerSetupPlan(s, w.st.sessions[s], params)[0]);
  }

  lemma MaxRequestIdLegal(w: World, s: SessionKey, max: nat)
    requires Inv(w) && s in w.st.sessions && max <= MAX_VARINT
    ensures Legal(w, MaxRequestIdPlan(s, w.st.sessions[s], max))
  {
    SingleAct(w, MaxRequestIdPlan(s, w.st.sessions[s], max)[0]);
  }

  lemma GoawayLegal(w: World, s: SessionKey, uri: Bytes)
    requires Inv(w) && s in w.st.sessions
    ensures Legal(w, GoawayPlan(s, w.st.sessions[s], uri))
  {
    SingleAct(w, GoawayPlan(s, w.st.sessions[s], uri)[0]);
  }

  lemma PublishNamespaceLegal(w: World, s: SessionKey, ch: Channel, id: nat, ns: Namespace, c: Choice)
    requires Inv(w) && s in w.st.sessions
    ensures Legal(w, PublishNamespacePlan(w, s, ch, id, ns, c))
  {
    var sess := w.st.sessions[s];
    if sess.setupDone && PeerIdError(sess, id).None? {
      var a, b := Announce(s, ns), Say(Send(s, ch, RequestOk(id, [])));
      TwoActs(w, a, b);
      var w2 := ApplyWorld(ApplyWorld(w, a), b);
      OfferTracksLegal(w2, c.tracks, s, ns);
      ExecAppend(w, [a, b], OfferTracks(c.tracks, s, ns));
    } else {
      SingleAct(w, PublishNamespacePlan(w, s, ch, id, ns, c)[0]);
    }
  }

  lemma {:induction false} MatchedAreSetUp(st: State, ns: Namespace, n: nat)
    requires SessInv(st) && PubInv(st) && n <= |ns|
    ensures forall p :: p in MatchUpTo(st, ns, n) ==> p in st.sessions && st.sessions[p].setupDone
  {
    if n != 0 {
      MatchedAreSetUp(st, ns, n - 1);
    }
  }

  lemma SubscribeLegal(w: World, s: SessionKey, ch: Channel, id: nat, t: TrackKey, params: Parameters, c: Choice)
    requires Inv(w) && s in w.st.sessions && IsOrder(c.peers, MatchPublishers(w.st, t.namespace))
    ensures Legal(w, SubscribePlan(w, s, ch, id, t, params, c))
  {
    var acts := SubscribePlan(w, s, ch, id, t, params, c);
    var sess := w.st.sessions[s];
    var route := RouteOr(w.st, t);
    if !sess.setupDone || PeerIdError(sess, id).Some? {
      SingleAct(w, acts[0]);
    } else {
      AcceptedSubscribeLegal(w, ch, RequestKey(s, id), t, params, c);
    }
  }

  /** What follows once the request id is accepted. */
  lemma AcceptedSubscribeLegal(w: World, ch: Channel, k: RequestKey, t: TrackKey, params: Parameters, c: Choice)
    requires Inv(w) && Enabled(w, AddSub(k, t, params)) && IsOrder(c.peers, MatchPublishers(w.st, t.namespace))
    ensures Legal(w, SubscribePlan(w, k.session, ch, k.id, t, params, c))
  {
    var add := AddSub(k, t, params);
    var w1 := ApplyWorld(w, add);
    SingleAct(w, add);
    assert k == RequestKey(k.session, k.id) && SessionOk(w.st.sessions[k.session]);
    if HasEstablishedUpstream(RouteOr(w.st, t)) {
      GrantAtOnceLegal(w, w1, ch, k, t, params);
    } else if MatchPublishers(w.st, t.namespace) == {} {
      RefuseLegal(w, w1, ch, k, t, params);
    } else {
      MatchedAreSetUp(w.st, t.namespace, |t.namespace|);
      OpenLegsLegal(w1, c.peers, t);
      ExecAppend(w, [add], OpenLegs(c.peers, t));
    }
  }

  lemma GrantAtOnceLegal(w: World, w1: World, ch: Channel, k: RequestKey, t: TrackKey, params: Parameters)
    requires Inv(w) && Enabled(w, AddSub(k, t, params)) && w1 == ApplyWorld(w, AddSub(k, t, params))
    requires HasEstablishedUpstream(RouteOr(w.st, t))
    ensures var route := RouteOr(w.st, t);
            var exts := if route.extensions.Some? then route.extensions.value else [];
            Legal(w, [AddSub(k, t, params), Grant(k, t, ch, exts)])
  {
    var route := RouteOr(w.st, t);
    TwoActs(w, AddSub(k, t, params), Grant(k, t, ch, if route.extensions.Some? then route.extensions.value else []));
    AddedSub(w.st, k, t, params);
  }

  /** A subscription just recorded: Pending, on a route whose legs are as they were. */
  lemma AddedSub(st: State, k: RequestKey, t: TrackKey, params: Parameters)
    requires k.session in st.sessions
    ensures var st1 := Apply(st, AddSub(k, t, params));
            && HasSub(st1, t, k) && Sub(st1, t, k).state.Pending? && k.session in st1.sessions
            && st1.tracks[t].ups == RouteOr(st, t).ups
  {
  }

  /** A subscription that is refused at once leaves a Terminated record behind. */
  lemma RefusedRoute(st: State, k: RequestKey, t: TrackKey, params: Parameters, ch: Channel, v: Verdict)
    requires k.session in st.sessions
    ensures var st1 := Apply(st, AddSub(k, t, params));
            var st2 := Apply(st1, End(k, t, ch, v));
            && HasSub(st1, t, k) && Sub(st1, t, k).state.Pending?
            && t in st2.tracks
            && var downs := RouteOr(st, t).downs[k := Downstream(Terminated, params, true, None)];
               st2.tracks[t] == RouteOr(st, t).(downs := downs)
  {
  }

  lemma RefuseLegal(w: World, w1: World, ch: Channel, k: RequestKey, t: TrackKey, params: Parameters)
    requires Inv(w) && Enabled(w, AddSub(k, t, params)) && w1 == ApplyWorld(w, AddSub(k, t, params))
    ensures Legal(w, [AddSub(k, t, params), End(k, t, ch, Refused(DOES_NOT_EXIST, 0, NO_PUBLISHER))]
                     + DropIf(t, AllDownTerminated(RouteOr(w.st, t)) && RouteOr(w.st, t).ups == map[]))
  {
    var add, refuse := AddSub(k, t, params), End(k, t, ch, Refused(DOES_NOT_EXIST, 0, NO_PUBLISHER));
    RefusedRoute(w.st, k, t, params, ch, refuse.verdict);
    TwoActs(w, add, refuse);
    if AllDownTerminated(RouteOr(w.st, t)) && RouteOr(w.st, t).ups == map[] {
      StillTerminated(RouteOr(w.st, t), k, Downstream(Terminated, params, true, None));
      DropLegal(w, [add, refuse], t);
    } else {
      assert [add, refuse] + [] == [add, refuse];
    }
  }

  lemma StillTerminated(r: TrackRoute, k: RequestKey, d: Downstream)
    requires AllDownTerminated(r) && d.state.Terminated? && r.ups == map[]
    ensures var r' := r.(downs := r.downs[k := d]); NoActiveDownstream(r') && AllLegsTerminated(r')
  {
  }

  lemma SubscribeOkLegal(w: World, s: SessionKey, r: nat, alias: nat, exts: Extensions, c: Choice)
    requires Inv(w) && s in w.st.sessions
    requires RequestKey(s, r) in w.st.upIndex ==>
               && AnsweredWith(w.log, s, r, alias, w.st.upIndex[RequestKey(s, r)])
               && IsOrder(c.subs, GrantableSubs(RouteOr(w.st, w.st.upIndex[RequestKey(s, r)])))
    ensures Legal(w, SubscribeOkPlan(w, s, r, alias, exts, c))
  {
    var x := RequestKey(s, r);
    if !w.st.sessions[s].setupDone || x !in w.st.upIndex || !HasLeg(w.st, w.st.upIndex[x], s)
       || !LegOf(w.st, w.st.upIndex[x], s).state.Pending?
    {
      SingleAct(w, Say(Close(s, ProtocolViolation)));
    } else {
      var t := w.st.upIndex[x];
      var ok := LegOk(s, t, alias);
      assert TrackAnswered(w.log, t);
      SingleAct(w, ok);
      if alias in w.st.sessions[s].inbound {
        ExecSnoc(w, [ok], Say(Close(s, DuplicateTrackAlias)));
      } else {
        var tail := [Bind(s, r, alias, t)] + (if exts == [] then [] else [SetExtensions(t, exts)])
            + Grants(c.subs, t, exts);
        BindAndGrantLegal(w, ApplyWorld(w, ok), s, r, alias, t, exts, c.subs);
        ExecAppend(w, [ok], tail);
      }
    }
  }

  /** The track after LegOk, Bind and SetExtensions: its subscriptions as before, one leg Established. */
  lemma BoundRoute(st: State, p: SessionKey, r: nat, alias: nat, t: TrackKey, exts: Extensions)
    requires HasLeg(st, t, p) && p in st.sessions
    ensures var st1 := Apply(st, LegOk(p, t, alias));
            var st2 := Apply(st1, Bind(p, r, alias, t));
            var st3 := if exts == [] then st2 else Apply(st2, SetExtensions(t, exts));
            && t in st2.tracks && t in st3.tracks && st3.tracks[t].downs == st.tracks[t].downs
            && HasEstablishedUpstream(st3.tracks[t])
            && st3.sessions.Keys == st.sessions.Keys
            && st1.upIndex == st.upIndex && st1.sessions == st.sessions
  {
    var st1 := Apply(st, LegOk(p, t, alias));
    assert st1.tracks[t].ups[p].state.Established?;
  }

  lemma GrantableStay(w: World, st3: State, t: TrackKey, subs: seq<RequestKey>)
    requires Inv(w) && t in w.st.tracks && IsOrder(subs, GrantableSubs(w.st.tracks[t]))
    requires t in st3.tracks && st3.tracks[t].downs == w.st.tracks[t].downs && st3.sessions.Keys == w.st.sessions.Keys
    ensures forall k :: k in subs ==> HasSub(st3, t, k) && Sub(st3, t, k).state.Pending? && k.session in st3.sessions
  {
    forall k | k in subs ensures HasSub(st3, t, k) && Sub(st3, t, k).state.Pending? && k.session in st3.sessions {
      assert HasSub(w.st, t, k) && SubOk(w.st, t, k);
    }
  }

  function BoundActs(s: SessionKey, r: nat, alias: nat, t: TrackKey, exts: Extensions): seq<Act> {
    [Bind(s, r, alias, t)] + (if exts == [] then [] else [SetExtensions(t, exts)])
  }

  lemma BindLegal(w: World, w1: World, s: SessionKey, r: nat, alias: nat, t: TrackKey, exts: Extensions)
    requires s in w.st.sessions && HasLeg(w.st, t, s) && LegOf(w.st, t, s).state.Pending?
    requires w1 == ApplyWorld(w, LegOk(s, t, alias)) && alias !in w.st.sessions[s].inbound
    requires RequestKey(s, r) in w.st.upIndex && w.st.upIndex[RequestKey(s, r)] == t
    requires AnsweredWith(w.log, s, r, alias, t)
    ensures Legal(w1, BoundActs(s, r, alias, t, exts))
    ensures var st3 := Exec(w1, BoundActs(s, r, alias, t, exts)).st;
            && t in st3.tracks && st3.tracks[t].downs == w.st.tracks[t].downs && HasEstablishedUpstream(st3.tracks[t])
            && st3.sessions.Keys == w.st.sessions.Keys
  {
    var bind, set_ := Bind(s, r, alias, t), SetExtensions(t, exts);
    BoundRoute(w.st, s, r, alias, t, exts);
    assert w1.log == w.log;
    if exts == [] {
      SingleAct(w1, bind);
      assert [bind] + [] == [bind];
    } else {
      TwoActs(w1, bind, set_);
      assert [bind] + [set_] == [bind, set_];
    }
  }

  lemma BindAndGrantLegal(w: World, w1: World, s: SessionKey, r: nat, alias: nat, t: TrackKey, exts: Extensions,
                          subs: seq<RequestKey>)
    requires Inv(w) && s in w.st.sessions && HasLeg(w.st, t, s) && LegOf(w.st, t, s).state.Pending?
    requires w1 == ApplyWorld(w, LegOk(s, t, alias)) && alias !in w.st.sessions[s].inbound
    requires RequestKey(s, r) in w.st.upIndex && w.st.upIndex[RequestKey(s, r)] == t
    requires AnsweredWith(w.log, s, r, alias, t)
    requires IsOrder(subs, GrantableSubs(w.st.tracks[t]))
    ensures Legal(w1, BoundActs(s, r, alias, t, exts) + Grants(subs, t, exts))
  {
    BindLegal(w, w1, s, r, alias, t, exts);
    var w3 := Exec(w1, BoundActs(s, r, alias, t, exts));
    GrantableStay(w, w3.st, t, subs);
    GrantsEffect(w3, subs, t, exts);
    ExecAppend(w1, BoundActs(s, r, alias, t, exts), Grants(subs, t, exts));
  }

  /** After a leg has ended the subscriptions of its track are as they were. */
  lemma EndedLegRoute(st: State, p: SessionKey, r: nat, t: TrackKey)
    requires t in st.tracks
    ensures var st1 := Apply(st, EndLeg(p, r, t));
            t in st1.tracks && st1.tracks[t].downs == st.tracks[t].downs && st1.downIndex == st.downIndex
  {
  }

  lemma SamePending(r: TrackRoute, r': TrackRoute)
    requires r'.downs == r.downs
    ensures PendingSubs(r') == PendingSubs(r) && EstablishedSubs(r') == EstablishedSubs(r)
  {
  }

  lemma LegErrorLegal(w: World, s: SessionKey, r: nat, t: TrackKey, verdict: Verdict, c: Choice)
    requires verdict.Refused? && t in w.st.tracks && IsOrder(c.subs, PendingSubs(w.st.tracks[t]))
    requires RequestKey(s, r) in w.st.upIndex && w.st.upIndex[RequestKey(s, r)] == t
    ensures var st1 := Apply(w.st, EndLeg(s, r, t));
            t in st1.tracks && Legal(w, [EndLeg(s, r, t)] + RequestErrorTail(st1.tracks[t], t, verdict, c))
  {
    var end := EndLeg(s, r, t);
    EndedLegRoute(w.st, s, r, t);
    ErrorTailAfter(ApplyWorld(w, end), w.st.tracks[t], t, verdict, c);
    LegalFirst(w, end, RequestErrorTail(ApplyWorld(w, end).st.tracks[t], t, verdict, c));
  }

  lemma ErrorTailAfter(w1: World, route: TrackRoute, t: TrackKey, verdict: Verdict, c: Choice)
    requires verdict.Refused? && t in w1.st.tracks && w1.st.tracks[t].downs == route.downs
    requires IsOrder(c.subs, PendingSubs(route))
    ensures Legal(w1, RequestErrorTail(w1.st.tracks[t], t, verdict, c))
  {
    SamePending(route, w1.st.tracks[t]);
    RequestErrorTailLegal(w1, t, verdict, c);
  }

  lemma RequestErrorLegal(w: World, s: SessionKey, r: nat, verdict: Verdict, c: Choice)
    requires Inv(w) && s in w.st.sessions && verdict.Refused?
    requires RequestKey(s, r) in w.st.upIndex ==>
               IsOrder(c.subs, PendingSubs(RouteOr(w.st, w.st.upIndex[RequestKey(s, r)])))
    ensures Legal(w, RequestErrorPlan(w, s, r, verdict, c))
  {
    var x := RequestKey(s, r);
    if !w.st.sessions[s].setupDone {
      SingleAct(w, Say(Close(s, ProtocolViolation)));
    } else if x in w.st.upIndex && w.st.upIndex[x] in w.st.tracks {
      LegErrorLegal(w, s, r, w.st.upIndex[x], verdict, c);
    }
  }

  lemma NobodyLeft(r: TrackRoute, ks: set<RequestKey>)
    requires forall k :: k in r.downs && Live(r.downs[k].state) ==> k in ks
    ensures NoActiveDownstream(EndedRoute(r, ks)) && EndedRoute(r, ks).ups == r.ups
  {
  }

  lemma NoLegLeft(r: TrackRoute, ps: set<SessionKey>)
    requires forall p :: p in r.ups && Live(r.ups[p].state) ==> p in ps
    ensures AllLegsTerminated(StoppedRoute(r, ps)) && StoppedRoute(r, ps).downs == r.downs
  {
  }

  lemma DropLegal(w: World, acts: seq<Act>, t: TrackKey)
    requires Legal(w, acts) && t in Exec(w, acts).st.tracks
    requires NoActiveDownstream(Exec(w, acts).st.tracks[t]) && AllLegsTerminated(Exec(w, acts).st.tracks[t])
    ensures Legal(w, acts + [Drop(t)])
  {
    ExecSnoc(w, acts, Drop(t));
  }

  lemma RequestErrorTailLegal(w: World, t: TrackKey, verdict: Verdict, c: Choice)
    requires t in w.st.tracks && verdict.Refused? && IsOrder(c.subs, PendingSubs(w.st.tracks[t]))
    ensures Legal(w, RequestErrorTail(w.st.tracks[t], t, verdict, c))
  {
    var route := w.st.tracks[t];
    if AllUpstreamTerminated(route) {
      EndsEffect(w, c.subs, t, verdict);
      var ends := Ends(c.subs, t, verdict);
      if EstablishedSubs(route) == {} {
        forall k | k in route.downs && Live(route.downs[k].state) ensures k in ToSet(c.subs) {
          assert k !in EstablishedSubs(route) && k in PendingSubs(route);
        }
        NobodyLeft(route, ToSet(c.subs));
        DropLegal(w, ends, t);
      } else {
        assert ends + [] == ends;
      }
    }
  }

  lemma PublishDoneLegal(w: World, s: SessionKey, r: nat, verdict: Verdict, c: Choice)
    requires Inv(w) && s in w.st.sessions && verdict.Completed?
    requires RequestKey(s, r) in w.st.upIndex ==>
               var route := RouteOr(w.st, w.st.upIndex[RequestKey(s, r)]);
               IsOrder(c.subs, EstablishedSubs(route)) && IsOrder(c.late, PendingSubs(route))
    ensures Legal(w, PublishDonePlan(w, s, r, verdict, c))
  {
    var x := RequestKey(s, r);
    if !w.st.sessions[s].setupDone {
      SingleAct(w, Say(Close(s, ProtocolViolation)));
    } else if x in w.st.upIndex && w.st.upIndex[x] in w.st.tracks {
      var t := w.st.upIndex[x];
      var w1 := ApplyWorld(w, EndLeg(s, r, t));
      SingleAct(w, EndLeg(s, r, t));
      EndedLegRoute(w.st, s, r, t);
      PublishDoneTailLegal(w1, t, verdict, c);
      ExecAppend(w, [EndLeg(s, r, t)], PublishDoneTail(w1.st.tracks[t], t, verdict, c));
    }
  }

  /** The subscriptions PUBLISH_DONE ends: the Established, and the Pending if no leg is left. */
  function DoneSubs(r: TrackRoute, c: Choice): set<RequestKey> {
    ToSet(c.subs) + (if AllUpstreamTerminated(r) then ToSet(c.late) else {})
  }

  lemma DoneEndsEffect(w: World, t: TrackKey, verdict: Verdict, c: Choice)
    requires t in w.st.tracks && verdict.Completed?
    requires IsOrder(c.subs, EstablishedSubs(w.st.tracks[t])) && IsOrder(c.late, PendingSubs(w.st.tracks[t]))
    ensures var late := if AllUpstreamTerminated(w.st.tracks[t]) then Ends(c.late, t, GONE) else [];
            && Legal(w, Ends(c.subs, t, verdict) + late)
            && Exec(w, Ends(c.subs, t, verdict) + late).st == EndAll(w.st, t, DoneSubs(w.st.tracks[t], c))
  {
    var route := w.st.tracks[t];
    var refuse := GONE;
    var ends := Ends(c.subs, t, verdict);
    EndsEffect(w, c.subs, t, verdict);
    if AllUpstreamTerminated(route) {
      var w1 := Exec(w, ends);
      forall k | k in c.late
        ensures HasSub(w1.st, t, k) && Sub(w1.st, t, k).state.Pending?
      {
        assert k in PendingSubs(route) && k !in EstablishedSubs(route);
      }
      EndsEffect(w1, c.late, t, refuse);
      ExecAppend(w, ends, Ends(c.late, t, refuse));
      EndAllTwice(w.st, t, ToSet(c.subs), ToSet(c.late));
    } else {
      assert ends + [] == ends;
      assert DoneSubs(route, c) == ToSet(c.subs);
    }
  }

  lemma EndAllTwice(st: State, t: TrackKey, ks1: set<RequestKey>, ks2: set<RequestKey>)
    requires t in st.tracks
    ensures EndAll(EndAll(st, t, ks1), t, ks2) == EndAll(st, t, ks1 + ks2)
  {
    var st1 := EndAll(st, t, ks1);
    var r := EndedRoute(st.tracks[t], ks1 + ks2);
    assert EndedRoute(st1.tracks[t], ks2).downs == r.downs;
    assert st1.tracks[t := r] == st.tracks[t := r];
    assert st1.downIndex - ks2 == st.downIndex - (ks1 + ks2);
  }

  lemma PublishDoneTailLegal(w: World, t: TrackKey, verdict: Verdict, c: Choice)
    requires t in w.st.tracks && verdict.Completed?
    requires IsOrder(c.subs, EstablishedSubs(w.st.tracks[t])) && IsOrder(c.late, PendingSubs(w.st.tracks[t]))
    ensures Legal(w, PublishDoneTail(w.st.tracks[t], t, verdict, c))
  {
    var route := w.st.tracks[t];
    var late := if AllUpstreamTerminated(route) then Ends(c.late, t, GONE) else [];
    var acts := Ends(c.subs, t, verdict) + late;
    DoneEndsEffect(w, t, verdict, c);
    if AllLegsTerminated(route) && (AllUpstreamTerminated(route) || PendingSubs(route) == {}) {
      forall k | k in route.downs && Live(route.downs[k].state) ensures k in DoneSubs(route, c) {
        assert k in EstablishedSubs(route) || k in PendingSubs(route);
      }
      NobodyLeft(route, DoneSubs(route, c));
      DropLegal(w, acts, t);
    } else {
      assert acts + [] == acts;
    }
  }

  lemma UnsubscribeLegal(w: World, s: SessionKey, id: nat, c: Choice)
    requires Inv(w) && s in w.st.sessions
    requires RequestKey(s, id) in w.st.downIndex ==>
               IsOrder(c.peers, LiveLegs(RouteOr(w.st, w.st.downIndex[RequestKey(s, id)])))
    ensures Legal(w, UnsubscribePlan(w, s, id, c))
  {
    var k := RequestKey(s, id);
    if !w.st.sessions[s].setupDone || k !in w.st.downIndex {
      SingleAct(w, Say(Close(s, ProtocolViolation)));
    } else {
      var t := w.st.downIndex[k];
      assert HasSub(w.st, t, k) && Live(Sub(w.st, t, k).state);
      var gone := End(k, t, ControlStream, Withdrawn);
      var w1 := ApplyWorld(w, gone);
      SingleAct(w, gone);
      if NoActiveDownstream(w1.st.tracks[t]) {
        assert w1.st.tracks[t].ups == w.st.tracks[t].ups;
        StopAndDropLegal(w1, t, c.peers);
        ExecAppend(w, [gone], Unsubs(c.peers, t, false) + [Drop(t)]);
        assert [gone] + (Unsubs(c.peers, t, false) + [Drop(t)]) == [gone] + Unsubs(c.peers, t, false) + [Drop(t)];
      }
    }
  }

  lemma StopAndDropLegal(w: World, t: TrackKey, peers: seq<SessionKey>)
    requires t in w.st.tracks && NoActiveDownstream(w.st.tracks[t]) && IsOrder(peers, LiveLegs(w.st.tracks[t]))
    ensures Legal(w, Unsubs(peers, t, false) + [Drop(t)])
  {
    UnsubsEffect(w, peers, t, false);
    NoLegLeft(w.st.tracks[t], ToSet(peers));
    DropLegal(w, Unsubs(peers, t, false), t);
  }

  lemma ObjectPlanLegal(w: World, s: SessionKey, alias: nat, body: ObjectBody, c: Choice)
    requires Inv(w) && Fair(w.st, ObjectReceived(s, alias, body), c)
    ensures Legal(w, ObjectPlan(w, s, alias, body, c))
    ensures Exec(w, ObjectPlan(w, s, alias, body, c)).st == w.st
  {
    if s !in w.st.sessions || alias !in w.st.sessions[s].inbound {
      SingleAct(w, Say(Close(s, ProtocolViolation)));
    } else if w.st.sessions[s].inbound[alias] in w.st.tracks {
      ForwardsLegal(w, c.subs, w.st.sessions[s].inbound[alias], body);
    }
  }
}
