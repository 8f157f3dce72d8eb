/** The relay as `relay.rs` runs it: five maps updated in place by the event handlers. Every handler is
    proved to perform exactly its plan, so every theorem about runs holds of the class. */
module RelayClass {
  import opened MoqTypes
  import opened RelayState
  import opened RelayLog
  import opened RelayActs
  import opened RelayPlan
  import opened RelayInv
  import opened RelayTrace
  import opened RelayLegal
  import opened RelayHandlers
  import opened RelayRuns
  import opened RelaySession
  import opened RelayDid

  /** Iterate over a set in some order. */
  method Enumerate<T(==, !new)>(xs: set<T>) returns (order: seq<T>)
    ensures IsOrder(order, xs)
  {
    order := [];
    var rest := xs;
    while rest != {}
      invariant rest <= xs && IsOrder(order, xs - rest)
      decreases |rest|
    {
      var x :| x in rest;
      rest := rest - {x};
      order := order + [x];
    }
  }

  ghost function Views(sessions: map<SessionKey, Session>): map<SessionKey, SessionState>
    reads sessions.Values
  {
    map s | s in sessions :: sessions[s].View()
  }

  /** No two keys share a session object. */
  ghost predicate Apart(sessions: map<SessionKey, Session>) {
    forall a, b :: a in sessions && b in sessions && a != b ==> sessions[a] != sessions[b]
  }

  class Relay {
    const config: RelayConfig
    var sessions: map<SessionKey, Session>
    var publishersByNamespace: map<Namespace, set<SessionKey>>
    var tracks: map<TrackKey, TrackRoute>
    var upstreamRequestIndex: map<RequestKey, TrackKey>
    var downstreamRequestIndex: map<RequestKey, TrackKey>

    /** History: the keys used, everything received and sent, and the events so far. */
    ghost var used: set<SessionKey>
    ghost var log: seq<Obs>
    ghost var run: seq<Stimulus>

    ghost function Model(): State
      reads this, sessions.Values
    {
      State(Views(sessions), publishersByNamespace, tracks, upstreamRequestIndex, downstreamRequestIndex)
    }

    /** The maps are those the run leads to. */
    ghost predicate Valid()
      reads this, sessions.Values
    {
      && Apart(sessions)
      && ConfigOk(config) && ValidRun(config, run)
      && Reach(config, run) == World(Model(), used, log)
    }

    constructor (config: RelayConfig)
      requires ConfigOk(config)
      ensures Valid() && run == [] && this.config == config
    {
      this.config := config;
      sessions, publishersByNamespace, tracks := map[], map[], map[];
      upstreamRequestIndex, downstreamRequestIndex := map[], map[];
      used, log, run := {}, [], [];
    }

    // ---- Pieces shared by several handlers ----

    /** All publishers registered under a non-empty prefix of ns. */
    method MatchPublishersForNamespace(ns: Namespace) returns (result: set<SessionKey>)
      ensures result == MatchPublishers(Model(), ns)
    {
      result := {};
      var k := 0;
      while k < |ns|
        invariant k <= |ns| && result == MatchUpTo(Model(), ns, k)
      {
        k := k + 1;
        var key := ns[..k];
        if key in publishersByNamespace {
          result := result + publishersByNamespace[key];
        }
      }
    }

    /** Send SUBSCRIBE for track t to p, unless p has a leg there, nobody waits, or p's limit is reached. */
    method AskPublisher(p: SessionKey, t: TrackKey) returns (sent: seq<Output>)
      requires Apart(sessions)
      modifies this`tracks, this`upstreamRequestIndex, sessions.Values
      ensures Model() == Apply(old(Model()), OpenLeg(p, t)) && sent == Emit(old(Model()), OpenLeg(p, t))
    {
      ghost var st := Model();
      if t !in tracks || p in tracks[t].ups || NoActiveDownstream(tracks[t]) || p !in sessions {
        OpenLegIdles(st, p, t);
        return [];
      }
      var id := TakeUpstreamId(p);
      if id.None? {
        OpenLegIdles(st, p, t);
        return [];
      }
      OpenLegIs(st, p, t);
      InsertLeg(p, t, id.value);
      return [Send(p, ControlStream, Subscribe(id.value, t.namespace, t.name, []))];
    }

    /** Record a Pending leg under its request id. */
    method InsertLeg(p: SessionKey, t: TrackKey, id: nat)
      requires t in tracks
      modifies this`tracks, this`upstreamRequestIndex
      ensures tracks == old(tracks)[t := old(tracks)[t].(ups := old(tracks)[t].ups[p := Leg(id, Pending, None, false)])]
      ensures upstreamRequestIndex == old(upstreamRequestIndex)[RequestKey(p, id) := t]
    {
      upstreamRequestIndex := upstreamRequestIndex[RequestKey(p, id) := t];
      var route := tracks[t];
      tracks := tracks[t := route.(ups := route.ups[p := Leg(id, Pending, None, false)])];
    }

    /** The next request id for p, and the sessions after it is taken. */
    method TakeUpstreamId(p: SessionKey) returns (id: Option<nat>)
      requires Apart(sessions) && p in sessions
      modifies sessions[p]
      ensures id == if CanAllocate(old(Views(sessions))[p]) then Some(old(Views(sessions))[p].localNext) else None
      ensures Views(sessions) == if id.None? then old(Views(sessions))
                                 else old(Views(sessions))[p := old(Views(sessions))[p].(localNext := id.value + 2)]
    {
      id := sessions[p].AllocLocalRequestId();
      assert Views(sessions) == old(Views(sessions))[p := sessions[p].View()];
    }

    /** A fresh outbound alias of session s. */
    method TakeAlias(s: SessionKey) returns (alias: nat)
      requires Apart(sessions) && s in sessions
      modifies sessions.Values
      ensures alias == old(Views(sessions))[s].nextOutbound
      ensures Views(sessions) == old(Views(sessions))[s := old(Views(sessions))[s].(nextOutbound := alias + 1)]
    {
      alias := sessions[s].AllocOutboundTrackAlias();
      assert Views(sessions) == old(Views(sessions))[s := sessions[s].View()];
    }

    /** Establish subscription k of track t with a fresh alias and answer SUBSCRIBE_OK. */
    method AcceptSubscription(k: RequestKey, t: TrackKey, channel: Channel, exts: Extensions)
        returns (sent: seq<Output>)
      requires Apart(sessions) && t in tracks && k in tracks[t].downs
      modifies this`tracks, sessions.Values
      ensures Model() == Apply(old(Model()), Grant(k, t, channel, exts))
      ensures sent == Emit(old(Model()), Grant(k, t, channel, exts))
    {
      if k.session !in sessions {
        return [];
      }
      GrantIs(Model(), k, t, channel, exts);
      var alias := TakeAlias(k.session);
      var route := tracks[t];
      var sub := route.downs[k].(state := Established, forwardDesired := false, outboundAlias := Some(alias));
      tracks := tracks[t := route.(downs := route.downs[k := sub])];
      return [Send(k.session, channel, SubscribeOk(k.id, alias, [], exts))];
    }

    /** Terminate subscription k of track t and take it out of the index. */
    method TerminateSubscription(k: RequestKey, t: TrackKey, ghost channel: Channel, ghost verdict: Verdict)
      requires t in tracks && k in tracks[t].downs
      modifies this`tracks, this`downstreamRequestIndex
      ensures Model() == Apply(old(Model()), End(k, t, channel, verdict))
    {
      var route := tracks[t];
      tracks := tracks[t := route.(downs := route.downs[k := route.downs[k].(state := Terminated)])];
      downstreamRequestIndex := downstreamRequestIndex - {k};
    }

    /** Send UNSUBSCRIBE on p's leg of t and terminate it. */
    method UnsubscribeLeg(p: SessionKey, t: TrackKey, keepIndex: bool) returns (sent: seq<Output>)
      requires t in tracks && p in tracks[t].ups
      modifies this`tracks, this`upstreamRequestIndex
      ensures Model() == Apply(old(Model()), Unsub(p, t, keepIndex))
              && sent == Emit(old(Model()), Unsub(p, t, keepIndex))
      ensures t in tracks && tracks[t].ups.Keys == old(tracks)[t].ups.Keys
    {
      var route := tracks[t];
      var leg := route.ups[p];
      tracks := tracks[t := route.(ups := route.ups[p := leg.(state := Terminated)])];
      if !keepIndex {
        upstreamRequestIndex := upstreamRequestIndex - {RequestKey(p, leg.requestId)};
      }
      return [Send(p, ControlStream, Unsubscribe(leg.requestId))];
    }

    /** Send UNSUBSCRIBE on every live leg of t and terminate it. */
    method UnsubscribeLegs(t: TrackKey, keepIndex: bool, out: seq<Output>, ghost w: World, ghost acts: seq<Act>)
      returns (sent: seq<Output>, ghost order: seq<SessionKey>)
      requires t in tracks && Did(w, acts, Model(), out)
      modifies this`tracks, this`upstreamRequestIndex
      ensures IsOrder(order, LiveLegs(old(tracks)[t]))
      ensures Did(w, acts + Unsubs(order, t, keepIndex), Model(), sent)
    {
      var legs := Enumerate(LiveLegs(tracks[t]));
      order := legs;
      sent := out;
      assert acts + Unsubs(legs[..0], t, keepIndex) == acts;
      for i := 0 to |legs|
        invariant t in tracks && tracks[t].ups.Keys == old(tracks)[t].ups.Keys
        invariant Did(w, acts + Unsubs(legs[..i], t, keepIndex), Model(), sent)
      {
        DidUnsub(w, acts, Model(), sent, legs, i, t, keepIndex);
        assert legs[i] in LiveLegs(old(tracks)[t]);
        var more := UnsubscribeLeg(legs[i], t, keepIndex);
        sent := sent + more;
      }
      assert legs[..|legs|] == legs;
    }

    // ---- Set-up, limits and GOAWAY ----

    method HandleClientSetup(s: SessionKey, channel: Channel, ghost w: World) returns (out: seq<Output>)
      requires Apart(sessions) && s in sessions && w.st == Model()
      modifies sessions.Values
      ensures Did(w, ClientSetupPlan(config, s, w.st.sessions[s], channel), Model(), out)
    {
      var sess := sessions[s];
      if !sess.role.Server? {
        DidOne(w, Say(Close(s, ProtocolViolation)));
        return [Close(s, ProtocolViolation)];
      }
      if sess.setupDone {
        DidOne(w, Say(Close(s, ProtocolViolation)));
        return [Close(s, ProtocolViolation)];
      }
      sess.setupDone := true;
      var params := config.serverSetupParameters + [KeyValuePair(PARAM_MAX_REQUEST_ID, Varint(sess.localMaxExclusive))];
      assert Views(sessions) == old(Views(sessions))[s := sess.View()];
      out := [Send(s, channel, ServerSetup(params))];
      DidOne(w, Touch(s, sess.View()));
      DidNext(w, [Touch(s, sess.View())], Model(), [], Say(out[0]));
      assert [Touch(s, sess.View())] + [Say(out[0])] == [Touch(s, sess.View()), Say(out[0])];
    }

    method HandleServerSetup(s: SessionKey, params: Parameters, ghost w: World) returns (out: seq<Output>)
      requires Apart(sessions) && s in sessions && w.st == Model()
      modifies sessions.Values
      ensures Did(w, ServerSetupPlan(s, w.st.sessions[s], params), Model(), out)
    {
      var sess := sessions[s];
      if !sess.role.Client? {
        DidOne(w, Say(Close(s, ProtocolViolation)));
        return [Close(s, ProtocolViolation)];
      }
      if sess.setupDone {
        DidOne(w, Say(Close(s, ProtocolViolation)));
        return [Close(s, ProtocolViolation)];
      }
      var max := VarintParameter(params, PARAM_MAX_REQUEST_ID);
      if max.Some? {
        sess.peerMaxExclusive := max.value;
      }
      sess.setupDone := true;
      assert Views(sessions) == old(Views(sessions))[s := sess.View()];
      DidOne(w, Touch(s, sess.View()));
      return [];
    }

    method HandleMaxRequestId(s: SessionKey, maxRequestId: nat, ghost w: World) returns (out: seq<Output>)
      requires Apart(sessions) && s in sessions && w.st == Model()
      modifies sessions.Values
      ensures Did(w, MaxRequestIdPlan(s, w.st.sessions[s], maxRequestId), Model(), out)
    {
      var error := sessions[s].OnPeerMaxRequestId(maxRequestId + 1);
      assert Views(sessions) == old(Views(sessions))[s := sessions[s].View()];
      if error.Some? {
        assert Views(sessions) == old(Views(sessions));
        DidOne(w, Say(Close(s, ProtocolViolation)));
        return [Close(s, error.value)];
      }
      DidOne(w, Touch(s, sessions[s].View()));
      return [];
    }

    method HandleGoaway(s: SessionKey, uri: Bytes, ghost w: World) returns (out: seq<Output>)
      requires Apart(sessions) && s in sessions && w.st == Model()
      modifies sessions.Values
      ensures Did(w, GoawayPlan(s, w.st.sessions[s], uri), Model(), out)
    {
      var sess := sessions[s];
      if sess.goawayReceived {
        DidOne(w, Say(Close(s, ProtocolViolation)));
        return [Close(s, ProtocolViolation)];
      }
      sess.goawayReceived := true;
      sess.goawayUri := if uri == [] then None else Some(uri);
      assert Views(sessions) == old(Views(sessions))[s := sess.View()];
      DidOne(w, Touch(s, sess.View()));
      return [];
    }

    // ---- Routing ----

    /** Accept the next request id of s, or say why not. */
    method TakeRequestId(s: SessionKey, id: nat) returns (error: Option<SessionError>)
      requires Apart(sessions) && s in sessions
      modifies sessions.Values
      ensures error == PeerIdError(old(Model()).sessions[s], id)
      ensures Model() == if error.None? then IdTaken(old(Model()), s) else old(Model())
    {
      error := sessions[s].ValidatePeerNewRequestId(id);
      if error.Some? {
        assert Views(sessions) == old(Views(sessions));
      } else {
        assert Views(sessions) == old(Views(sessions))[s := sessions[s].View()];
      }
    }

    method AddNamespace(s: SessionKey, ns: Namespace)
      requires Apart(sessions) && s in sessions
      modifies sessions.Values
      ensures Views(sessions) == old(Views(sessions))[s :=
              old(Views(sessions))[s].(published := old(Views(sessions))[s].published + {ns})]
    {
      sessions[s].publishedNamespaces := sessions[s].publishedNamespaces + {ns};
      assert Views(sessions) == old(Views(sessions))[s := sessions[s].View()];
    }

    /** Enter s as a publisher of ns, on the session and in the index. */
    method RegisterPublisher(s: SessionKey, ns: Namespace, ghost before: State)
      requires Apart(sessions) && s in sessions && s in before.sessions && Model() == IdTaken(before, s)
      modifies this`publishersByNamespace, sessions.Values
      ensures Model() == Announced(before, s, ns)
    {
      AddNamespace(s, ns);
      assert Views(sessions) == before.sessions[s := Views(sessions)[s]];
      var known := if ns in publishersByNamespace then publishersByNamespace[ns] else {};
      publishersByNamespace := publishersByNamespace[ns := known + {s}];
    }

    method HandlePublishNamespace(s: SessionKey, channel: Channel, id: nat, ns: Namespace, ghost w: World)
      returns (out: seq<Output>, ghost c: Choice)
      requires Apart(sessions) && s in sessions && w.st == Model() && Inv(w)
      modifies this`tracks, this`publishersByNamespace, this`upstreamRequestIndex, sessions.Values
      ensures IsOrder(c.tracks, w.st.tracks.Keys)
      ensures Did(w, PublishNamespacePlan(w, s, channel, id, ns, c), Model(), out)
    {
      var trackKeys := Enumerate(tracks.Keys);
      c := NO_CHOICE.(tracks := trackKeys);
      if !sessions[s].setupDone {
        DidOne(w, Say(Close(s, ProtocolViolation)));
        return [Close(s, ProtocolViolation)], c;
      }
      var error := TakeRequestId(s, id);
      if error.Some? {
        DidOne(w, Say(Close(s, error.value)));
        return [Close(s, error.value)], c;
      }
      RegisterPublisher(s, ns, w.st);
      AnnounceIs(w.st, s, ns);
      out := [Send(s, channel, RequestOk(id, []))];
      DidRegister(w, s, channel, id, ns);
      out := OfferAll(trackKeys, s, ns, out, w, [Announce(s, ns), Say(out[0])]);
    }

    /** Ask the new publisher s of ns for every track its namespace covers. */
    method OfferAll(trackKeys: seq<TrackKey>, s: SessionKey, ns: Namespace, out: seq<Output>, ghost w: World,
                    ghost head: seq<Act>)
      returns (sent: seq<Output>)
      requires Apart(sessions) && Did(w, head, Model(), out)
      modifies this`tracks, this`upstreamRequestIndex, sessions.Values
      ensures Did(w, head + OfferTracks(trackKeys, s, ns), Model(), sent)
    {
      sent := out;
      assert head + OfferTracks(trackKeys[..0], s, ns) == head;
      for i := 0 to |trackKeys|
        invariant Did(w, head + OfferTracks(trackKeys[..i], s, ns), Model(), sent)
      {
        DidOffer(w, head, Model(), sent, trackKeys, i, s, ns);
        if IsPrefixOf(ns, trackKeys[i].namespace) {
          var more := AskPublisher(s, trackKeys[i]);
          sent := sent + more;
        }
      }
      assert trackKeys[..|trackKeys|] == trackKeys;
    }

    /** Record a Pending subscription of track t. */
    method RecordSubscription(k: RequestKey, t: TrackKey, params: Parameters, ghost before: State)
      requires k.session in before.sessions && Model() == IdTaken(before, k.session)
      modifies this`tracks, this`downstreamRequestIndex
      ensures Model() == Apply(before, AddSub(k, t, params))
    {
      downstreamRequestIndex := downstreamRequestIndex[k := t];
      var route := if t in tracks then tracks[t] else EMPTY_ROUTE;
      tracks := tracks[t := route.(downs := route.downs[k := Downstream(Pending, params, true, None)])];
      assert tracks == old(tracks)[t := RouteOr(before, t)][t := tracks[t]];
    }

    method HandleSubscribe(s: SessionKey, channel: Channel, id: nat, t: TrackKey, params: Parameters, ghost w: World)
      returns (out: seq<Output>, ghost c: Choice)
      requires Apart(sessions) && s in sessions && w.st == Model() && Inv(w)
      modifies this`tracks, this`upstreamRequestIndex, this`downstreamRequestIndex, sessions.Values
      ensures IsOrder(c.peers, MatchPublishers(w.st, t.namespace))
      ensures Did(w, SubscribePlan(w, s, channel, id, t, params, c), Model(), out)
    {
      ghost var anyOrder := OrderOf(MatchPublishers(w.st, t.namespace));
      c := NO_CHOICE.(peers := anyOrder);
      assert SessionOk(w.st.sessions[s]);
      if !sessions[s].setupDone {
        DidOne(w, Say(Close(s, ProtocolViolation)));
        return [Close(s, ProtocolViolation)], c;
      }
      var k := RequestKey(s, id);
      var error := TakeRequestId(s, id);
      if error.Some? {
        DidOne(w, Say(Close(s, error.value)));
        return [Close(s, error.value)], c;
      }
      RecordSubscription(k, t, params, w.st);
      assert HasSub(w.st, t, k) ==> SubOk(w.st, t, k);
      out, c := RouteSubscription(k, t, channel, w, params);
      RoutedIsPlan(w, s, channel, id, t, params, c);
    }

    /** Accept the subscription just recorded, refuse it, or ask all matching publishers. */
    method RouteSubscription(k: RequestKey, t: TrackKey, channel: Channel, ghost w: World, ghost params: Parameters)
      returns (out: seq<Output>, ghost c: Choice)
      requires Apart(sessions) && Inv(w) && k.session in w.st.sessions && !HasSub(w.st, t, k)
      requires Model() == Apply(w.st, AddSub(k, t, params))
      modifies this`tracks, this`upstreamRequestIndex, this`downstreamRequestIndex, sessions.Values
      ensures IsOrder(c.peers, MatchPublishers(w.st, t.namespace))
      ensures Did(w, [AddSub(k, t, params)] + RoutedTail(w.st, k, channel, t, c), Model(), out)
    {
      AddedRoute(w.st, k, t, params);
      if HasEstablishedUpstream(tracks[t]) {
        ghost var anyOrder := OrderOf(MatchPublishers(w.st, t.namespace));
        c := NO_CHOICE.(peers := anyOrder);
        DidAccept(w, k, t, channel, params, c);
        out := AcceptSubscription(k, t, channel, if tracks[t].extensions.Some? then tracks[t].extensions.value else []);
        return out, c;
      }
      var publishers := MatchPublishersForNamespace(t.namespace);
      MatchDependsOnPublishers(w.st, Model(), t.namespace, |t.namespace|);
      if publishers == {} {
        out := RefuseSubscription(k, t, channel, w, params);
        return out, NO_CHOICE;
      }
      DidOne(w, AddSub(k, t, params));
      out, c := AskAll(publishers, t, w, [AddSub(k, t, params)]);
    }

    /** Nobody publishes the namespace: terminate the subscription just recorded and say so. */
    method RefuseSubscription(k: RequestKey, t: TrackKey, channel: Channel, ghost w: World, ghost params: Parameters)
      returns (out: seq<Output>)
      requires k.session in w.st.sessions && !HasSub(w.st, t, k) && Model() == Apply(w.st, AddSub(k, t, params))
      modifies this`tracks, this`downstreamRequestIndex
      ensures Did(w, [AddSub(k, t, params)] + RefusedTail(w.st, k, channel, t), Model(), out)
    {
      DidRefuse(w, k, t, channel, params);
      out := [Send(k.session, channel, RequestError(k.id, DOES_NOT_EXIST, 0, NO_PUBLISHER))];
      TerminateSubscription(k, t, channel, Refused(DOES_NOT_EXIST, 0, NO_PUBLISHER));
      DropIfUnused(t);
    }

    /** Drop a route on which nobody is or waits. */
    method DropIfUnused(t: TrackKey)
      requires t in tracks
      modifies this`tracks
      ensures Model() == if AllDownTerminated(old(tracks)[t]) && old(tracks)[t].ups == map[]
                         then Apply(old(Model()), Drop(t)) else old(Model())
    {
      if AllDownTerminated(tracks[t]) && tracks[t].ups == map[] {
        tracks := tracks - {t};
      }
    }

    /** Ask every matching publisher for track t. */
    method AskAll(publishers: set<SessionKey>, t: TrackKey, ghost w: World, ghost head: seq<Act>)
      returns (sent: seq<Output>, ghost c: Choice)
      requires Apart(sessions) && Did(w, head, Model(), [])
      modifies this`tracks, this`upstreamRequestIndex, sessions.Values
      ensures IsOrder(c.peers, publishers)
      ensures Did(w, head + OpenLegs(c.peers, t), Model(), sent)
    {
      var order := Enumerate(publishers);
      c := NO_CHOICE.(peers := order);
      sent := [];
      assert head + OpenLegs(order[..0], t) == head;
      for i := 0 to |order|
        invariant Did(w, head + OpenLegs(order[..i], t), Model(), sent)
      {
        DidAsk(w, head, Model(), sent, order, i, t);
        var more := AskPublisher(order[i], t);
        sent := sent + more;
      }
      assert order[..|order|] == order;
    }

    method HandleSubscribeOk(s: SessionKey, r: nat, alias: nat, exts: Extensions, ghost w: World)
      returns (out: seq<Output>, ghost c: Choice)
      requires Apart(sessions) && s in sessions && w.st == Model()
      modifies this`tracks, sessions.Values
      ensures RequestKey(s, r) in w.st.upIndex
              ==> IsOrder(c.subs, GrantableSubs(RouteOr(w.st, w.st.upIndex[RequestKey(s, r)])))
      ensures Did(w, SubscribeOkPlan(w, s, r, alias, exts, c), Model(), out)
    {
      c := NO_CHOICE;
      var x := RequestKey(s, r);
      if x in upstreamRequestIndex {
        ghost var anyOrder := OrderOf(GrantableSubs(RouteOr(w.st, w.st.upIndex[x])));
        c := c.(subs := anyOrder);
      }
      DidOne(w, Say(Close(s, ProtocolViolation)));
      if !sessions[s].setupDone {
        return [Close(s, ProtocolViolation)], c;
      }
      if x !in upstreamRequestIndex {
        return [Close(s, ProtocolViolation)], c;
      }
      var t := upstreamRequestIndex[x];
      if t !in tracks {
        return [Close(s, ProtocolViolation)], c;
      }
      if s !in tracks[t].ups {
        return [Close(s, ProtocolViolation)], c;
      }
      if !tracks[t].ups[s].state.Pending? {
        return [Close(s, ProtocolViolation)], c;
      }
      out, c := AcceptUpstream(s, r, alias, t, exts, w);
    }

    /** Establish the leg, bind its alias, and pass the news on. */
    method AcceptUpstream(s: SessionKey, ghost r: nat, alias: nat, t: TrackKey, exts: Extensions, ghost w: World)
      returns (out: seq<Output>, ghost c: Choice)
      requires Apart(sessions) && s in sessions && w.st == Model() && HasLeg(w.st, t, s)
      modifies this`tracks, sessions.Values
      ensures IsOrder(c.subs, GrantableSubs(w.st.tracks[t]))
      ensures Did(w, [LegOk(s, t, alias)] + BoundTail(w.st, s, r, alias, t, exts, c), Model(), out)
    {
      ghost var ok := LegOk(s, t, alias);
      EstablishLeg(s, t, alias);
      var error := BindAlias(s, r, alias, t);
      if error.Some? {
        DidTwo(w, ok, Say(Close(s, error.value)));
        assert [ok] + [Say(Close(s, error.value))] == [ok, Say(Close(s, error.value))];
        ghost var anyOrder := OrderOf(GrantableSubs(w.st.tracks[t]));
        return [Close(s, error.value)], NO_CHOICE.(subs := anyOrder);
      }
      out, c := ForwardAcceptance(s, r, alias, t, exts, w);
    }

    /** Remember the publisher's extensions and accept everyone who waits. */
    method ForwardAcceptance(ghost s: SessionKey, ghost r: nat, ghost alias: nat, t: TrackKey, exts: Extensions,
                             ghost w: World)
      returns (out: seq<Output>, ghost c: Choice)
      requires Apart(sessions) && s in w.st.sessions && alias !in w.st.sessions[s].inbound
      requires t in tracks && t in w.st.tracks && tracks[t].downs == w.st.tracks[t].downs
      requires Model() == Apply(Apply(w.st, LegOk(s, t, alias)), Bind(s, r, alias, t))
      modifies this`tracks, sessions.Values
      ensures IsOrder(c.subs, GrantableSubs(w.st.tracks[t]))
      ensures Did(w, [LegOk(s, t, alias)] + BoundTail(w.st, s, r, alias, t, exts, c), Model(), out)
    {
      StoreExtensions(t, exts);
      DidBind(w, s, r, alias, t, exts);
      out, c := GrantAll(t, exts, w, BoundHead(s, r, alias, t, exts));
      HeadAndTail(w.st, s, r, alias, t, exts, c);
    }

    method StoreExtensions(t: TrackKey, exts: Extensions)
      requires t in tracks
      modifies this`tracks
      ensures t in tracks && tracks[t].downs == old(tracks)[t].downs
      ensures Model() == if exts == [] then old(Model()) else Apply(old(Model()), SetExtensions(t, exts))
    {
      if exts != [] {
        tracks := tracks[t := tracks[t].(extensions := Some(exts))];
      }
    }

    /** The leg has been accepted by its publisher. */
    method EstablishLeg(s: SessionKey, t: TrackKey, alias: nat)
      requires t in tracks && s in tracks[t].ups
      modifies this`tracks
      ensures Model() == Apply(old(Model()), LegOk(s, t, alias))
      ensures t in tracks && tracks[t].downs == old(tracks)[t].downs
    {
      var route := tracks[t];
      var leg := Answered(route.ups[s], alias);
      tracks := tracks[t := route.(ups := route.ups[s := leg])];
    }

    method BindAlias(s: SessionKey, ghost r: nat, alias: nat, t: TrackKey) returns (error: Option<SessionError>)
      requires Apart(sessions) && s in sessions
      modifies sessions.Values
      ensures error == if alias in old(Model()).sessions[s].inbound then Some(DuplicateTrackAlias) else None
      ensures Model() == if error.None? then Apply(old(Model()), Bind(s, r, alias, t)) else old(Model())
    {
      error := sessions[s].BindInboundAlias(alias, t);
      assert Views(sessions) == old(Views(sessions))[s := sessions[s].View()];
      if error.Some? {
        assert Views(sessions) == old(Views(sessions));
      }
    }

    /** Establish every Pending subscription of t that wants to be forwarded. */
    method GrantAll(t: TrackKey, exts: Extensions, ghost w: World, ghost head: seq<Act>)
      returns (sent: seq<Output>, ghost c: Choice)
      requires Apart(sessions) && t in tracks && Did(w, head, Model(), [])
      modifies this`tracks, sessions.Values
      ensures IsOrder(c.subs, GrantableSubs(old(tracks)[t]))
      ensures Did(w, head + Grants(c.subs, t, exts), Model(), sent)
    {
      var pendingIds := Enumerate(GrantableSubs(tracks[t]));
      c := NO_CHOICE.(subs := pendingIds);
      sent := [];
      assert head + Grants(pendingIds[..0], t, exts) == head;
      for i := 0 to |pendingIds|
        invariant t in tracks && tracks[t].downs.Keys == old(tracks)[t].downs.Keys
        invariant Did(w, head + Grants(pendingIds[..i], t, exts), Model(), sent)
      {
        DidGrant(w, head, Model(), sent, pendingIds, i, t, exts);
        assert pendingIds[i] in GrantableSubs(old(tracks)[t]);
        GrantKeepsKeys(Model(), pendingIds[i], t, ControlStream, exts);
        var more := AcceptSubscription(pendingIds[i], t, ControlStream, exts);
        sent := sent + more;
      }
      assert pendingIds[..|pendingIds|] == pendingIds;
    }

    // ---- Ends: REQUEST_ERROR, PUBLISH_DONE, UNSUBSCRIBE ----

    /** The leg of s on t has ended, and its id leaves the index. */
    method EndUpstream(s: SessionKey, r: nat, t: TrackKey)
      requires t in tracks
      modifies this`tracks, this`upstreamRequestIndex
      ensures Model() == Apply(old(Model()), EndLeg(s, r, t))
      ensures t in tracks && tracks[t].downs == old(tracks)[t].downs
    {
      var route := tracks[t];
      if s in route.ups {
        tracks := tracks[t := route.(ups := route.ups[s := route.ups[s].(state := Terminated)])];
      }
      upstreamRequestIndex := upstreamRequestIndex - {RequestKey(s, r)};
    }

    /** Terminate the listed subscriptions of t and tell each why. */
    method EndAllOf(order: seq<RequestKey>, t: TrackKey, verdict: Verdict, out: seq<Output>, ghost w: World,
                    ghost acts: seq<Act>)
      returns (sent: seq<Output>)
      requires t in tracks && !verdict.Withdrawn? && Did(w, acts, Model(), out)
      requires forall k :: k in order ==> k in tracks[t].downs
      modifies this`tracks, this`downstreamRequestIndex
      ensures Did(w, acts + Ends(order, t, verdict), Model(), sent)
    {
      sent := out;
      assert acts + Ends(order[..0], t, verdict) == acts;
      for i := 0 to |order|
        invariant t in tracks && tracks[t].downs.Keys == old(tracks)[t].downs.Keys
        invariant Did(w, acts + Ends(order[..i], t, verdict), Model(), sent)
      {
        EndsSnoc(acts, order, i, t, verdict);
        assert order[i] in order;
        sent := EndOne(order[i], t, verdict, sent, w, acts + Ends(order[..i], t, verdict));
      }
      assert order[..|order|] == order;
    }

    /** Terminate subscription k of t and tell why. */
    method EndOne(k: RequestKey, t: TrackKey, verdict: Verdict, out: seq<Output>, ghost w: World, ghost acts: seq<Act>)
      returns (sent: seq<Output>)
      requires t in tracks && k in tracks[t].downs && !verdict.Withdrawn? && Did(w, acts, Model(), out)
      modifies this`tracks, this`downstreamRequestIndex
      ensures t in tracks && tracks[t].downs.Keys == old(tracks)[t].downs.Keys
      ensures Did(w, acts + [End(k, t, ControlStream, verdict)], Model(), sent)
    {
      DidNext(w, acts, Model(), out, End(k, t, ControlStream, verdict));
      EndKeepsKeys(Model(), k, t, ControlStream, verdict);
      TerminateSubscription(k, t, ControlStream, verdict);
      return out + [Send(k.session, ControlStream, VerdictMessage(k.id, verdict))];
    }

    /** Drop the route once nobody is left on it. */
    method DropIfDone(t: TrackKey, ghost out: seq<Output>, ghost w: World, ghost acts: seq<Act>)
      requires t in tracks && Did(w, acts, Model(), out)
      modifies this`tracks
      ensures Did(w, acts + DropIf(t, NoActiveDownstream(old(tracks)[t]) && AllLegsTerminated(old(tracks)[t])),
                  Model(), out)
    {
      if NoActiveDownstream(tracks[t]) && AllLegsTerminated(tracks[t]) {
        DidNext(w, acts, Model(), out, Drop(t));
        assert out + [] == out;
        tracks := tracks - {t};
      } else {
        assert acts + [] == acts;
      }
    }

    method HandleRequestError(s: SessionKey, r: nat, verdict: Verdict, ghost w: World)
      returns (out: seq<Output>, ghost c: Choice)
      requires Apart(sessions) && s in sessions && w.st == Model() && verdict.Refused?
      modifies this`tracks, this`upstreamRequestIndex, this`downstreamRequestIndex
      ensures RequestKey(s, r) in w.st.upIndex
              ==> IsOrder(c.subs, PendingSubs(RouteOr(w.st, w.st.upIndex[RequestKey(s, r)])))
      ensures Did(w, RequestErrorPlan(w, s, r, verdict, c), Model(), out)
    {
      c := NO_CHOICE;
      var x := RequestKey(s, r);
      if !sessions[s].setupDone {
        ghost var anyOrder := if x in w.st.upIndex then OrderOf(PendingSubs(RouteOr(w.st, w.st.upIndex[x]))) else [];
        DidOne(w, Say(Close(s, ProtocolViolation)));
        return [Close(s, ProtocolViolation)], c.(subs := anyOrder);
      }
      if x !in upstreamRequestIndex {
        DidNothing(w);
        return [], c;
      }
      var t := upstreamRequestIndex[x];
      if t !in tracks {
        DidNothing(w);
        return [], c;
      }
      EndUpstream(s, r, t);
      out, c := RefuseWaiting(s, r, t, verdict, w);
    }

    /** If no leg is left, everybody who waits is refused; an empty route is dropped. */
    method RefuseWaiting(ghost s: SessionKey, ghost r: nat, t: TrackKey, verdict: Verdict, ghost w: World)
      returns (out: seq<Output>, ghost c: Choice)
      requires verdict.Refused? && t in w.st.tracks && t in tracks && tracks[t].downs == w.st.tracks[t].downs
      requires Model() == Apply(w.st, EndLeg(s, r, t))
      modifies this`tracks, this`downstreamRequestIndex
      ensures IsOrder(c.subs, PendingSubs(w.st.tracks[t]))
      ensures Did(w, [EndLeg(s, r, t)] + RequestErrorTail(old(tracks)[t], t, verdict, c), Model(), out)
    {
      ghost var w1 := ApplyWorld(w, EndLeg(s, r, t));
      DidOne(w, EndLeg(s, r, t));
      out := [];
      if AllUpstreamTerminated(tracks[t]) {
        var pendingIds := Enumerate(PendingSubs(tracks[t]));
        c := NO_CHOICE.(subs := pendingIds);
        out := EndAllOf(pendingIds, t, verdict, out, w, [EndLeg(s, r, t)]);
        WaitingRefused(w, s, r, t, verdict, pendingIds);
        DropIfDone(t, out, w, [EndLeg(s, r, t)] + Ends(pendingIds, t, verdict));
        RefusalShape(EndLeg(s, r, t), Ends(pendingIds, t, verdict), DropIf(t, EstablishedSubs(old(tracks)[t]) == {}));
      } else {
        ghost var anyOrder := OrderOf(PendingSubs(tracks[t]));
        c := NO_CHOICE.(subs := anyOrder);
        assert [EndLeg(s, r, t)] + [] == [EndLeg(s, r, t)];
      }
    }

    method HandleUnsubscribe(s: SessionKey, id: nat, ghost w: World) returns (out: seq<Output>, ghost c: Choice)
      requires Apart(sessions) && s in sessions && w.st == Model() && Inv(w)
      modifies this`tracks, this`upstreamRequestIndex, this`downstreamRequestIndex
      ensures RequestKey(s, id) in w.st.downIndex ==>
                IsOrder(c.peers, LiveLegs(RouteOr(w.st, w.st.downIndex[RequestKey(s, id)])))
      ensures Did(w, UnsubscribePlan(w, s, id, c), Model(), out)
    {
      var k := RequestKey(s, id);
      ghost var anyOrder := if k in w.st.downIndex then OrderOf(LiveLegs(RouteOr(w.st, w.st.downIndex[k]))) else [];
      c := NO_CHOICE.(peers := anyOrder);
      if !sessions[s].setupDone {
        DidOne(w, Say(Close(s, ProtocolViolation)));
        return [Close(s, ProtocolViolation)], c;
      }
      if k !in downstreamRequestIndex {
        DidOne(w, Say(Close(s, ProtocolViolation)));
        return [Close(s, ProtocolViolation)], c;
      }
      var t := downstreamRequestIndex[k];
      assert HasSub(w.st, t, k);
      out, c := Withdraw(k, t, w);
    }

    /** End subscription k; if it was the last one of t, unsubscribe upstream and drop the route. */
    method Withdraw(k: RequestKey, t: TrackKey, ghost w: World) returns (out: seq<Output>, ghost c: Choice)
      requires t in tracks && k in tracks[t].downs && w.st == Model()
      modifies this`tracks, this`upstreamRequestIndex, this`downstreamRequestIndex
      ensures IsOrder(c.peers, LiveLegs(w.st.tracks[t]))
      ensures Did(w, WithdrawActs(w.st, k, t, c), Model(), out)
    {
      ghost var gone := End(k, t, ControlStream, Withdrawn);
      EndKeepsKeys(w.st, k, t, ControlStream, Withdrawn);
      TerminateSubscription(k, t, ControlStream, Withdrawn);
      DidOne(w, gone);
      out := [];
      if NoActiveDownstream(tracks[t]) {
        ghost var order;
        out, order := UnsubscribeLegs(t, false, out, w, [gone]);
        c := NO_CHOICE.(peers := order);
        NobodyUpstream(w, k, t, order);
        DropIfDone(t, out, w, [gone] + Unsubs(order, t, false));
      } else {
        ghost var anyOrder := OrderOf(LiveLegs(tracks[t]));
        c := NO_CHOICE.(peers := anyOrder);
      }
    }

    method HandlePublishDone(s: SessionKey, r: nat, verdict: Verdict, ghost w: World)
      returns (out: seq<Output>, ghost c: Choice)
      requires Apart(sessions) && s in sessions && w.st == Model() && verdict.Completed?
      modifies this`tracks, this`upstreamRequestIndex, this`downstreamRequestIndex
      ensures RequestKey(s, r) in w.st.upIndex ==>
                var route := RouteOr(w.st, w.st.upIndex[RequestKey(s, r)]);
                IsOrder(c.subs, EstablishedSubs(route)) && IsOrder(c.late, PendingSubs(route))
      ensures Did(w, PublishDonePlan(w, s, r, verdict, c), Model(), out)
    {
      var x := RequestKey(s, r);
      ghost var route := if x in w.st.upIndex then RouteOr(w.st, w.st.upIndex[x]) else EMPTY_ROUTE;
      c := NO_CHOICE.(subs := OrderOf(EstablishedSubs(route)), late := OrderOf(PendingSubs(route)));
      if !sessions[s].setupDone {
        DidOne(w, Say(Close(s, ProtocolViolation)));
        return [Close(s, ProtocolViolation)], c;
      }
      if x !in upstreamRequestIndex {
        DidNothing(w);
        return [], c;
      }
      var t := upstreamRequestIndex[x];
      if t !in tracks {
        DidNothing(w);
        return [], c;
      }
      EndUpstream(s, r, t);
      out, c := CompleteRoute(s, r, t, verdict, w);
    }

    /** Established subscriptions end with the publisher; the Pending too when no leg is left. */
    method CompleteRoute(ghost s: SessionKey, ghost r: nat, t: TrackKey, verdict: Verdict, ghost w: World)
      returns (out: seq<Output>, ghost c: Choice)
      requires verdict.Completed? && t in w.st.tracks && t in tracks && tracks[t].downs == w.st.tracks[t].downs
      requires Model() == Apply(w.st, EndLeg(s, r, t))
      modifies this`tracks, this`downstreamRequestIndex
      ensures IsOrder(c.subs, EstablishedSubs(w.st.tracks[t])) && IsOrder(c.late, PendingSubs(w.st.tracks[t]))
      ensures Did(w, [EndLeg(s, r, t)] + PublishDoneTail(old(tracks)[t], t, verdict, c), Model(), out)
    {
      ghost var route := tracks[t];
      var establishedIds := Enumerate(EstablishedSubs(tracks[t]));
      DidOne(w, EndLeg(s, r, t));
      out := EndAllOf(establishedIds, t, verdict, [], w, [EndLeg(s, r, t)]);
      EstablishedEnded(w, s, r, t, verdict, establishedIds);
      ghost var late;
      out, late := RefuseLate(t, out, w, [EndLeg(s, r, t)] + Ends(establishedIds, t, verdict));
      c := NO_CHOICE.(subs := establishedIds, late := late);
      DoneRoute(w, s, r, t, verdict, c);
      DoneShape(EndLeg(s, r, t), route, t, verdict, c);
      DropIfDone(t, out, w, DoneActs(EndLeg(s, r, t), route, t, verdict, c));
    }

    /** If no leg is left, whoever still waits is refused. */
    method RefuseLate(t: TrackKey, out: seq<Output>, ghost w: World, ghost acts: seq<Act>)
      returns (sent: seq<Output>, ghost late: seq<RequestKey>)
      requires t in tracks && Did(w, acts, Model(), out)
      modifies this`tracks, this`downstreamRequestIndex
      ensures IsOrder(late, PendingSubs(old(tracks)[t]))
      ensures var all := if AllUpstreamTerminated(old(tracks)[t])
                         then acts + Ends(late, t, GONE) else acts;
              Did(w, all, Model(), sent)
    {
      if AllUpstreamTerminated(tracks[t]) {
        var pendingIds := Enumerate(PendingSubs(tracks[t]));
        sent := EndAllOf(pendingIds, t, GONE, out, w, acts);
        late := pendingIds;
      } else {
        sent, late := out, OrderOf(PendingSubs(tracks[t]));
      }
    }

    // ---- Objects ----

    /** Forward an object to every Established subscription of its track, under that subscription's alias. */
    method OnSubscriptionObject(s: SessionKey, alias: nat, body: ObjectBody, ghost w: World)
      returns (out: seq<Output>, ghost c: Choice)
      requires w.st == Model()
      ensures Fair(w.st, ObjectReceived(s, alias, body), c)
      ensures Did(w, ObjectPlan(w, s, alias, body, c), Model(), out)
    {
      c := NO_CHOICE;
      if s !in sessions || alias !in sessions[s].inboundAliases {
        DidOne(w, Say(Close(s, ProtocolViolation)));
        return [Close(s, ProtocolViolation)], c;
      }
      var t := sessions[s].inboundAliases[alias];
      if t !in tracks {
        DidNothing(w);
        return [], c;
      }
      ghost var ready;
      out, ready := ForwardToAll(t, body, w);
      c := c.(subs := ready);
    }

    method ForwardToAll(t: TrackKey, body: ObjectBody, ghost w: World)
        returns (out: seq<Output>, ghost ready: seq<RequestKey>)
      requires w.st == Model() && t in tracks
      ensures IsOrder(ready, ReadySubs(tracks[t]))
      ensures Did(w, Forwards(ready, t, body), Model(), out)
    {
      var route := tracks[t];
      var order := Enumerate(route.downs.Keys);
      out := [];
      DidNothing(w);
      for i := 0 to |order|
        invariant Did(w, Forwards(ReadyOf(order[..i], route), t, body), Model(), out)
      {
        var k := order[i];
        assert k in order;
        ReadySnoc(order, i, route);
        ForwardRound(w, out, ReadyOf(order[..i], route), k, t, body);
        var sub := route.downs[k];
        if !sub.state.Established? {
          continue;
        }
        if sub.outboundAlias.None? {
          continue;
        }
        out := out + [SendObject(k.session, sub.outboundAlias.value, body)];
      }
      assert order[..|order|] == order;
      ready := ReadyOf(order, route);
      ReadyIsOrder(order, route);
    }

    // ---- Sessions ----

    method OnSessionOpened(s: SessionKey, role: EndpointRole, ghost w: World) returns (out: seq<Output>)
      requires Apart(sessions) && w.st == Model()
      modifies this`sessions
      ensures Apart(sessions) && fresh(sessions.Values - old(sessions.Values))
      ensures Did(w, [Open(s, role, config.initialLocalMax, config.initialPeerMax)], Model(), out)
    {
      var sess := new Session(s, role, config.initialLocalMax, config.initialPeerMax);
      sessions := sessions[s := sess];
      assert Views(sessions) == w.st.sessions[s := sess.View()];
      DidOpen(w, s, role, config.initialLocalMax, config.initialPeerMax);
      return [];
    }

    method OnSessionClosed(s: SessionKey, ghost w: World) returns (out: seq<Output>, ghost c: Choice)
      requires Apart(sessions) && w.st == Model()
      modifies this`sessions, this`publishersByNamespace, this`tracks, this`upstreamRequestIndex,
               this`downstreamRequestIndex
      ensures Apart(sessions) && sessions.Values <= old(sessions.Values)
      ensures Fair(w.st, SessionClosed(s), c)
      ensures Did(w, ClosePlan(w, s, c), Model(), out)
    {
      UnregisterSession(s);
      assert Views(sessions) == w.st.sessions;
      out, c := LeaveAllTracks(s, w);
    }

    /** All tracks have been left: drop the empty routes and the session. */
    method FinishClose(s: SessionKey, ghost w: World, ghost c: Choice, ghost out: seq<Output>)
      requires Apart(sessions) && Views(sessions) == w.st.sessions
      requires publishersByNamespace == WithoutPublisher(w.st.publishers, s, PublishedBy(w.st, s))
      requires IsOrder(c.tracks, w.st.tracks.Keys)
      requires LeftSoFar(w, s, c.tracks, c.legs, tracks, upstreamRequestIndex, downstreamRequestIndex, out)
      modifies this`tracks, this`sessions
      ensures Apart(sessions) && sessions.Values <= old(sessions.Values)
      ensures Did(w, ClosePlan(w, s, c), Model(), out)
    {
      DepartLast(w, s, c, tracks, upstreamRequestIndex, downstreamRequestIndex, out);
      RemoveSession(s);
    }

    method UnregisterSession(s: SessionKey)
      modifies this`publishersByNamespace
      ensures publishersByNamespace == WithoutPublisher(old(publishersByNamespace), s, PublishedBy(old(Model()), s))
    {
      if s in sessions {
        UnregisterPublisher(s, sessions[s].publishedNamespaces);
      }
    }

    /** Take s out of the publisher index; a namespace without publishers leaves it too. */
    method UnregisterPublisher(s: SessionKey, nss: set<Namespace>)
      modifies this`publishersByNamespace
      ensures publishersByNamespace == WithoutPublisher(old(publishersByNamespace), s, nss)
    {
      var namespaces := Enumerate(nss);
      for i := 0 to |namespaces|
        invariant publishersByNamespace == WithoutPublisher(old(publishersByNamespace), s, ToSet(namespaces[..i]))
      {
        var ns := namespaces[i];
        assert ToSet(namespaces[..i + 1]) == ToSet(namespaces[..i]) + {ns};
        assert ns !in ToSet(namespaces[..i]);
        if ns in publishersByNamespace {
          var left := publishersByNamespace[ns] - {s};
          if left == {} {
            publishersByNamespace := publishersByNamespace - {ns};
          } else {
            publishersByNamespace := publishersByNamespace[ns := left];
          }
        }
      }
      assert ToSet(namespaces[..|namespaces|]) == nss;
    }

    /** Remove s from every track, and then for good. */
    method LeaveAllTracks(s: SessionKey, ghost w: World) returns (out: seq<Output>, ghost c: Choice)
      requires tracks == w.st.tracks && downstreamRequestIndex == w.st.downIndex && upstreamRequestIndex == w.st.upIndex
      requires Apart(sessions) && Views(sessions) == w.st.sessions
      requires publishersByNamespace == WithoutPublisher(w.st.publishers, s, PublishedBy(w.st, s))
      modifies this`sessions, this`tracks, this`upstreamRequestIndex, this`downstreamRequestIndex
      ensures Apart(sessions) && sessions.Values <= old(sessions.Values)
      ensures Fair(w.st, SessionClosed(s), c)
      ensures Did(w, ClosePlan(w, s, c), Model(), out)
    {
      var trackKeys := Enumerate(tracks.Keys);
      ghost var legs: map<TrackKey, seq<SessionKey>> := map[];
      out := [];
      NothingLeft(w, s, trackKeys);
      for i := 0 to |trackKeys|
        modifies this`tracks, this`upstreamRequestIndex, this`downstreamRequestIndex
        invariant LeftSoFar(w, s, trackKeys[..i], legs, tracks, upstreamRequestIndex, downstreamRequestIndex, out)
      {
        out, legs := LeaveNextTrack(s, trackKeys, i, out, w, legs);
      }
      assert trackKeys[..|trackKeys|] == trackKeys;
      c := NO_CHOICE.(tracks := trackKeys, legs := legs);
      FinishClose(s, w, c, out);
    }

    /** One more track of the list. */
    method LeaveNextTrack(s: SessionKey, trackKeys: seq<TrackKey>, i: nat, out: seq<Output>, ghost w: World,
                          ghost legs: map<TrackKey, seq<SessionKey>>)
      returns (sent: seq<Output>, ghost legs': map<TrackKey, seq<SessionKey>>)
      requires i < |trackKeys| && IsOrder(trackKeys, w.st.tracks.Keys)
      requires LeftSoFar(w, s, trackKeys[..i], legs, tracks, upstreamRequestIndex, downstreamRequestIndex, out)
      modifies this`tracks, this`upstreamRequestIndex, this`downstreamRequestIndex
      ensures LeftSoFar(w, s, trackKeys[..i + 1], legs', tracks, upstreamRequestIndex, downstreamRequestIndex, sent)
    {
      var t := trackKeys[i];
      TrackUntouched(w, s, trackKeys, i, legs);
      var more;
      ghost var order;
      more, order := LeaveOneTrack(s, t, w.st, Exec(w, LeaveTracks(w.st, s, trackKeys[..i], legs)));
      LeftOneMore(w, s, trackKeys, i, legs, order, out, more);
      HadLegSnoc(w.st, s, trackKeys, i);
      LegsSnoc(w.st, s, trackKeys, i, legs, order);
      return out + more, legs[t := order];
    }

    /** Remove s from track t; if nobody is left there, unsubscribe the remaining legs. */
    method LeaveOneTrack(s: SessionKey, t: TrackKey, ghost st: State, ghost w: World)
      returns (sent: seq<Output>, ghost order: seq<SessionKey>)
      requires t in tracks && RouteOr(st, t) == tracks[t]
      requires w.st.tracks == tracks && w.st.downIndex == downstreamRequestIndex
      modifies this`tracks, this`upstreamRequestIndex, this`downstreamRequestIndex
      ensures IsOrder(order, LiveLegs(ForgetIn(old(tracks)[t], s)))
      ensures upstreamRequestIndex
           == if s in old(tracks)[t].ups then WithoutRequestsOf(old(upstreamRequestIndex), s)
               else old(upstreamRequestIndex)
      ensures var w' := Exec(w, LeaveTrack(st, s, t, order));
              tracks == w'.st.tracks && downstreamRequestIndex == w'.st.downIndex && w'.log == w.log + Sent(sent)
    {
      ForgetSession(s, t);
      if NoActiveDownstream(tracks[t]) {
        ghost var here := World(Model(), {}, []);
        DidNothing(here);
        sent, order := UnsubscribeLegs(t, true, [], here, []);
        assert [] + Unsubs(order, t, true) == Unsubs(order, t, true);
        UnsubsKeepIndexes(here, order, t, Model(), sent);
        LeftTrack(w, st, s, t, order, here.st, Model(), sent);
      } else {
        sent, order := [], OrderOf(LiveLegs(tracks[t]));
        LeftQuietly(w, st, s, t, order);
      }
    }

    method ForgetSession(s: SessionKey, t: TrackKey)
      requires t in tracks
      modifies this`tracks, this`upstreamRequestIndex, this`downstreamRequestIndex
      ensures tracks == old(tracks)[t := ForgetIn(old(tracks)[t], s)]
      ensures downstreamRequestIndex
           == old(downstreamRequestIndex) - (set k | k in old(tracks)[t].downs && k.session == s)
      ensures upstreamRequestIndex
           == if s in old(tracks)[t].ups then WithoutRequestsOf(old(upstreamRequestIndex), s)
               else old(upstreamRequestIndex)
    {
      var route := tracks[t];
      if s in route.ups {
        upstreamRequestIndex := WithoutRequestsOf(upstreamRequestIndex, s);
      }
      var dsToRemove := Enumerate(set k | k in route.downs && k.session == s);
      var downs := route.downs;
      for i := 0 to |dsToRemove|
        modifies this`downstreamRequestIndex
        invariant downs == route.downs - ToSet(dsToRemove[..i])
        invariant downstreamRequestIndex == old(downstreamRequestIndex) - ToSet(dsToRemove[..i])
      {
        downs := downs - {dsToRemove[i]};
        downstreamRequestIndex := downstreamRequestIndex - {dsToRemove[i]};
        assert ToSet(dsToRemove[..i + 1]) == ToSet(dsToRemove[..i]) + {dsToRemove[i]};
      }
      assert ToSet(dsToRemove[..|dsToRemove|]) == set k | k in route.downs && k.session == s;
      assert downs == ForgetIn(route, s).downs;
      tracks := tracks[t := route.(downs := downs, ups := route.ups - {s})];
    }

    /** Drop the empty routes and the session itself. */
    method RemoveSession(s: SessionKey)
      requires Apart(sessions)
      modifies this`tracks, this`sessions
      ensures Apart(sessions) && sessions.Values <= old(sessions.Values)
      ensures Views(sessions) == old(Views(sessions)) - {s} && tracks == NonEmptyRoutes(old(tracks))
    {
      tracks := NonEmptyRoutes(tracks);
      sessions := sessions - {s};
      assert Views(sessions) == old(Views(sessions)) - {s};
    }

    // ---- Dispatch ----

    method OnControlMessage(s: SessionKey, channel: Channel, m: ControlMessage, ghost w: World)
      returns (out: seq<Output>, ghost c: Choice)
      requires Apart(sessions) && w.st == Model() && Inv(w)
      modifies this`publishersByNamespace, this`tracks, this`upstreamRequestIndex, this`downstreamRequestIndex,
               sessions.Values
      ensures FairControl(w.st, s, m, c)
      ensures Did(w, ControlPlan(config, w, s, channel, m, c), Model(), out)
    {
      c := AnyChoice(w.st, s, m);
      if s !in sessions {
        DidOne(w, Say(Close(s, ProtocolViolation)));
        return [Close(s, ProtocolViolation)], c;
      }
      if m.ClientSetup? {
        out := HandleClientSetup(s, channel, w);
      } else if m.ServerSetup? {
        out := HandleServerSetup(s, m.parameters, w);
      } else if m.MaxRequestId? {
        out := HandleMaxRequestId(s, m.maxRequestId, w);
      } else if m.RequestsBlocked? {
        DidNothing(w);
        out := [];
      } else if m.Goaway? {
        out := HandleGoaway(s, m.newSessionUri, w);
      } else if m.PublishNamespace? {
        out, c := HandlePublishNamespace(s, channel, m.requestId, m.trackNamespace, w);
      } else if m.Subscribe? {
        out, c := HandleSubscribe(s, channel, m.requestId, TrackKey(m.trackNamespace, m.trackName), m.parameters, w);
      } else if m.SubscribeOk? {
        out, c := HandleSubscribeOk(s, m.requestId, m.trackAlias, m.trackExtensions, w);
      } else if m.RequestError? || m.Unsubscribe? || m.PublishDone? {
        out, c := OnEndingMessage(s, channel, m, w);
      } else {
        out := HandleOther(s, w);
      }
    }

    /** Messages by which one side ends a subscription. */
    method OnEndingMessage(s: SessionKey, ghost channel: Channel, m: ControlMessage, ghost w: World)
      returns (out: seq<Output>, ghost c: Choice)
      requires Apart(sessions) && w.st == Model() && Inv(w) && s in sessions
      requires m.RequestError? || m.Unsubscribe? || m.PublishDone?
      modifies this`tracks, this`upstreamRequestIndex, this`downstreamRequestIndex
      ensures FairControl(w.st, s, m, c)
      ensures Did(w, ControlPlan(config, w, s, channel, m, c), Model(), out)
    {
      if m.RequestError? {
        out, c := HandleRequestError(s, m.requestId, Refused(m.errorCode, m.retryInterval, m.errorReason), w);
      } else if m.Unsubscribe? {
        out, c := HandleUnsubscribe(s, m.requestId, w);
      } else {
        out, c := HandlePublishDone(s, m.requestId, Completed(m.statusCode, m.streamCount, m.errorReason), w);
      }
      EndingPlanIs(config, w, s, channel, m, c);
    }

    /** Other messages are ignored, once the session is set up. */
    method HandleOther(s: SessionKey, ghost w: World) returns (out: seq<Output>)
      requires s in sessions && w.st == Model()
      ensures Did(w, if w.st.sessions[s].setupDone then [] else Violation(s), Model(), out)
    {
      if !sessions[s].setupDone {
        DidOne(w, Say(Close(s, ProtocolViolation)));
        return [Close(s, ProtocolViolation)];
      }
      DidNothing(w);
      return [];
    }

    method Dispatch(ev: Event, ghost w: World) returns (out: seq<Output>, ghost c: Choice)
      requires Apart(sessions) && w.st == Model() && Inv(w)
      modifies this`sessions, this`publishersByNamespace, this`tracks, this`upstreamRequestIndex,
               this`downstreamRequestIndex,
               sessions.Values
      ensures Apart(sessions) && fresh(sessions.Values - old(sessions.Values))
      ensures Fair(w.st, ev, c)
      ensures Did(w, Plan(config, w, ev, c), Model(), out)
    {
      c := NO_CHOICE;
      match ev
      case SessionOpened(s, role) => out := OnSessionOpened(s, role, w);
      case SessionClosed(s) => out, c := OnSessionClosed(s, w);
      case Control(s, channel, m) => out, c := OnControlMessage(s, channel, m, w);
      case ObjectReceived(s, alias, body) => out, c := OnSubscriptionObject(s, alias, body, w);
      case FetchObjectReceived(_) => DidNothing(w); out := [];
    }

    /** Handle one event; the run so far and this event lead to the new maps. */
    method Advance(ev: Event) returns (out: seq<Output>, ghost c: Choice, ghost longer: seq<Stimulus>)
      requires Valid()
      requires ev.SessionOpened? ==> ev.session !in used
      requires ev.Control? ==> WireOk(ev.message)
      modifies this`sessions, this`publishersByNamespace, this`tracks, this`upstreamRequestIndex,
               this`downstreamRequestIndex,
               sessions.Values
      ensures Apart(sessions) && fresh(sessions.Values - old(sessions.Values))
      ensures longer == run + [Stimulus(ev, c)]
      ensures ValidRun(config, longer) && Reach(config, longer)
              == World(Model(), Reach(config, longer).used, log + [Rx(ev)] + Sent(out))
    {
      ReadyForEvent(config, run, ev);
      out, c := Dispatch(ev, Receive(Reach(config, run), ev));
      RunGrows(config, run, ev, c, Model(), out);
      longer := run + [Stimulus(ev, c)];
    }

    /** One event in, outputs out: the run grows by this event, handled in some iteration order. */
    method OnEvent(ev: Event) returns (out: seq<Output>, ghost c: Choice)
      requires Valid()
      requires ev.SessionOpened? ==> ev.session !in used
      requires ev.Control? ==> WireOk(ev.message)
      modifies this, sessions.Values
      ensures Valid() && fresh(sessions.Values - old(sessions.Values))
      ensures run == old(run) + [Stimulus(ev, c)] && log == old(log) + [Rx(ev)] + Sent(out)
    {
      ghost var longer;
      out, c, longer := Advance(ev);
      ghost var m := Model();
      run, log, used := longer, log + [Rx(ev)] + Sent(out), Reach(config, longer).used;
      assert Model() == m;
    }
  }
}
