/** What a handler has done so far, act by act: the facts the relay's loops and branches need. */
module RelayDid {
  import opened MoqTypes
  import opened RelayState
  import opened RelayLog
  import opened RelayActs
  import opened RelayPlan
  import opened RelayInv
  import opened RelayTrace
  import opened RelayLegal
  import opened RelayHandlers
  import opened RelayRuns
  import opened RelayTheorems

  /** From world w, the acts lead to the maps st and send the outputs. */
  ghost predicate Did(w: World, acts: seq<Act>, st: State, out: seq<Output>) {
    Exec(w, acts).st == st && Exec(w, acts).log == w.log + Sent(out)
  }

  lemma DidNothing(w: World)
    ensures Did(w, [], w.st, [])
  {
    assert w.log + Sent([]) == w.log;
  }

  lemma DidNext(w: World, acts: seq<Act>, st: State, out: seq<Output>, act: Act)
    requires Did(w, acts, st, out)
    ensures Did(w, acts + [act], Apply(st, act), out + Emit(st, act))
  {
    ExecSnoc(w, acts, act);
    var more := Emit(st, act);
    assert Sent(out + more) == Sent(out) + Sent(more);
    assert w.log + Sent(out) + Sent(more) == w.log + (Sent(out) + Sent(more));
  }

  lemma DidOne(w: World, act: Act)
    ensures Did(w, [act], Apply(w.st, act), Emit(w.st, act))
  {
    DidNothing(w);
    DidNext(w, [], w.st, [], act);
    assert [] + [act] == [act] && [] + Emit(w.st, act) == Emit(w.st, act);
  }

  lemma DidTwo(w: World, a: Act, b: Act)
    ensures Did(w, [a, b], Apply(Apply(w.st, a), b), Emit(w.st, a) + Emit(Apply(w.st, a), b))
  {
    DidOne(w, a);
    DidNext(w, [a], Apply(w.st, a), Emit(w.st, a), b);
    assert [a] + [b] == [a, b];
  }

  lemma DidOpen(w: World, s: SessionKey, role: EndpointRole, localMax: nat, peerMax: nat)
    ensures var sess := NewSession(role, localMax, peerMax);
            Did(w, [Open(s, role, localMax, peerMax)], w.st.(sessions := w.st.sessions[s := sess]), [])
  {
    DidOne(w, Open(s, role, localMax, peerMax));
  }

  /** The plan of a message by which one side ends a subscription, and what its orders must enumerate. */
  lemma EndingPlanIs(cfg: RelayConfig, w: World, s: SessionKey, ch: Channel, m: ControlMessage, c: Choice)
    requires s in w.st.sessions && (m.RequestError? || m.Unsubscribe? || m.PublishDone?)
    ensures ControlPlan(cfg, w, s, ch, m, c)
         == if m.RequestError?
            then RequestErrorPlan(w, s, m.requestId, Refused(m.errorCode, m.retryInterval, m.errorReason), c)
            else if m.Unsubscribe? then UnsubscribePlan(w, s, m.requestId, c)
            else PublishDonePlan(w, s, m.requestId, Completed(m.statusCode, m.streamCount, m.errorReason), c)
  {
  }

  // ---- Acts written out ----

  lemma OpenLegIs(st: State, p: SessionKey, t: TrackKey)
    requires CanOpenLeg(st, p, t)
    ensures var id := st.sessions[p].localNext;
            var route := st.tracks[t];
            && Apply(st, OpenLeg(p, t))
               == State(st.sessions[p := st.sessions[p].(localNext := id + 2)], st.publishers,
                        st.tracks[t := route.(ups := route.ups[p := Leg(id, Pending, None, false)])],
                        st.upIndex[RequestKey(p, id) := t], st.downIndex)
            && Emit(st, OpenLeg(p, t)) == [Send(p, ControlStream, Subscribe(id, t.namespace, t.name, []))]
  {
  }

  lemma OpenLegIdles(st: State, p: SessionKey, t: TrackKey)
    requires !CanOpenLeg(st, p, t)
    ensures Apply(st, OpenLeg(p, t)) == st && Emit(st, OpenLeg(p, t)) == []
  {
  }

  lemma GrantIs(st: State, k: RequestKey, t: TrackKey, ch: Channel, exts: Extensions)
    requires HasSub(st, t, k) && k.session in st.sessions
    ensures var sess := st.sessions[k.session];
            var route := st.tracks[t];
            var sub := route.downs[k].(state := Established, forwardDesired := false,
                                       outboundAlias := Some(sess.nextOutbound));
            && Apply(st, Grant(k, t, ch, exts))
               == State(st.sessions[k.session := sess.(nextOutbound := sess.nextOutbound + 1)], st.publishers,
                        st.tracks[t := route.(downs := route.downs[k := sub])], st.upIndex, st.downIndex)
            && Emit(st, Grant(k, t, ch, exts))
               == [Send(k.session, ch, SubscribeOk(k.id, sess.nextOutbound, [], exts))]
  {
  }

  // One more round of a loop is one more act of its list.

  lemma DidUnsub(w: World, acts: seq<Act>, st: State, out: seq<Output>, order: seq<SessionKey>, i: nat, t: TrackKey,
                 keepIndex: bool)
    requires i < |order| && Did(w, acts + Unsubs(order[..i], t, keepIndex), st, out)
    ensures Did(w, acts + Unsubs(order[..i + 1], t, keepIndex), Apply(st, Unsub(order[i], t, keepIndex)),
                out + Emit(st, Unsub(order[i], t, keepIndex)))
  {
    DidNext(w, acts + Unsubs(order[..i], t, keepIndex), st, out, Unsub(order[i], t, keepIndex));
    assert order[..i + 1][..i] == order[..i];
    assert acts + Unsubs(order[..i + 1], t, keepIndex)
           == acts + Unsubs(order[..i], t, keepIndex) + [Unsub(order[i], t, keepIndex)];
  }

  lemma DidOffer(w: World, acts: seq<Act>, st: State, out: seq<Output>, order: seq<TrackKey>, i: nat, s: SessionKey,
                 ns: Namespace)
    requires i < |order| && Did(w, acts + OfferTracks(order[..i], s, ns), st, out)
    ensures if IsPrefixOf(ns, order[i].namespace)
            then Did(w, acts + OfferTracks(order[..i + 1], s, ns), Apply(st, OpenLeg(s, order[i])),
                     out + Emit(st, OpenLeg(s, order[i])))
            else Did(w, acts + OfferTracks(order[..i + 1], s, ns), st, out)
  {
    assert order[..i + 1][..i] == order[..i];
    if IsPrefixOf(ns, order[i].namespace) {
      DidNext(w, acts + OfferTracks(order[..i], s, ns), st, out, OpenLeg(s, order[i]));
      assert acts + OfferTracks(order[..i + 1], s, ns)
             == acts + OfferTracks(order[..i], s, ns) + [OpenLeg(s, order[i])];
    } else {
      assert acts + OfferTracks(order[..i + 1], s, ns) == acts + OfferTracks(order[..i], s, ns);
    }
  }

  lemma DidAsk(w: World, acts: seq<Act>, st: State, out: seq<Output>, order: seq<SessionKey>, i: nat, t: TrackKey)
    requires i < |order| && Did(w, acts + OpenLegs(order[..i], t), st, out)
    ensures Did(w, acts + OpenLegs(order[..i + 1], t), Apply(st, OpenLeg(order[i], t)),
                out + Emit(st, OpenLeg(order[i], t)))
  {
    DidNext(w, acts + OpenLegs(order[..i], t), st, out, OpenLeg(order[i], t));
    assert order[..i + 1][..i] == order[..i];
    assert acts + OpenLegs(order[..i + 1], t) == acts + OpenLegs(order[..i], t) + [OpenLeg(order[i], t)];
  }

  lemma DidGrant(w: World, acts: seq<Act>, st: State, out: seq<Output>, order: seq<RequestKey>, i: nat, t: TrackKey,
                 exts: Extensions)
    requires i < |order| && Did(w, acts + Grants(order[..i], t, exts), st, out)
    ensures Did(w, acts + Grants(order[..i + 1], t, exts), Apply(st, Grant(order[i], t, ControlStream, exts)),
                out + Emit(st, Grant(order[i], t, ControlStream, exts)))
  {
    DidNext(w, acts + Grants(order[..i], t, exts), st, out, Grant(order[i], t, ControlStream, exts));
    assert order[..i + 1][..i] == order[..i];
    assert acts + Grants(order[..i + 1], t, exts)
           == acts + Grants(order[..i], t, exts) + [Grant(order[i], t, ControlStream, exts)];
  }

  lemma EndsSnoc(acts: seq<Act>, order: seq<RequestKey>, i: nat, t: TrackKey, verdict: Verdict)
    requires i < |order|
    ensures acts + Ends(order[..i], t, verdict) + [End(order[i], t, ControlStream, verdict)]
            == acts + Ends(order[..i + 1], t, verdict)
  {
    assert order[..i + 1][..i] == order[..i];
  }

  lemma DidForward(w: World, st: State, out: seq<Output>, order: seq<RequestKey>, k: RequestKey, t: TrackKey,
                   body: ObjectBody)
    requires Did(w, Forwards(order, t, body), st, out)
    ensures Did(w, Forwards(order + [k], t, body), st, out + Emit(st, Forward(k, t, body)))
  {
    DidNext(w, Forwards(order, t, body), st, out, Forward(k, t, body));
    assert (order + [k])[..|order|] == order;
  }

  predicate GetsObjects(r: TrackRoute, k: RequestKey) {
    k in r.downs && r.downs[k].state.Established? && r.downs[k].outboundAlias.Some?
  }

  /** Those of the listed subscriptions that get objects. */
  ghost function ReadyOf(order: seq<RequestKey>, r: TrackRoute): seq<RequestKey> {
    if order == [] then [] else
    var k := order[|order| - 1];
    ReadyOf(order[..|order|-1], r) + (if GetsObjects(r, k) then [k] else [])
  }

  lemma ReadySnoc(order: seq<RequestKey>, i: nat, r: TrackRoute)
    requires i < |order|
    ensures ReadyOf(order[..i + 1], r) == ReadyOf(order[..i], r) + (if GetsObjects(r, order[i]) then [order[i]] else [])
  {
    assert order[..i + 1][..i] == order[..i];
  }

  /** One round of the forwarding loop. */
  lemma ForwardRound(w: World, out: seq<Output>, ready: seq<RequestKey>, k: RequestKey, t: TrackKey, body: ObjectBody)
    requires t in w.st.tracks && Did(w, Forwards(ready, t, body), w.st, out)
    ensures if GetsObjects(w.st.tracks[t], k)
            then Did(w, Forwards(ready + [k], t, body), w.st,
                     out + [SendObject(k.session, w.st.tracks[t].downs[k].outboundAlias.value, body)])
            else Did(w, Forwards(ready + [], t, body), w.st, out)
  {
    if GetsObjects(w.st.tracks[t], k) {
      DidForward(w, w.st, out, ready, k, t, body);
    } else {
      assert ready + [] == ready;
    }
  }

  lemma {:induction false} ReadyMembers(order: seq<RequestKey>, r: TrackRoute)
    requires Distinct(order)
    ensures Distinct(ReadyOf(order, r))
    ensures forall k :: k in ReadyOf(order, r) <==> k in order && GetsObjects(r, k)
  {
    if order != [] {
      var n := |order| - 1;
      ReadyMembers(order[..n], r);
      assert order == order[..n] + [order[n]];
      assert order[n] !in order[..n];
    }
  }

  lemma ReadyIsOrder(order: seq<RequestKey>, r: TrackRoute)
    requires IsOrder(order, r.downs.Keys)
    ensures IsOrder(ReadyOf(order, r), ReadySubs(r))
  {
    ReadyMembers(order, r);
  }

  /** The acts read nothing but the maps: history only accumulates. */
  lemma {:induction false} HistoryAccumulates(w: World, acts: seq<Act>)
    ensures Exec(w, acts).st == Exec(World(w.st, {}, []), acts).st
    ensures Exec(w, acts).log == w.log + Exec(World(w.st, {}, []), acts).log
  {
    if acts != [] {
      HistoryAccumulates(w, acts[..|acts|-1]);
    } else {
      assert w.log + [] == w.log;
    }
  }

  /** Some order of a set, where the program stops before it iterates. */
  ghost function OrderOf<T(!new)>(xs: set<T>): (order: seq<T>)
    ensures IsOrder(order, xs)
    decreases |xs|
  {
    if xs == {} then [] else
    var x :| x in xs;
    OrderOf(xs - {x}) + [x]
  }

  /** A choice of orders for a message that is turned away. */
  ghost function AnyChoice(st: State, s: SessionKey, m: ControlMessage): (c: Choice)
    ensures FairControl(st, s, m, c)
  {
    match m
    case PublishNamespace(_, _, _) => NO_CHOICE.(tracks := OrderOf(st.tracks.Keys))
    case Subscribe(_, ns, _, _) => NO_CHOICE.(peers := OrderOf(MatchPublishers(st, ns)))
    case SubscribeOk(r, _, _, _) =>
      if RequestKey(s, r) !in st.upIndex then NO_CHOICE
      else NO_CHOICE.(subs := OrderOf(GrantableSubs(RouteOr(st, st.upIndex[RequestKey(s, r)]))))
    case RequestError(r, _, _, _) =>
      if RequestKey(s, r) !in st.upIndex then NO_CHOICE
      else NO_CHOICE.(subs := OrderOf(PendingSubs(RouteOr(st, st.upIndex[RequestKey(s, r)]))))
    case PublishDone(r, _, _, _) =>
      if RequestKey(s, r) !in st.upIndex then NO_CHOICE
      else NO_CHOICE.(subs := OrderOf(EstablishedSubs(RouteOr(st, st.upIndex[RequestKey(s, r)]))),
                     late := OrderOf(PendingSubs(RouteOr(st, st.upIndex[RequestKey(s, r)]))))
    case Unsubscribe(id) =>
      if RequestKey(s, id) !in st.downIndex then NO_CHOICE
      else NO_CHOICE.(peers := OrderOf(LiveLegs(RouteOr(st, st.downIndex[RequestKey(s, id)]))))
    case _ => NO_CHOICE
  }

  ghost const NO_CHOICE: Choice := Choice([], [], [], [], map[])

  function IdTaken(st: State, s: SessionKey): State
    requires s in st.sessions
  {
    PutSession(st, s, st.sessions[s].(peerNext := st.sessions[s].peerNext + 2))
  }

  function Announced(st: State, s: SessionKey, ns: Namespace): State
    requires s in st.sessions
  {
    var sess := st.sessions[s];
    st.(sessions := st.sessions[s := sess.(peerNext := sess.peerNext + 2, published := sess.published + {ns})],
        publishers := st.publishers[ns := PublishersOf(st, ns) + {s}])
  }

  lemma AnnounceIs(st: State, s: SessionKey, ns: Namespace)
    requires s in st.sessions
    ensures Apply(st, Announce(s, ns)) == Announced(st, s, ns)
  {
  }

  lemma {:induction false} LeaveTracksIgnores(st: State, s: SessionKey, order: seq<TrackKey>,
                                              legs: map<TrackKey, seq<SessionKey>>,
                                              t: TrackKey, more: seq<SessionKey>)
    requires t !in order
    ensures LeaveTracks(st, s, order, legs[t := more]) == LeaveTracks(st, s, order, legs)
  {
    if order != [] { LeaveTracksIgnores(st, s, order[..|order|-1], legs, t, more); }
  }

  ghost predicate LegsOrdered(st: State, s: SessionKey, order: seq<TrackKey>, legs: map<TrackKey, seq<SessionKey>>) {
    forall t :: t in order && t in st.tracks ==> t in legs && IsOrder(legs[t], LiveLegs(ForgetIn(st.tracks[t], s)))
  }

  predicate HadLegIn(st: State, s: SessionKey, order: seq<TrackKey>) {
    exists t :: t in order && t in st.tracks && s in st.tracks[t].ups
  }

  lemma HadLegSnoc(st: State, s: SessionKey, order: seq<TrackKey>, i: nat)
    requires i < |order|
    ensures HadLegIn(st, s, order[..i + 1])
       <==> HadLegIn(st, s, order[..i]) || (order[i] in st.tracks && s in st.tracks[order[i]].ups)
  {
    assert order[..i + 1] == order[..i] + [order[i]];
    if t :| t in order[..i] && t in st.tracks && s in st.tracks[t].ups {
      assert t in order[..i + 1];
    }
    assert order[i] in order[..i + 1];
  }

  lemma LegsSnoc(st: State, s: SessionKey, order: seq<TrackKey>, i: nat, legs: map<TrackKey, seq<SessionKey>>,
                 legOrder: seq<SessionKey>)
    requires i < |order| && LegsOrdered(st, s, order[..i], legs)
    requires order[i] in st.tracks ==> IsOrder(legOrder, LiveLegs(ForgetIn(st.tracks[order[i]], s)))
    ensures LegsOrdered(st, s, order[..i + 1], legs[order[i] := legOrder])
  {
    assert order[..i + 1] == order[..i] + [order[i]];
  }

  lemma AllTracksSeen(st: State, s: SessionKey, order: seq<TrackKey>)
    requires IsOrder(order, st.tracks.Keys)
    ensures HadLegIn(st, s, order) <==> HadLeg(st, s)
  {
  }

  /** A track whose turn has not come is as it was. */
  lemma TrackUntouched(w: World, s: SessionKey, order: seq<TrackKey>, i: nat, legs: map<TrackKey, seq<SessionKey>>)
    requires i < |order| && IsOrder(order, w.st.tracks.Keys) && LegsOrdered(w.st, s, order[..i], legs)
    ensures var w1 := Exec(w, LeaveTracks(w.st, s, order[..i], legs));
            order[i] in w.st.tracks && order[i] in w1.st.tracks && w1.st.tracks[order[i]] == w.st.tracks[order[i]]
  {
    assert order[i] in order && order[i] !in order[..i];
    forall t | t in order[..i] ensures t in w.st.tracks { assert t in order; }
    LeaveTracksEffect(w, s, order[..i], legs);
  }

  lemma UnsubsKeepIndexes(w: World, order: seq<SessionKey>, t: TrackKey, st: State, out: seq<Output>)
    requires t in w.st.tracks && NoActiveDownstream(w.st.tracks[t]) && IsOrder(order, LiveLegs(w.st.tracks[t]))
    requires Did(w, Unsubs(order, t, true), st, out)
    ensures st.upIndex == w.st.upIndex && st.downIndex == w.st.downIndex
  {
    UnsubsEffect(w, order, t, true);
  }

  lemma UnsubAlike(st1: State, st2: State, p: SessionKey, t: TrackKey)
    requires st1.tracks == st2.tracks
    ensures Apply(st1, Unsub(p, t, true)).tracks == Apply(st2, Unsub(p, t, true)).tracks
    ensures Emit(st1, Unsub(p, t, true)) == Emit(st2, Unsub(p, t, true))
    ensures Apply(st1, Unsub(p, t, true)).downIndex == st1.downIndex
  {
  }

  /** UNSUBSCRIBE looks at nothing but the tracks. */
  lemma {:induction false} UnsubsAlike(st1: State, st2: State, order: seq<SessionKey>, t: TrackKey)
    requires st1.tracks == st2.tracks
    ensures var u1, u2 := Exec(World(st1, {}, []), Unsubs(order, t, true)),
            Exec(World(st2, {}, []), Unsubs(order, t, true));
            u1.st.tracks == u2.st.tracks && u1.st.downIndex == st1.downIndex && u1.log == u2.log
  {
    if order != [] {
      var n := |order| - 1;
      UnsubsAlike(st1, st2, order[..n], t);
      ExecSnoc(World(st1, {}, []), Unsubs(order[..n], t, true), Unsub(order[n], t, true));
      ExecSnoc(World(st2, {}, []), Unsubs(order[..n], t, true), Unsub(order[n], t, true));
      UnsubAlike(Exec(World(st1, {}, []), Unsubs(order[..n], t, true)).st,
                 Exec(World(st2, {}, []), Unsubs(order[..n], t, true)).st, order[n], t);
    }
  }

  /** Forget, then UNSUBSCRIBE on the legs of an emptied track, whatever the other maps hold. */
  lemma LeftTrack(w: World, st: State, s: SessionKey, t: TrackKey, order: seq<SessionKey>, here: State, here': State,
                  sent: seq<Output>)
    requires t in w.st.tracks && RouteOr(st, t) == w.st.tracks[t]
    requires NoActiveDownstream(ForgetIn(w.st.tracks[t], s))
    requires here.tracks == w.st.tracks[t := ForgetIn(w.st.tracks[t], s)]
    requires Did(World(here, {}, []), Unsubs(order, t, true), here', sent)
    ensures var w' := Exec(w, LeaveTrack(st, s, t, order));
            w'.st.tracks == here'.tracks && w'.log == w.log + Sent(sent)
            && w'.st.downIndex == w.st.downIndex - (set k | k in w.st.tracks[t].downs && k.session == s)
  {
    var forget := Forget(s, t);
    var w1 := ApplyWorld(w, forget);
    SingleAct(w, forget);
    ExecAppend(w, [forget], Unsubs(order, t, true));
    assert w1.log == w.log && w1.st.tracks == here.tracks;
    HistoryAccumulates(w1, Unsubs(order, t, true));
    UnsubsAlike(w1.st, here, order, t);
    assert [] + Sent(sent) == Sent(sent);
  }

  lemma LeftQuietly(w: World, st: State, s: SessionKey, t: TrackKey, order: seq<SessionKey>)
    requires t in w.st.tracks && RouteOr(st, t) == w.st.tracks[t]
    requires !NoActiveDownstream(ForgetIn(w.st.tracks[t], s))
    ensures var w' := Exec(w, LeaveTrack(st, s, t, order));
            w'.st.tracks == w.st.tracks[t := ForgetIn(w.st.tracks[t], s)] && w'.log == w.log + Sent([])
            && w'.st.downIndex == w.st.downIndex - (set k | k in w.st.tracks[t].downs && k.session == s)
  {
    SingleAct(w, Forget(s, t));
    assert LeaveTrack(st, s, t, order) == [Forget(s, t)];
    assert w.log + Sent([]) == w.log;
  }

  /** One more track left by s. */
  lemma LeftOneMore(w: World, s: SessionKey, order: seq<TrackKey>, i: nat, legs: map<TrackKey, seq<SessionKey>>,
                    legOrder: seq<SessionKey>,
                    out: seq<Output>, more: seq<Output>)
    requires i < |order| && Distinct(order)
    requires var w1 := Exec(w, LeaveTracks(w.st, s, order[..i], legs));
             w1.log == w.log + Sent(out) && Exec(w1, LeaveTrack(w.st, s, order[i], legOrder)).log == w1.log + Sent(more)
    ensures var w1 := Exec(w, LeaveTracks(w.st, s, order[..i], legs));
            var w' := Exec(w, LeaveTracks(w.st, s, order[..i + 1], legs[order[i] := legOrder]));
            w' == Exec(w1, LeaveTrack(w.st, s, order[i], legOrder)) && w'.log == w.log + Sent(out + more)
  {
    var acts := LeaveTracks(w.st, s, order[..i], legs);
    var last := LeaveTrack(w.st, s, order[i], legOrder);
    LeaveTracksSnoc(w.st, s, order, i, legs, legOrder);
    JoinLogs(w, acts, last, out, more);
  }

  lemma JoinLogs(w: World, xs: seq<Act>, ys: seq<Act>, out: seq<Output>, more: seq<Output>)
    requires Exec(w, xs).log == w.log + Sent(out) && Exec(Exec(w, xs), ys).log == Exec(w, xs).log + Sent(more)
    ensures Exec(w, xs + ys) == Exec(Exec(w, xs), ys) && Exec(w, xs + ys).log == w.log + Sent(out + more)
  {
    ExecAppend(w, xs, ys);
    SentAppend(w.log, out, more);
  }

  lemma SentAppend(log: seq<Obs>, out: seq<Output>, more: seq<Output>)
    ensures log + Sent(out) + Sent(more) == log + Sent(out + more)
  {
    assert Sent(out + more) == Sent(out) + Sent(more);
  }

  lemma LeaveTracksSnoc(st: State, s: SessionKey, order: seq<TrackKey>, i: nat, legs: map<TrackKey, seq<SessionKey>>,
                        legOrder: seq<SessionKey>)
    requires i < |order| && Distinct(order)
    ensures LeaveTracks(st, s, order[..i + 1], legs[order[i] := legOrder])
         == LeaveTracks(st, s, order[..i], legs) + LeaveTrack(st, s, order[i], legOrder)
  {
    assert order[i] !in order[..i];
    assert order[..i + 1][..i] == order[..i];
    LeaveTracksIgnores(st, s, order[..i], legs, order[i], legOrder);
  }

  /** The maps once s, which has left its tracks, has departed. */
  function Departed(st: State, s: SessionKey, tracks: map<TrackKey, TrackRoute>, upIndex: map<RequestKey, TrackKey>,
                    downIndex: map<RequestKey, TrackKey>): State {
    State(st.sessions - {s}, WithoutPublisher(st.publishers, s, PublishedBy(st, s)), NonEmptyRoutes(tracks), upIndex,
          downIndex)
  }

  /** The tracks in order have been left by s: what the three maps hold, and what has been sent. */
  ghost predicate LeftSoFar(w: World, s: SessionKey, order: seq<TrackKey>, legs: map<TrackKey, seq<SessionKey>>,
                            tracks: map<TrackKey, TrackRoute>, upIndex: map<RequestKey, TrackKey>,
                            downIndex: map<RequestKey, TrackKey>, out: seq<Output>)
  {
    var w' := Exec(w, LeaveTracks(w.st, s, order, legs));
    && LegsOrdered(w.st, s, order, legs)
    && tracks == w'.st.tracks && downIndex == w'.st.downIndex && w'.log == w.log + Sent(out)
    && upIndex == if HadLegIn(w.st, s, order) then WithoutRequestsOf(w.st.upIndex, s) else w.st.upIndex
  }

  lemma NothingLeft(w: World, s: SessionKey, order: seq<TrackKey>)
    ensures LeftSoFar(w, s, order[..0], map[], w.st.tracks, w.st.upIndex, w.st.downIndex, [])
  {
    assert w.log + Sent([]) == w.log;
  }

  lemma DepartIs(st: State, s: SessionKey, ts: set<TrackKey>)
    ensures Apply(LeaveAll(st, s, ts), Depart(s, HadLeg(st, s)))
         == Departed(st, s, LeaveAll(st, s, ts).tracks,
                     if HadLeg(st, s) then WithoutRequestsOf(st.upIndex, s)
                         else st.upIndex, LeaveAll(st, s, ts).downIndex)
  {
  }

  lemma ReadyForEvent(cfg: RelayConfig, run: seq<Stimulus>, ev: Event)
    requires ConfigOk(cfg) && ValidRun(cfg, run)
    ensures Inv(Receive(Reach(cfg, run), ev))
  {
    Reachable(cfg, run);
    ReceiveKeeps(Reach(cfg, run), ev);
  }

  /** A handler that has carried out its plan has made one more step of the run. */
  lemma RunGrows(cfg: RelayConfig, run: seq<Stimulus>, ev: Event, c: Choice, st: State, out: seq<Output>)
    requires ValidRun(cfg, run) && Admissible(Reach(cfg, run), Stimulus(ev, c))
    requires var w1 := Receive(Reach(cfg, run), ev); Did(w1, Plan(cfg, w1, ev, c), st, out)
    ensures ValidRun(cfg, run + [Stimulus(ev, c)])
    ensures Reach(cfg, run + [Stimulus(ev, c)]).st == st
    ensures Reach(cfg, run + [Stimulus(ev, c)]).log == Reach(cfg, run).log + [Rx(ev)] + Sent(out)
  {
    SplitStep(cfg, run, Stimulus(ev, c));
  }

  lemma DepartFair(w: World, s: SessionKey, c: Choice)
    requires IsOrder(c.tracks, w.st.tracks.Keys) && LegsOrdered(w.st, s, c.tracks, c.legs)
    ensures Fair(w.st, SessionClosed(s), c)
  {
  }

  lemma DepartLast(w: World, s: SessionKey, c: Choice, tracks: map<TrackKey, TrackRoute>,
                   upIndex: map<RequestKey, TrackKey>,
                   downIndex: map<RequestKey, TrackKey>, out: seq<Output>)
    requires IsOrder(c.tracks, w.st.tracks.Keys) && LeftSoFar(w, s, c.tracks, c.legs, tracks, upIndex, downIndex, out)
    ensures Fair(w.st, SessionClosed(s), c)
    ensures Did(w, ClosePlan(w, s, c), Departed(w.st, s, tracks, upIndex, downIndex), out)
  {
    DepartFair(w, s, c);
    DepartDid(w, s, c, tracks, upIndex, downIndex, out);
  }

  lemma DepartDid(w: World, s: SessionKey, c: Choice, tracks: map<TrackKey, TrackRoute>,
                  upIndex: map<RequestKey, TrackKey>,
                  downIndex: map<RequestKey, TrackKey>, out: seq<Output>)
    requires Fair(w.st, SessionClosed(s), c) && LeftSoFar(w, s, c.tracks, c.legs, tracks, upIndex, downIndex, out)
    ensures Did(w, ClosePlan(w, s, c), Departed(w.st, s, tracks, upIndex, downIndex), out)
  {
    var acts := LeaveTracks(w.st, s, c.tracks, c.legs);
    DepartState(w, s, c, tracks, upIndex, downIndex, out);
    DidNext(w, acts, Exec(w, acts).st, out, Depart(s, HadLeg(w.st, s)));
    assert out + [] == out;
  }

  lemma DepartState(w: World, s: SessionKey, c: Choice, tracks: map<TrackKey, TrackRoute>,
                    upIndex: map<RequestKey, TrackKey>,
                    downIndex: map<RequestKey, TrackKey>, out: seq<Output>)
    requires Fair(w.st, SessionClosed(s), c) && LeftSoFar(w, s, c.tracks, c.legs, tracks, upIndex, downIndex, out)
    ensures Apply(Exec(w, LeaveTracks(w.st, s, c.tracks, c.legs)).st, Depart(s, HadLeg(w.st, s)))
         == Departed(w.st, s, tracks, upIndex, downIndex)
  {
    LeaveTracksEffect(w, s, c.tracks, c.legs);
    AllTracksSeen(w.st, s, c.tracks);
    DepartIs(w.st, s, ToSet(c.tracks));
  }

  function WithdrawActs(st: State, k: RequestKey, t: TrackKey, c: Choice): seq<Act> {
    var gone := End(k, t, ControlStream, Withdrawn);
    if NoActiveDownstream(RouteOr(Apply(st, gone), t)) then [gone] + Unsubs(c.peers, t, false) + [Drop(t)] else [gone]
  }

  /** With its last subscription gone and its legs unsubscribed, a route is empty. */
  lemma NobodyUpstream(w: World, k: RequestKey, t: TrackKey, order: seq<SessionKey>)
    requires HasSub(w.st, t, k)
    requires var st1 := Apply(w.st, End(k, t, ControlStream, Withdrawn));
             NoActiveDownstream(RouteOr(st1, t)) && IsOrder(order, LiveLegs(RouteOr(st1, t)))
    ensures var st2 := Exec(w, [End(k, t, ControlStream, Withdrawn)] + Unsubs(order, t, false)).st;
            t in st2.tracks && NoActiveDownstream(st2.tracks[t]) && AllLegsTerminated(st2.tracks[t])
  {
    var gone := End(k, t, ControlStream, Withdrawn);
    var w1 := ApplyWorld(w, gone);
    SingleAct(w, gone);
    ExecAppend(w, [gone], Unsubs(order, t, false));
    UnsubsEffect(w1, order, t, false);
    NoLegLeft(w1.st.tracks[t], ToSet(order));
  }

  lemma EstablishedEnded(w: World, s: SessionKey, r: nat, t: TrackKey, v: Verdict, order: seq<RequestKey>)
    requires t in w.st.tracks && v.Completed? && IsOrder(order, EstablishedSubs(w.st.tracks[t]))
    ensures var route := RouteOr(Apply(w.st, EndLeg(s, r, t)), t);
            var st2 := Exec(w, [EndLeg(s, r, t)] + Ends(order, t, v)).st;
            && t in st2.tracks && st2.tracks[t].ups == route.ups
            && st2.tracks[t].downs.Keys == route.downs.Keys
            && PendingSubs(st2.tracks[t]) == PendingSubs(route)
  {
    var w1 := ApplyWorld(w, EndLeg(s, r, t));
    EndedLegRoute(w.st, s, r, t);
    SingleAct(w, EndLeg(s, r, t));
    ExecAppend(w, [EndLeg(s, r, t)], Ends(order, t, v));
    EndsEffect(w1, order, t, v);
    PendingStay(w1.st.tracks[t], order);
  }

  lemma PendingStay(route: TrackRoute, order: seq<RequestKey>)
    requires IsOrder(order, EstablishedSubs(route))
    ensures PendingSubs(EndedRoute(route, ToSet(order))) == PendingSubs(route)
  {
  }

  /** The acts of PUBLISH_DONE before the route may be dropped. */
  function DoneActs(first: Act, route: TrackRoute, t: TrackKey, v: Verdict, c: Choice): seq<Act> {
    if AllUpstreamTerminated(route)
    then [first] + Ends(c.subs, t, v) + Ends(c.late, t, GONE)
    else [first] + Ends(c.subs, t, v)
  }

  lemma DoneShape(first: Act, route: TrackRoute, t: TrackKey, v: Verdict, c: Choice)
    ensures [first] + PublishDoneTail(route, t, v, c)
         == DoneActs(first, route, t, v, c)
            + DropIf(t, AllLegsTerminated(route) && (AllUpstreamTerminated(route) || PendingSubs(route) == {}))
  {
  }

  /** The route after PUBLISH_DONE: empty exactly when no leg is left and nobody waits on. */
  lemma DoneRoute(w: World, s: SessionKey, r: nat, t: TrackKey, v: Verdict, c: Choice)
    requires t in w.st.tracks && v.Completed?
    requires IsOrder(c.subs, EstablishedSubs(w.st.tracks[t])) && IsOrder(c.late, PendingSubs(w.st.tracks[t]))
    ensures var route := RouteOr(Apply(w.st, EndLeg(s, r, t)), t);
            var st2 := Exec(w, DoneActs(EndLeg(s, r, t), route, t, v, c)).st;
            && t in st2.tracks && st2.tracks[t].ups == route.ups
            && (NoActiveDownstream(st2.tracks[t]) <==> AllUpstreamTerminated(route) || PendingSubs(route) == {})
  {
    var first := EndLeg(s, r, t);
    var w1 := ApplyWorld(w, first);
    EndedLegRoute(w.st, s, r, t);
    SingleAct(w, first);
    var route := w1.st.tracks[t];
    DoneEndsEffect(w1, t, v, c);
    var late := if AllUpstreamTerminated(route) then Ends(c.late, t, GONE) else [];
    ExecAppend(w, [first], Ends(c.subs, t, v) + late);
    assert DoneActs(first, route, t, v, c) == [first] + (Ends(c.subs, t, v) + late);
    DoneSubsEnded(route, c);
  }

  lemma DoneSubsEnded(route: TrackRoute, c: Choice)
    requires IsOrder(c.subs, EstablishedSubs(route)) && IsOrder(c.late, PendingSubs(route))
    ensures NoActiveDownstream(EndedRoute(route, DoneSubs(route, c)))
            <==> AllUpstreamTerminated(route) || PendingSubs(route) == {}
  {
    var ended := EndedRoute(route, DoneSubs(route, c));
    if AllUpstreamTerminated(route) || PendingSubs(route) == {} {
      forall k | k in ended.downs ensures !Live(ended.downs[k].state) {
        assert k in EstablishedSubs(route) || k in PendingSubs(route) || route.downs[k].state.Terminated?;
      }
    } else {
      var k :| k in PendingSubs(route);
      assert k !in DoneSubs(route, c) && ended.downs[k] == route.downs[k];
    }
  }

  function RefusedTail(st: State, k: RequestKey, ch: Channel, t: TrackKey): seq<Act> {
    [End(k, t, ch, Refused(DOES_NOT_EXIST, 0, NO_PUBLISHER))]
    + DropIf(t, AllDownTerminated(RouteOr(st, t)) && RouteOr(st, t).ups == map[])
  }

  lemma DidAccept(w: World, k: RequestKey, t: TrackKey, ch: Channel, params: Parameters, c: Choice)
    requires HasEstablishedUpstream(RouteOr(w.st, t))
    ensures var st1 := Apply(w.st, AddSub(k, t, params));
            var exts := if RouteOr(w.st, t).extensions.Some? then RouteOr(w.st, t).extensions.value else [];
            var grant := Grant(k, t, ch, exts);
            Did(w, [AddSub(k, t, params)] + RoutedTail(w.st, k, ch, t, c), Apply(st1, grant), Emit(st1, grant))
  {
    var add := AddSub(k, t, params);
    var grant := RoutedTail(w.st, k, ch, t, c)[0];
    DidTwo(w, add, grant);
    assert [add] + RoutedTail(w.st, k, ch, t, c) == [add, grant];
    assert Emit(w.st, add) + Emit(Apply(w.st, add), grant) == Emit(Apply(w.st, add), grant);
  }

  lemma DidRegister(w: World, s: SessionKey, ch: Channel, id: nat, ns: Namespace)
    ensures var ok := Say(Send(s, ch, RequestOk(id, [])));
            Did(w, [Announce(s, ns), ok], Apply(w.st, Announce(s, ns)), [ok.out])
  {
    DidTwo(w, Announce(s, ns), Say(Send(s, ch, RequestOk(id, []))));
  }

  /** Two acts, and perhaps the end of the route. */
  lemma DidDrop(w: World, a: Act, b: Act, st: State, sent: seq<Output>, t: TrackKey)
    requires Did(w, [a, b], st, sent)
    ensures Did(w, [a] + ([b] + DropIf(t, true)), Apply(st, Drop(t)), sent)
    ensures Did(w, [a] + ([b] + DropIf(t, false)), st, sent)
  {
    DidNext(w, [a, b], st, sent, Drop(t));
    assert sent + [] == sent;
    assert [a] + ([b] + [Drop(t)]) == [a, b] + [Drop(t)];
    assert [a] + ([b] + []) == [a, b];
  }

  lemma DidRefuse(w: World, k: RequestKey, t: TrackKey, ch: Channel, params: Parameters)
    requires k.session in w.st.sessions && !HasSub(w.st, t, k)
    ensures var st1 := Apply(w.st, AddSub(k, t, params));
            var st2 := Apply(st1, End(k, t, ch, Refused(DOES_NOT_EXIST, 0, NO_PUBLISHER)));
            && HasSub(st1, t, k) && t in st2.tracks
            && Did(w, [AddSub(k, t, params)] + RefusedTail(w.st, k, ch, t),
                   if AllDownTerminated(st2.tracks[t]) && st2.tracks[t].ups == map[] then Apply(st2, Drop(t)) else st2,
                   [Send(k.session, ch, RequestError(k.id, DOES_NOT_EXIST, 0, NO_PUBLISHER))])
  {
    var add, refuse := AddSub(k, t, params), End(k, t, ch, Refused(DOES_NOT_EXIST, 0, NO_PUBLISHER));
    RefusedRoute(w.st, k, t, params, ch, refuse.verdict);
    DidTwo(w, add, refuse);
    OneMoreTerminated(RouteOr(w.st, t), k, Downstream(Terminated, params, true, None));
    var sent := [Send(k.session, ch, RequestError(k.id, DOES_NOT_EXIST, 0, NO_PUBLISHER))];
    DidDrop(w, add, refuse, Apply(Apply(w.st, add), refuse), sent, t);
  }

  /** What follows the recording of a subscription. */
  function RoutedTail(st: State, k: RequestKey, ch: Channel, t: TrackKey, c: Choice): seq<Act> {
    var route := RouteOr(st, t);
    if HasEstablishedUpstream(route) then
      [Grant(k, t, ch, if route.extensions.Some? then route.extensions.value else [])]
    else if MatchPublishers(st, t.namespace) == {} then RefusedTail(st, k, ch, t)
    else OpenLegs(c.peers, t)
  }

  lemma RoutedIsPlan(w: World, s: SessionKey, ch: Channel, id: nat, t: TrackKey, params: Parameters, c: Choice)
    requires s in w.st.sessions && w.st.sessions[s].setupDone && PeerIdError(w.st.sessions[s], id).None?
    ensures SubscribePlan(w, s, ch, id, t, params, c)
         == [AddSub(RequestKey(s, id), t, params)] + RoutedTail(w.st, RequestKey(s, id), ch, t, c)
  {
  }

  lemma GrantKeepsKeys(st: State, k: RequestKey, t: TrackKey, ch: Channel, exts: Extensions)
    requires HasSub(st, t, k)
    ensures var st1 := Apply(st, Grant(k, t, ch, exts));
            t in st1.tracks && st1.tracks[t].downs.Keys == st.tracks[t].downs.Keys
  {
  }

  lemma EndKeepsKeys(st: State, k: RequestKey, t: TrackKey, ch: Channel, v: Verdict)
    requires HasSub(st, t, k)
    ensures var st1 := Apply(st, End(k, t, ch, v));
            t in st1.tracks && st1.tracks[t].downs.Keys == st.tracks[t].downs.Keys
  {
  }

  /** The route once everybody who waited has been refused. */
  lemma WaitingRefused(w: World, s: SessionKey, r: nat, t: TrackKey, v: Verdict, order: seq<RequestKey>)
    requires t in w.st.tracks && v.Refused? && IsOrder(order, PendingSubs(w.st.tracks[t]))
    ensures var route := RouteOr(Apply(w.st, EndLeg(s, r, t)), t);
            var st2 := Exec(w, [EndLeg(s, r, t)] + Ends(order, t, v)).st;
            && t in st2.tracks && st2.tracks[t].ups == route.ups
            && (NoActiveDownstream(st2.tracks[t]) <==> EstablishedSubs(route) == {})
  {
    var w1 := ApplyWorld(w, EndLeg(s, r, t));
    EndedLegRoute(w.st, s, r, t);
    SingleAct(w, EndLeg(s, r, t));
    ExecAppend(w, [EndLeg(s, r, t)], Ends(order, t, v));
    EndsEffect(w1, order, t, v);
    RefusedAll(w1.st.tracks[t], order);
  }

  lemma RefusalShape(a: Act, xs: seq<Act>, ys: seq<Act>)
    ensures [a] + xs + ys == [a] + (xs + ys)
  {
  }

  lemma RefusedAll(route: TrackRoute, order: seq<RequestKey>)
    requires IsOrder(order, PendingSubs(route))
    ensures NoActiveDownstream(EndedRoute(route, ToSet(order))) <==> EstablishedSubs(route) == {}
  {
    var ended := EndedRoute(route, ToSet(order));
    if k :| k in EstablishedSubs(route) {
      assert k !in ToSet(order) && ended.downs[k] == route.downs[k];
    } else {
      forall k | k in ended.downs ensures !Live(ended.downs[k].state) {
        assert k in PendingSubs(route) || k in EstablishedSubs(route) || route.downs[k].state.Terminated?;
      }
    }
  }

  lemma AddedRoute(st: State, k: RequestKey, t: TrackKey, params: Parameters)
    requires k.session in st.sessions
    ensures var st1 := Apply(st, AddSub(k, t, params));
            && t in st1.tracks && k in st1.tracks[t].downs
            && st1.tracks[t].ups == RouteOr(st, t).ups && st1.tracks[t].extensions == RouteOr(st, t).extensions
            && st1.publishers == st.publishers
  {
  }

  /** What follows the acceptance of a leg. */
  function BoundTail(st: State, s: SessionKey, r: nat, alias: nat, t: TrackKey, exts: Extensions, c: Choice): seq<Act>
    requires s in st.sessions
  {
    if alias in st.sessions[s].inbound then [Say(Close(s, DuplicateTrackAlias))]
    else [Bind(s, r, alias, t)] + (if exts == [] then [] else [SetExtensions(t, exts)]) + Grants(c.subs, t, exts)
  }

  function BoundHead(s: SessionKey, r: nat, alias: nat, t: TrackKey, exts: Extensions): seq<Act> {
    if exts == [] then [LegOk(s, t, alias), Bind(s, r, alias, t)]
    else [LegOk(s, t, alias), Bind(s, r, alias, t)] + [SetExtensions(t, exts)]
  }

  lemma HeadAndTail(st: State, s: SessionKey, r: nat, alias: nat, t: TrackKey, exts: Extensions, c: Choice)
    requires s in st.sessions && alias !in st.sessions[s].inbound
    ensures BoundHead(s, r, alias, t, exts) + Grants(c.subs, t, exts)
         == [LegOk(s, t, alias)] + BoundTail(st, s, r, alias, t, exts, c)
  {
  }

  lemma DidBind(w: World, s: SessionKey, r: nat, alias: nat, t: TrackKey, exts: Extensions)
    ensures var st2 := Apply(Apply(w.st, LegOk(s, t, alias)), Bind(s, r, alias, t));
            Did(w, BoundHead(s, r, alias, t, exts), if exts == [] then st2 else Apply(st2, SetExtensions(t, exts)), [])
  {
    var st2 := Apply(Apply(w.st, LegOk(s, t, alias)), Bind(s, r, alias, t));
    DidTwo(w, LegOk(s, t, alias), Bind(s, r, alias, t));
    DidNext(w, [LegOk(s, t, alias), Bind(s, r, alias, t)], st2, [], SetExtensions(t, exts));
  }

  lemma {:induction false} MatchDependsOnPublishers(a: State, b: State, ns: Namespace, n: nat)
    requires a.publishers == b.publishers && n <= |ns|
    ensures MatchUpTo(a, ns, n) == MatchUpTo(b, ns, n)
  {
    if n != 0 { MatchDependsOnPublishers(a, b, ns, n - 1); }
  }

  lemma OneMoreTerminated(r: TrackRoute, k: RequestKey, d: Downstream)
    requires d.state.Terminated? && (k in r.downs ==> r.downs[k].state.Terminated?)
    ensures AllDownTerminated(r.(downs := r.downs[k := d])) <==> AllDownTerminated(r)
  {
    if AllDownTerminated(r.(downs := r.downs[k := d])) {
      forall j | j in r.downs ensures r.downs[j].state.Terminated? {
        assert j in r.downs[k := d];
      }
    }
  }
}
