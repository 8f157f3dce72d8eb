/** Whom the relay asks for a track, when a subscriber comes and when a publisher comes (section 8.5 of
    draft-ietf-moq-transport-16). */
module RelayAsking {
  import opened MoqTypes
  import opened RelayState
  import opened RelayLog
  import opened RelayActs
  import opened RelayPlan
  import opened RelayInv
  import opened RelayTrace
  import opened RelayLegal
  import opened RelayHandlers
  import opened RelayRuns
  import opened RelayFinality
  import opened RelayTheorems
  import opened RelayDelivery
  import opened RelayMatching

  // ---- The SUBSCRIBE messages sent to a publisher ----

  function RequestIn(o: Obs, p: SessionKey): seq<(nat, TrackKey)> {
    if !SentTo(o, p) then [] else
    match o.output.message
    case Subscribe(id, ns, name, _) => [(id, TrackKey(ns, name))]
    case _ => []
  }

  function RequestView(p: SessionKey): Obs -> seq<(nat, TrackKey)> { (o: Obs) => RequestIn(o, p) }

  /** Id and track of each SUBSCRIBE sent to p, in order. */
  function Requests(log: seq<Obs>, p: SessionKey): seq<(nat, TrackKey)> { Collect(log, RequestView(p)) }

  function NewRequest(st: State, act: Act, p: SessionKey): seq<(nat, TrackKey)> {
    if act.OpenLeg? && act.p == p && CanOpenLeg(st, p, act.t) then [(st.sessions[p].localNext, act.t)] else []
  }

  lemma RequestOfAct(st: State, act: Act, p: SessionKey)
    requires act.Say? ==> Harmless(st, act.out)
    ensures var out := Emit(st, act); (if out == [] then [] else RequestIn(Tx(out[0]), p)) == NewRequest(st, act, p)
  {
  }

  lemma RequestsGrow(w: World, act: Act, p: SessionKey)
    requires act.Say? ==> Harmless(w.st, act.out)
    ensures Requests(ApplyWorld(w, act).log, p) == Requests(w.log, p) + NewRequest(w.st, act, p)
  {
    ViewOfAct(w, act, RequestView(p));
    RequestOfAct(w.st, act, p);
  }

  lemma ReceiveRequests(w: World, ev: Event, p: SessionKey)
    ensures Requests(Receive(w, ev).log, p) == Requests(w.log, p)
  {
    CollectSnoc(w.log, Rx(ev), RequestView(p));
  }

  /** Acts that ask nobody. */
  function Unasking(): Act -> bool { (a: Act) => !a.OpenLeg? }

  lemma {:induction false} AskingNobody(w: World, acts: seq<Act>, p: SessionKey)
    requires Legal(w, acts) && Only(acts, Unasking())
    ensures Requests(Exec(w, acts).log, p) == Requests(w.log, p)
  {
    if acts != [] {
      var n := |acts| - 1;
      AskingNobody(w, acts[..n], p);
      assert Unasking()(acts[n]);
      RequestsGrow(Exec(w, acts[..n]), acts[n], p);
    }
  }

  // ---- When a subscriber comes ----

  /** p matches the track, has no leg on record for it, and may still be sent a request. */
  predicate Askable(st: State, t: TrackKey, p: SessionKey) {
    && p in MatchPublishers(st, t.namespace)
    && !HasLeg(st, t, p)
    && p in st.sessions && CanAllocate(st.sessions[p])
  }

  predicate OnRecord(st: State, t: TrackKey, p: SessionKey, leg: Leg) {
    HasLeg(st, t, p) && LegOf(st, t, p) == leg
  }

  /** Each peer in the order gets a leg, if it can. */
  lemma {:induction false} PeersGetLegs(w: World, order: seq<SessionKey>, t: TrackKey, p: SessionKey)
    requires Distinct(order) && t in w.st.tracks && p in w.st.sessions
    ensures var st' := Exec(w, OpenLegs(order, t)).st;
            && t in st'.tracks && p in st'.sessions
            && (p !in order ==>
                  (CanOpenLeg(st', p, t) <==> CanOpenLeg(w.st, p, t)) && st'.sessions[p] == w.st.sessions[p])
            && (p in order && CanOpenLeg(w.st, p, t)
                ==> OnRecord(st', t, p, Leg(w.st.sessions[p].localNext, Pending, None, false)))
  {
    if order != [] {
      var n := |order| - 1;
      PeersGetLegs(w, order[..n], t, p);
      ExecSnoc(w, OpenLegs(order[..n], t), OpenLeg(order[n], t));
      PeerAsked(Exec(w, OpenLegs(order[..n], t)).st, order[n], t, p);
      LastOnce(order, p);
    }
  }

  /** And is asked once. */
  lemma {:induction false} PeersAsked(w: World, order: seq<SessionKey>, t: TrackKey, p: SessionKey)
    requires Distinct(order) && t in w.st.tracks && p in w.st.sessions
    ensures Requests(Exec(w, OpenLegs(order, t)).log, p)
         == Requests(w.log, p)
            + (if p in order && CanOpenLeg(w.st, p, t) then [(w.st.sessions[p].localNext, t)] else [])
  {
    if order != [] {
      var n := |order| - 1;
      PeersAsked(w, order[..n], t, p);
      PeersGetLegs(w, order[..n], t, p);
      ExecSnoc(w, OpenLegs(order[..n], t), OpenLeg(order[n], t));
      RequestsGrow(Exec(w, OpenLegs(order[..n], t)), OpenLeg(order[n], t), p);
      LastOnce(order, p);
    }
  }

  lemma PeerAsked(st: State, q: SessionKey, t: TrackKey, p: SessionKey)
    requires t in st.tracks && p in st.sessions
    ensures var st' := Apply(st, OpenLeg(q, t));
            && t in st'.tracks && p in st'.sessions
            && (p != q ==> (CanOpenLeg(st', p, t) <==> CanOpenLeg(st, p, t)) && st'.sessions[p] == st.sessions[p])
            && (p == q && CanOpenLeg(st, p, t) ==>
                  HasLeg(st', t, p) && LegOf(st', t, p) == Leg(st.sessions[p].localNext, Pending, None, false))
            && (p != q && HasLeg(st, t, p) ==> HasLeg(st', t, p) && LegOf(st', t, p) == LegOf(st, t, p))
  {
  }

  /** Recording a subscriber makes exactly the publishers without a leg and below their limit open to a leg. */
  lemma OpenAfterAdd(st: State, k: RequestKey, t: TrackKey, params: Parameters, p: SessionKey)
    requires k.session in st.sessions
    ensures var st1 := Apply(st, AddSub(k, t, params));
            && t in st1.tracks && (p in st1.sessions <==> p in st.sessions)
            && (p in st.sessions ==> st1.sessions[p].localNext == st.sessions[p].localNext)
            && (CanOpenLeg(st1, p, t) <==> p in st.sessions && !HasLeg(st, t, p) && CanAllocate(st.sessions[p]))
  {
    var st1 := Apply(st, AddSub(k, t, params));
    assert k in st1.tracks[t].downs && Live(st1.tracks[t].downs[k].state);
  }

  /** The peers of an order are asked after a subscriber has been recorded. */
  lemma PeersAfterAdd(w: World, k: RequestKey, t: TrackKey, params: Parameters, order: seq<SessionKey>, p: SessionKey)
    requires Enabled(w, AddSub(k, t, params)) && IsOrder(order, MatchPublishers(w.st, t.namespace))
    requires Legal(w, [AddSub(k, t, params)] + OpenLegs(order, t))
    ensures var w' := Exec(w, [AddSub(k, t, params)] + OpenLegs(order, t));
            && Requests(w'.log, p) == Requests(w.log, p)
                 + (if Askable(w.st, t, p) then [(w.st.sessions[p].localNext, t)] else [])
            && (Askable(w.st, t, p) ==> OnRecord(w'.st, t, p, Leg(w.st.sessions[p].localNext, Pending, None, false)))
  {
    var add := AddSub(k, t, params);
    var w1 := ApplyWorld(w, add);
    SingleAct(w, add);
    ExecAppend(w, [add], OpenLegs(order, t));
    OpenAfterAdd(w.st, k, t, params, p);
    RequestsGrow(w, add, p);
    if p in w.st.sessions {
      PeersGetLegs(w1, order, t, p);
      PeersAsked(w1, order, t, p);
    } else {
      AbsentNotAsked(w1, order, t, p);
    }
  }

  lemma SubscribeAsks(w: World, ch: Channel, k: RequestKey, t: TrackKey, params: Parameters, c: Choice, p: SessionKey)
    requires Inv(w) && Enabled(w, AddSub(k, t, params)) && IsOrder(c.peers, MatchPublishers(w.st, t.namespace))
    ensures var w' := Exec(w, SubscribePlan(w, k.session, ch, k.id, t, params, c));
            Requests(w'.log, p) == Requests(w.log, p)
              + (if !HasEstablishedUpstream(RouteOr(w.st, t)) && Askable(w.st, t, p)
                 then [(w.st.sessions[p].localNext, t)] else [])
  {
    AcceptedSubscribeLegal(w, ch, k, t, params, c);
    assert k == RequestKey(k.session, k.id) && SessionOk(w.st.sessions[k.session]);
    if HasEstablishedUpstream(RouteOr(w.st, t)) || MatchPublishers(w.st, t.namespace) == {} {
      AskingNobody(w, SubscribePlan(w, k.session, ch, k.id, t, params, c), p);
    } else {
      PeersAfterAdd(w, k, t, params, c.peers, p);
    }
  }

  lemma {:induction false} AbsentNotAsked(w: World, order: seq<SessionKey>, t: TrackKey, p: SessionKey)
    requires Legal(w, OpenLegs(order, t)) && p !in w.st.sessions
    ensures p !in Exec(w, OpenLegs(order, t)).st.sessions
    ensures Requests(Exec(w, OpenLegs(order, t)).log, p) == Requests(w.log, p)
  {
    if order != [] {
      var n := |order| - 1;
      AbsentNotAsked(w, order[..n], t, p);
      ExecSnoc(w, OpenLegs(order[..n], t), OpenLeg(order[n], t));
      RequestsGrow(Exec(w, OpenLegs(order[..n], t)), OpenLeg(order[n], t), p);
    }
  }

  /** An accepted SUBSCRIBE is passed on to p, under p's next id, exactly when the track has no Established leg
      and p matches, has no leg on record and is below its limit; otherwise p is sent no SUBSCRIBE. */
  lemma AskedIff(cfg: RelayConfig, run: seq<Stimulus>, y: Stimulus, k: RequestKey, ch: Channel, t: TrackKey,
                 params: Parameters, p: SessionKey)
    requires ConfigOk(cfg) && ValidRun(cfg, run + [y])
    requires y.event == Control(k.session, ch, Subscribe(k.id, t.namespace, t.name, params))
    requires !Refuses(Reach(cfg, run), Reach(cfg, run + [y]))
    ensures var w, w' := Reach(cfg, run), Reach(cfg, run + [y]);
            Requests(w'.log, p) == Requests(w.log, p)
              + (if !HasEstablishedUpstream(RouteOr(w.st, t)) && Askable(w.st, t, p)
                 then [(w.st.sessions[p].localNext, t)] else [])
  {
    SplitStep(cfg, run, y);
    Reachable(cfg, run);
    var w := Reach(cfg, run);
    var w1 := Receive(w, y.event);
    ReceiveKeeps(w, y.event);
    ReceiveRequests(w, y.event, p);
    RequestStep(cfg, w, y, k.session);
    SubscribeAsks(w1, ch, k, t, params, y.choice, p);
  }

  // ---- When a publisher comes ----

  /** A track on record that s is to be asked for once it has announced ns. */
  predicate Wants(st: State, s: SessionKey, ns: Namespace, t: TrackKey) {
    && t in st.tracks && IsPrefixOf(ns, t.namespace)
    && !NoActiveDownstream(st.tracks[t]) && s !in st.tracks[t].ups
  }

  /** Those tracks, in the order in which the tracks are gone through. */
  function Wanted(st: State, s: SessionKey, ns: Namespace, order: seq<TrackKey>): seq<TrackKey> {
    if order == [] then [] else
    var n := |order| - 1;
    Wanted(st, s, ns, order[..n]) + (if Wants(st, s, ns, order[n]) then [order[n]] else [])
  }

  /** The tracks with ids first, first + 2, first + 4, ..., as far as the ids are below the limit. */
  function Numbered(ts: seq<TrackKey>, first: nat, limit: nat): seq<(nat, TrackKey)> {
    if ts == [] then [] else
    var n := |ts| - 1;
    Numbered(ts[..n], first, limit) + (if first + 2 * n < limit then [(first + 2 * n, ts[n])] else [])
  }

  /** After count tracks wanted the next id is first + 2 * count, unless the limit has been reached. */
  predicate Counted(sess: SessionState, first: nat, count: nat, limit: nat) {
    && sess.peerMax == limit
    && (sess.localNext == first + 2 * count || (sess.localNext >= limit && first + 2 * count >= limit))
  }

  /** s has been asked for the tracks wanted so far; the other routes are as they were. */
  ghost predicate OfferedSoFar(w: World, w': World, s: SessionKey, ns: Namespace, order: seq<TrackKey>) {
    && s in w.st.sessions && s in w'.st.sessions
    && Counted(w'.st.sessions[s], w.st.sessions[s].localNext, |Wanted(w.st, s, ns, order)|, w.st.sessions[s].peerMax)
    && Requests(w'.log, s) == Requests(w.log, s)
         + Numbered(Wanted(w.st, s, ns, order), w.st.sessions[s].localNext, w.st.sessions[s].peerMax)
    && (forall t :: t !in order ==>
          (t in w'.st.tracks <==> t in w.st.tracks) && (t in w.st.tracks ==> w'.st.tracks[t] == w.st.tracks[t]))
  }

  /** One track more. */
  lemma WantedNext(st: State, s: SessionKey, ns: Namespace, order: seq<TrackKey>, t: TrackKey, first: nat, limit: nat)
    ensures Wanted(st, s, ns, order + [t]) == Wanted(st, s, ns, order) + (if Wants(st, s, ns, t) then [t] else [])
    ensures var ts := Wanted(st, s, ns, order);
            Numbered(Wanted(st, s, ns, order + [t]), first, limit)
            == Numbered(ts, first, limit)
               + (if Wants(st, s, ns, t) && first + 2 * |ts| < limit then [(first + 2 * |ts|, t)] else [])
  {
    var ts := Wanted(st, s, ns, order);
    assert (order + [t])[..|order|] == order;
    if Wants(st, s, ns, t) {
      assert (ts + [t])[..|ts|] == ts;
    } else {
      assert ts + [] == ts;
    }
  }

  /** Track j of the order is wanted, and the id that falls to it is below the limit. */
  predicate IdReaches(st: State, s: SessionKey, ns: Namespace, order: seq<TrackKey>, j: nat, first: nat, limit: nat)
    requires j < |order|
  {
    Wants(st, s, ns, order[j]) && first + 2 * |Wanted(st, s, ns, order[..j])| < limit
  }

  lemma IdReachesAlike(st: State, s: SessionKey, ns: Namespace, order: seq<TrackKey>, u: TrackKey, j: nat, first: nat,
                       limit: nat)
    requires j < |order|
    ensures IdReaches(st, s, ns, order + [u], j, first, limit) == IdReaches(st, s, ns, order, j, first, limit)
  {
    assert (order + [u])[..j] == order[..j];
  }

  lemma IdReachesLast(st: State, s: SessionKey, ns: Namespace, order: seq<TrackKey>, u: TrackKey, first: nat,
                      limit: nat)
    ensures IdReaches(st, s, ns, order + [u], |order|, first, limit)
       <==> Wants(st, s, ns, u) && first + 2 * |Wanted(st, s, ns, order)| < limit
  {
    assert (order + [u])[..|order|] == order;
  }

  /** The numbered tracks are exactly those the ids reach. */
  lemma {:induction false} NumberedIff(st: State, s: SessionKey, ns: Namespace, order: seq<TrackKey>, first: nat,
                                       limit: nat, t: TrackKey)
    ensures (exists id :: (id, t) in Numbered(Wanted(st, s, ns, order), first, limit))
       <==> exists j: nat :: j < |order| && order[j] == t && IdReaches(st, s, ns, order, j, first, limit)
    decreases |order|
  {
    if order != [] {
      var pre, u := order[..|order| - 1], order[|order| - 1];
      assert order == pre + [u];
      NumberedIff(st, s, ns, pre, first, limit, t);
      NumberedOneMore(st, s, ns, pre, u, first, limit, t);
    }
  }

  lemma NumberedOneMore(st: State, s: SessionKey, ns: Namespace, pre: seq<TrackKey>, u: TrackKey, first: nat,
                        limit: nat, t: TrackKey)
    requires (exists id :: (id, t) in Numbered(Wanted(st, s, ns, pre), first, limit))
        <==> exists j: nat :: j < |pre| && pre[j] == t && IdReaches(st, s, ns, pre, j, first, limit)
    ensures (exists id :: (id, t) in Numbered(Wanted(st, s, ns, pre + [u]), first, limit))
       <==> exists j: nat :: j < |pre + [u]| && (pre + [u])[j] == t && IdReaches(st, s, ns, pre + [u], j, first, limit)
  {
    var now, k := Numbered(Wanted(st, s, ns, pre + [u]), first, limit), first + 2 * |Wanted(st, s, ns, pre)|;
    WantedNext(st, s, ns, pre, u, first, limit);
    IdReachesLast(st, s, ns, pre, u, first, limit);
    forall j: nat | j < |pre|
      ensures IdReaches(st, s, ns, pre + [u], j, first, limit) == IdReaches(st, s, ns, pre, j, first, limit)
    {
      IdReachesAlike(st, s, ns, pre, u, j, first, limit);
    }
    if id :| (id, t) in Numbered(Wanted(st, s, ns, pre), first, limit) {
      assert (id, t) in now;
    } else if u == t && Wants(st, s, ns, u) && k < limit {
      assert (k, t) in now;
    }
  }

  lemma OfferedNext(w: World, w1: World, s: SessionKey, ns: Namespace, order: seq<TrackKey>, t: TrackKey)
    requires OfferedSoFar(w, w1, s, ns, order) && t !in order && IsPrefixOf(ns, t.namespace)
    ensures OfferedSoFar(w, ApplyWorld(w1, OpenLeg(s, t)), s, ns, order + [t])
  {
    var first, limit := w.st.sessions[s].localNext, w.st.sessions[s].peerMax;
    var ts := Wanted(w.st, s, ns, order);
    WantedNext(w.st, s, ns, order, t, first, limit);
    RequestsGrow(w1, OpenLeg(s, t), s);
    assert CanOpenLeg(w1.st, s, t) <==> Wants(w.st, s, ns, t) && first + 2 * |ts| < limit;
    var new_ := NewRequest(w1.st, OpenLeg(s, t), s);
    assert Requests(w.log, s) + Numbered(ts, first, limit) + new_
           == Requests(w.log, s) + (Numbered(ts, first, limit) + new_);
  }

  lemma NotOffered(w: World, w1: World, s: SessionKey, ns: Namespace, order: seq<TrackKey>, t: TrackKey)
    requires OfferedSoFar(w, w1, s, ns, order) && !IsPrefixOf(ns, t.namespace)
    ensures OfferedSoFar(w, w1, s, ns, order + [t])
  {
    WantedNext(w.st, s, ns, order, t, w.st.sessions[s].localNext, w.st.sessions[s].peerMax);
  }

  /** Going through the tracks asks s for those wanted, with consecutive ids, until its limit is reached. */
  lemma {:induction false} TracksOffered(w: World, s: SessionKey, ns: Namespace, order: seq<TrackKey>)
    requires s in w.st.sessions && Distinct(order)
    ensures OfferedSoFar(w, Exec(w, OfferTracks(order, s, ns)), s, ns, order)
  {
    if order == [] {
      assert Requests(w.log, s) + [] == Requests(w.log, s);
    } else {
      var n := |order| - 1;
      var t := order[n];
      TracksOffered(w, s, ns, order[..n]);
      assert order == order[..n] + [t] && t !in order[..n];
      var w1 := Exec(w, OfferTracks(order[..n], s, ns));
      if IsPrefixOf(ns, t.namespace) {
        ExecSnoc(w, OfferTracks(order[..n], s, ns), OpenLeg(s, t));
        OfferedNext(w, w1, s, ns, order[..n], t);
      } else {
        assert OfferTracks(order, s, ns) == OfferTracks(order[..n], s, ns);
        NotOffered(w, w1, s, ns, order[..n], t);
      }
    }
  }

  /** The announcement itself asks for nothing and changes neither routes nor ids of the relay. */
  lemma Announced(w: World, s: SessionKey, ch: Channel, id: nat, ns: Namespace)
    requires s in w.st.sessions
    ensures var w2 := ApplyWorld(ApplyWorld(w, Announce(s, ns)), Say(Send(s, ch, RequestOk(id, []))));
            && w2.st.tracks == w.st.tracks && s in w2.st.sessions
            && w2.st.sessions[s].localNext == w.st.sessions[s].localNext
            && w2.st.sessions[s].peerMax == w.st.sessions[s].peerMax
            && Requests(w2.log, s) == Requests(w.log, s)
  {
    var w1 := ApplyWorld(w, Announce(s, ns));
    RequestsGrow(w, Announce(s, ns), s);
    RequestsGrow(w1, Say(Send(s, ch, RequestOk(id, []))), s);
  }

  lemma {:induction false} WantedAlike(st: State, st': State, s: SessionKey, ns: Namespace, order: seq<TrackKey>)
    requires st'.tracks == st.tracks
    ensures Wanted(st', s, ns, order) == Wanted(st, s, ns, order)
  {
    if order != [] { WantedAlike(st, st', s, ns, order[..|order|-1]); }
  }

  lemma AnnouncementAsks(w: World, s: SessionKey, ch: Channel, id: nat, ns: Namespace, c: Choice)
    requires Inv(w) && Acceptable(w.st, s, id) && Distinct(c.tracks)
    ensures Requests(Exec(w, PublishNamespacePlan(w, s, ch, id, ns, c)).log, s)
         == Requests(w.log, s)
            + Numbered(Wanted(w.st, s, ns, c.tracks), w.st.sessions[s].localNext, w.st.sessions[s].peerMax)
  {
    assert SessionOk(w.st.sessions[s]);
    var a, b := Announce(s, ns), Say(Send(s, ch, RequestOk(id, [])));
    TwoActs(w, a, b);
    ExecAppend(w, [a, b], OfferTracks(c.tracks, s, ns));
    var w2 := Exec(w, [a, b]);
    Announced(w, s, ch, id, ns);
    TracksOffered(w2, s, ns, c.tracks);
    WantedAlike(w.st, w2.st, s, ns, c.tracks);
  }

  lemma AnnouncementStep(cfg: RelayConfig, w: World, y: Stimulus, s: SessionKey, ns: Namespace)
    requires ConfigOk(cfg) && Inv(w) && TraceInv(w) && Admissible(w, y)
    requires y.event.Control? && y.event.session == s && y.event.message.PublishNamespace?
    requires y.event.message.trackNamespace == ns && !Refuses(w, Step(cfg, w, y))
    ensures s in w.st.sessions && IsOrder(y.choice.tracks, w.st.tracks.Keys)
    ensures Requests(Step(cfg, w, y).log, s) == Requests(w.log, s)
              + Numbered(Wanted(w.st, s, ns, y.choice.tracks), w.st.sessions[s].localNext, w.st.sessions[s].peerMax)
  {
    var w1 := Receive(w, y.event);
    ReceiveKeeps(w, y.event);
    ReceiveRequests(w, y.event, s);
    RequestStep(cfg, w, y, s);
    AnnouncementAsks(w1, s, y.event.channel, y.event.message.requestId, ns, y.choice);
  }

  /** An accepted PUBLISH_NAMESPACE makes the relay go through its tracks in some order, and send the publisher
      SUBSCRIBE for those below the namespace that have a live subscriber and no leg of the publisher on
      record, with its next ids, until its limit is reached. */
  lemma OfferedExactly(cfg: RelayConfig, run: seq<Stimulus>, y: Stimulus, s: SessionKey, ch: Channel, id: nat,
                       ns: Namespace, params: Parameters)
    requires ConfigOk(cfg) && ValidRun(cfg, run + [y])
    requires y.event == Control(s, ch, PublishNamespace(id, ns, params))
    requires !Refuses(Reach(cfg, run), Reach(cfg, run + [y]))
    ensures var w, w' := Reach(cfg, run), Reach(cfg, run + [y]);
            && s in w.st.sessions && IsOrder(y.choice.tracks, w.st.tracks.Keys)
            && Requests(w'.log, s) == Requests(w.log, s)
                 + Numbered(Wanted(w.st, s, ns, y.choice.tracks), w.st.sessions[s].localNext, w.st.sessions[s].peerMax)
  {
    SplitStep(cfg, run, y);
    Reachable(cfg, run);
    AnnouncementStep(cfg, Reach(cfg, run), y, s, ns);
  }

  /** Of one track: the publisher is sent SUBSCRIBE for it exactly when it is among those tracks and the id that
      falls to it, the publisher's next one plus two for each of them before it, is below the limit. */
  lemma OfferedIff(cfg: RelayConfig, run: seq<Stimulus>, y: Stimulus, s: SessionKey, ch: Channel, id: nat,
                   ns: Namespace, params: Parameters, t: TrackKey)
    requires ConfigOk(cfg) && ValidRun(cfg, run + [y])
    requires y.event == Control(s, ch, PublishNamespace(id, ns, params))
    requires !Refuses(Reach(cfg, run), Reach(cfg, run + [y]))
    ensures var w, w', order := Reach(cfg, run), Reach(cfg, run + [y]), y.choice.tracks;
            && s in w.st.sessions && Requests(w.log, s) <= Requests(w'.log, s)
            && IsOrder(order, w.st.tracks.Keys)
            && ((exists r :: (r, t) in Requests(w'.log, s)[|Requests(w.log, s)|..])
                <==> exists j: nat :: j < |order| && order[j] == t
                       && IdReaches(w.st, s, ns, order, j, w.st.sessions[s].localNext, w.st.sessions[s].peerMax))
  {
    OfferedExactly(cfg, run, y, s, ch, id, ns, params);
    var w, w' := Reach(cfg, run), Reach(cfg, run + [y]);
    var sess, order := w.st.sessions[s], y.choice.tracks;
    NumberedIff(w.st, s, ns, order, sess.localNext, sess.peerMax, t);
    assert Requests(w'.log, s)[|Requests(w.log, s)|..]
        == Numbered(Wanted(w.st, s, ns, order), sess.localNext, sess.peerMax);
  }
}
