/** Which publishers match a track, and the discipline of request ids and aliases. */
module RelayMatching {
  import opened MoqTypes
  import opened RelayState
  import opened RelayLog
  import opened RelayActs
  import opened RelayPlan
  import opened RelayInv
  import opened RelayTrace
  import opened RelayLegal
  import opened RelayRuns
  import opened RelayFinality
  import opened RelayTheorems

  // ---- Namespace matching (section 8.5) ----

  /** s has registered a non-empty prefix of ns. */
  ghost predicate OwnsPrefix(st: State, s: SessionKey, ns: Namespace) {
    s in st.sessions && exists p :: p in st.sessions[s].published && p != [] && IsPrefixOf(p, ns)
  }

  lemma {:induction false} MatchUpToMeans(st: State, ns: Namespace, n: nat)
    requires n <= |ns|
    ensures forall s :: s in MatchUpTo(st, ns, n) <==> exists k :: 1 <= k <= n && s in PublishersOf(st, ns[..k])
  {
    if n != 0 {
      MatchUpToMeans(st, ns, n - 1);
      forall s ensures s in MatchUpTo(st, ns, n) <==> exists k :: 1 <= k <= n && s in PublishersOf(st, ns[..k]) {
        if s in PublishersOf(st, ns[..n]) {
          assert s in MatchUpTo(st, ns, n);
        }
      }
    }
  }

  lemma PrefixIsSlice(p: Namespace, ns: Namespace)
    ensures IsPrefixOf(p, ns) <==> |p| <= |ns| && p == ns[..|p|]
  {
  }

  /** The loop over prefixes finds exactly the sessions owning a non-empty prefix. */
  lemma MatchIsOwnership(st: State, ns: Namespace, s: SessionKey)
    requires PubInv(st)
    ensures s in MatchPublishers(st, ns) <==> OwnsPrefix(st, s, ns)
  {
    MatchUpToMeans(st, ns, |ns|);
    if s in MatchPublishers(st, ns) {
      var k :| 1 <= k <= |ns| && s in PublishersOf(st, ns[..k]);
      PrefixIsSlice(ns[..k], ns);
      assert ns[..k] in st.sessions[s].published;
    }
    if OwnsPrefix(st, s, ns) {
      var p :| p in st.sessions[s].published && p != [] && IsPrefixOf(p, ns);
      PrefixIsSlice(p, ns);
      assert s in PublishersOf(st, ns[..|p|]);
    }
  }

  lemma IndexIsInverse(st: State, ns: Namespace, s: SessionKey)
    requires PubInv(st)
    ensures (s in PublishersOf(st, ns) <==> s in st.sessions && ns in st.sessions[s].published)
    ensures ns in st.publishers ==> st.publishers[ns] != {}
  {
  }

  /** `publishers_by_namespace` is the inverse of the sessions' namespaces, without empty sets. */
  lemma PublisherIndexExact(cfg: RelayConfig, run: seq<Stimulus>, ns: Namespace, s: SessionKey)
    requires ConfigOk(cfg) && ValidRun(cfg, run)
    ensures var st := Reach(cfg, run).st;
            && (s in PublishersOf(st, ns) <==> s in st.sessions && ns in st.sessions[s].published)
            && (ns in st.publishers ==> st.publishers[ns] != {})
  {
    Reachable(cfg, run);
    IndexIsInverse(Reach(cfg, run).st, ns, s);
  }

  // ---- Request ids (section 9.1) ----

  /** Ids first, first + 2, first + 4, ... */
  predicate StepsOfTwo(ids: seq<nat>, first: nat) {
    forall i :: 0 <= i < |ids| ==> ids[i] == first + 2 * i
  }

  /** SUBSCRIBE ids sent to p: consecutive steps of two from the role's first id, all below the limit,
      all of the parity the peer may not use. */
  lemma IssuedIdsFit(cfg: RelayConfig, run: seq<Stimulus>, p: SessionKey)
    requires ConfigOk(cfg) && ValidRun(cfg, run) && p in Reach(cfg, run).st.sessions
    ensures var ids := IssuedIds(Reach(cfg, run).log, p);
            var sess := Reach(cfg, run).st.sessions[p];
            && StepsOfTwo(ids, LocalFirst(sess.role))
            && sess.localNext == LocalFirst(sess.role) + 2 * |ids|
            && (forall i :: 0 <= i < |ids| ==> ids[i] < sess.peerMax && !ValidPeerParity(sess.role, ids[i]))
  {
    Reachable(cfg, run);
    assert IssuedFit(Reach(cfg, run), p, IssuedIds(Reach(cfg, run).log, p));
    IssuedWithinLimit(Reach(cfg, run).st.sessions[p], IssuedIds(Reach(cfg, run).log, p));
  }

  lemma IssuedWithinLimit(sess: SessionState, ids: seq<nat>)
    requires SessionOk(sess) && StepsOfTwo(ids, LocalFirst(sess.role))
    requires sess.localNext == LocalFirst(sess.role) + 2 * |ids|
    ensures forall i :: 0 <= i < |ids| ==> ids[i] < sess.peerMax && !ValidPeerParity(sess.role, ids[i])
  {
  }

  /** No counter of a reachable session can leave 64 bits. */
  lemma CountersFit(cfg: RelayConfig, run: seq<Stimulus>, s: SessionKey)
    requires ConfigOk(cfg) && ValidRun(cfg, run) && s in Reach(cfg, run).st.sessions
    ensures var sess := Reach(cfg, run).st.sessions[s];
            sess.localNext + 2 <= MAX_U64 && sess.peerNext + 2 <= MAX_U64 && sess.peerMax <= MAX_U64
            && sess.localMax <= MAX_U64
  {
    Reachable(cfg, run);
    assert SessionOk(Reach(cfg, run).st.sessions[s]);
  }

  /** The event carries a new request id from s. */
  predicate IsRequest(ev: Event, s: SessionKey) {
    ev.Control? && ev.session == s && (ev.message.Subscribe? || ev.message.PublishNamespace?)
  }

  /** Request ids of s that were not answered by CloseSession, in order. */
  ghost function AcceptedIds(cfg: RelayConfig, run: seq<Stimulus>, s: SessionKey): seq<nat> {
    if run == [] then [] else
    var n := |run| - 1;
    AcceptedIds(cfg, run[..n], s)
    + (if IsRequest(run[n].event, s) && !Refuses(Reach(cfg, run[..n]), Reach(cfg, run))
       then [run[n].event.message.requestId] else [])
  }

  function LeavesPeerNext(s: SessionKey): Act -> bool {
    (a: Act) => !(a.AddSub? && a.k.session == s) && !(a.Announce? && a.s == s) && !(a.Open? && a.s == s)
  }

  lemma PeerNextStays(w: World, act: Act, s: SessionKey)
    requires Enabled(w, act) && LeavesPeerNext(s)(act)
    ensures s in Apply(w.st, act).sessions ==> s in w.st.sessions
    ensures s in Apply(w.st, act).sessions ==>
              && Apply(w.st, act).sessions[s].peerNext == w.st.sessions[s].peerNext
              && Apply(w.st, act).sessions[s].role == w.st.sessions[s].role
              && Apply(w.st, act).sessions[s].localMax == w.st.sessions[s].localMax
  {
  }

  lemma {:induction false} PeerNextRun(w: World, acts: seq<Act>, s: SessionKey)
    requires Legal(w, acts) && Only(acts, LeavesPeerNext(s))
    ensures s in Exec(w, acts).st.sessions ==> s in w.st.sessions
    ensures s in Exec(w, acts).st.sessions ==>
              && Exec(w, acts).st.sessions[s].peerNext == w.st.sessions[s].peerNext
              && Exec(w, acts).st.sessions[s].role == w.st.sessions[s].role
              && Exec(w, acts).st.sessions[s].localMax == w.st.sessions[s].localMax
  {
    if acts != [] {
      var n := |acts| - 1;
      PeerNextRun(w, acts[..n], s);
      PeerNextStays(Exec(w, acts[..n]), acts[n], s);
    }
  }

  lemma RefusalSeen(w: World, s: SessionKey, e: SessionError, ev: Event)
    ensures Refuses(w, Exec(Receive(w, ev), [Say(Close(s, e))]))
    ensures Exec(Receive(w, ev), [Say(Close(s, e))]).st == w.st
  {
    SingleAct(Receive(w, ev), Say(Close(s, e)));
    assert Exec(Receive(w, ev), [Say(Close(s, e))]).log[|w.log| + 1] == Tx(Close(s, e));
  }

  /** A request is accepted exactly when its id is the next one and within the limit. */
  predicate Acceptable(st: State, s: SessionKey, id: nat) {
    && s in st.sessions && st.sessions[s].setupDone
    && id == st.sessions[s].peerNext && id < st.sessions[s].localMax
  }

  predicate FollowsUp(a: Act, s: SessionKey) {
    && !(a.AddSub? && a.k.session == s) && !(a.Announce? && a.s == s) && !(a.Open? && a.s == s)
    && NoClose(a)
  }

  predicate NoClose(a: Act) { !(a.Say? && a.out.Close?) }

  /** Acts after an accepted request has taken its id: none touches it again or closes. */
  function Following(s: SessionKey): Act -> bool { (a: Act) => FollowsUp(a, s) }

  function NoCloses(): Act -> bool { (a: Act) => NoClose(a) }

  lemma {:induction false} NoCloseRun(w: World, acts: seq<Act>)
    requires Only(acts, NoCloses())
    ensures |w.log| <= |Exec(w, acts).log| && Exec(w, acts).log[..|w.log|] == w.log
    ensures !Refuses(w, Exec(w, acts))
  {
    if acts != [] {
      var n := |acts| - 1;
      NoCloseRun(w, acts[..n]);
      assert NoClose(acts[n]) by { assert NoCloses()(acts[n]); }
      NoCloseAct(Exec(w, acts[..n]).st, acts[n]);
    }
  }

  lemma NoCloseAct(st: State, act: Act)
    requires NoClose(act)
    ensures forall i :: 0 <= i < |Emit(st, act)| ==> !Emit(st, act)[i].Close?
  {
  }

  lemma NoCloseStep(w: World, ev: Event, acts: seq<Act>)
    requires Only(acts, NoCloses())
    ensures !Refuses(w, Exec(Receive(w, ev), acts))
  {
    NoCloseRun(Receive(w, ev), acts);
    assert Exec(Receive(w, ev), acts).log[|w.log|] == Rx(ev);
  }

  /** The first act of an accepted request advances the expected id by two. */
  lemma TakesId(w: World, act: Act, s: SessionKey)
    requires Enabled(w, act) && ((act.AddSub? && act.k.session == s) || (act.Announce? && act.s == s))
    ensures s in w.st.sessions && s in Apply(w.st, act).sessions
    ensures Apply(w.st, act).sessions[s].peerNext == w.st.sessions[s].peerNext + 2
    ensures Apply(w.st, act).sessions[s].role == w.st.sessions[s].role
  {
  }

  lemma RequestPlanShape(cfg: RelayConfig, w: World, x: Stimulus, s: SessionKey)
    requires Inv(w) && IsRequest(x.event, s)
    ensures var acts := Plan(cfg, w, x.event, x.choice);
            if Acceptable(w.st, s, x.event.message.requestId)
            then acts != [] && ((acts[0].AddSub? && acts[0].k.session == s) || (acts[0].Announce? && acts[0].s == s))
                 && Only(acts[1..], Following(s))
            else exists e :: acts == [Say(Close(s, e))]
  {
    var m := x.event.message;
    if s !in w.st.sessions {
      assert Plan(cfg, w, x.event, x.choice) == [Say(Close(s, ProtocolViolation))];
    } else {
      assert SessionOk(w.st.sessions[s]);
      if m.Subscribe? {
        OnlyOpenLegs(x.choice.peers, TrackKey(m.trackNamespace, m.trackName), Following(s));
        SubscribeShape(w, s, x.event.channel, m.requestId, TrackKey(m.trackNamespace, m.trackName), m.parameters,
                       x.choice);
      } else {
        OnlyOffers(x.choice.tracks, s, m.trackNamespace, Following(s));
        AnnounceShape(w, s, x.event.channel, m.requestId, m.trackNamespace, x.choice);
      }
    }
  }

  lemma SubscribeShape(w: World, s: SessionKey, ch: Channel, id: nat, t: TrackKey, params: Parameters, c: Choice)
    requires s in w.st.sessions && SessionOk(w.st.sessions[s]) && Only(OpenLegs(c.peers, t), Following(s))
    ensures var acts := SubscribePlan(w, s, ch, id, t, params, c);
            if Acceptable(w.st, s, id)
            then acts != [] && acts[0].AddSub? && acts[0].k.session == s && Only(acts[1..], Following(s))
            else exists e :: acts == [Say(Close(s, e))]
  {
  }

  lemma AnnounceShape(w: World, s: SessionKey, ch: Channel, id: nat, ns: Namespace, c: Choice)
    requires s in w.st.sessions && SessionOk(w.st.sessions[s]) && Only(OfferTracks(c.tracks, s, ns), Following(s))
    ensures var acts := PublishNamespacePlan(w, s, ch, id, ns, c);
            if Acceptable(w.st, s, id)
            then acts != [] && acts[0].Announce? && acts[0].s == s && Only(acts[1..], Following(s))
            else exists e :: acts == [Say(Close(s, e))]
  {
    var acts := PublishNamespacePlan(w, s, ch, id, ns, c);
    if Acceptable(w.st, s, id) {
      assert acts[1..] == [Say(Send(s, ch, RequestOk(id, [])))] + OfferTracks(c.tracks, s, ns);
    }
  }

  /** One request: accepted exactly when acceptable, and then the expected id moves on by two. */
  lemma RequestStep(cfg: RelayConfig, w: World, x: Stimulus, s: SessionKey)
    requires ConfigOk(cfg) && Inv(w) && TraceInv(w) && Admissible(w, x) && IsRequest(x.event, s)
    ensures !Refuses(w, Step(cfg, w, x)) <==> Acceptable(w.st, s, x.event.message.requestId)
    ensures s in Step(cfg, w, x).st.sessions ==> s in w.st.sessions
    ensures s in Step(cfg, w, x).st.sessions ==>
              && Step(cfg, w, x).st.sessions[s].role == w.st.sessions[s].role
              && Step(cfg, w, x).st.sessions[s].peerNext
                 == w.st.sessions[s].peerNext + (if Refuses(w, Step(cfg, w, x)) then 0 else 2)
  {
    var w1 := Receive(w, x.event);
    var acts := Plan(cfg, w1, x.event, x.choice);
    ReceiveKeeps(w, x.event);
    PlanLegal(cfg, w, x);
    RequestPlanShape(cfg, w1, x, s);
    if Acceptable(w.st, s, x.event.message.requestId) {
      AcceptedRequest(w1, acts, s);
      forall i | 0 <= i < |acts| ensures NoCloses()(acts[i]) {
        assert i > 0 ==> acts[1..][i - 1] == acts[i] && Following(s)(acts[1..][i - 1]);
      }
      NoCloseStep(w, x.event, acts);
    } else {
      var e :| acts == [Say(Close(s, e))];
      RefusalSeen(w, s, e, x.event);
    }
  }

  lemma AcceptedRequest(w: World, acts: seq<Act>, s: SessionKey)
    requires Legal(w, acts) && acts != [] && Only(acts[1..], Following(s))
    requires (acts[0].AddSub? && acts[0].k.session == s) || (acts[0].Announce? && acts[0].s == s)
    ensures s in Exec(w, acts).st.sessions ==> s in w.st.sessions
    ensures s in Exec(w, acts).st.sessions ==>
              && Exec(w, acts).st.sessions[s].role == w.st.sessions[s].role
              && Exec(w, acts).st.sessions[s].peerNext == w.st.sessions[s].peerNext + 2
  {
    assert acts == [acts[0]] + acts[1..];
    ExecAppend(w, [acts[0]], acts[1..]);
    SingleAct(w, acts[0]);
    TakesId(w, acts[0], s);
    forall i | 0 <= i < |acts[1..]| ensures LeavesPeerNext(s)(acts[1..][i]) { assert Following(s)(acts[1..][i]); }
    PeerNextRun(ApplyWorld(w, acts[0]), acts[1..], s);
  }

  /** Other events leave the ids accepted from s alone. */
  lemma OtherStep(cfg: RelayConfig, w: World, x: Stimulus, s: SessionKey)
    requires ConfigOk(cfg) && Inv(w) && TraceInv(w) && Admissible(w, x) && !IsRequest(x.event, s)
    requires x.event.SessionOpened? ==> x.event.session != s
    ensures s in Step(cfg, w, x).st.sessions ==> s in w.st.sessions
    ensures s in Step(cfg, w, x).st.sessions ==>
              && Step(cfg, w, x).st.sessions[s].role == w.st.sessions[s].role
              && Step(cfg, w, x).st.sessions[s].peerNext == w.st.sessions[s].peerNext
  {
    var w1 := Receive(w, x.event);
    PlanLegal(cfg, w, x);
    PlansLeavePeerNext(cfg, w1, x, s);
    PeerNextRun(w1, Plan(cfg, w1, x.event, x.choice), s);
  }

  lemma PlansLeavePeerNext(cfg: RelayConfig, w: World, x: Stimulus, s: SessionKey)
    requires !IsRequest(x.event, s) && (x.event.SessionOpened? ==> x.event.session != s)
    ensures Only(Plan(cfg, w, x.event, x.choice), LeavesPeerNext(s))
  {
    var p := LeavesPeerNext(s);
    match x.event
    case SessionOpened(_, _) =>
    case SessionClosed(q) => LeavingKeepsPeerNext(w.st, q, x.choice.tracks, x.choice.legs, s);
    case Control(q, ch, m) => ControlLeavesPeerNext(cfg, w, q, ch, m, x.choice, s);
    case ObjectReceived(q, alias, body) =>
      if q in w.st.sessions && alias in w.st.sessions[q].inbound {
        OnlyForwards(x.choice.subs, w.st.sessions[q].inbound[alias], body, p);
      }
    case FetchObjectReceived(_) =>
  }

  lemma {:induction false} LeavingKeepsPeerNext(st: State, q: SessionKey, order: seq<TrackKey>,
                                                legs: map<TrackKey, seq<SessionKey>>, s: SessionKey)
    ensures Only(LeaveTracks(st, q, order, legs), LeavesPeerNext(s))
  {
    if order != [] {
      var n := |order| - 1;
      LeavingKeepsPeerNext(st, q, order[..n], legs, s);
      OnlyUnsubs(if order[n] in legs then legs[order[n]] else [], order[n], true, LeavesPeerNext(s));
    }
  }

  lemma ControlLeavesPeerNext(cfg: RelayConfig, w: World, q: SessionKey, ch: Channel, m: ControlMessage, c: Choice,
                              s: SessionKey)
    requires !IsRequest(Control(q, ch, m), s)
    ensures Only(ControlPlan(cfg, w, q, ch, m, c), LeavesPeerNext(s))
  {
    var p := LeavesPeerNext(s);
    if m.PublishNamespace? || m.Subscribe? {
      RequestLeavesPeerNext(cfg, w, q, ch, m, c, s);
    } else if q in w.st.sessions {
      if m.SubscribeOk? {
        if RequestKey(q, m.requestId) in w.st.upIndex {
          OnlyGrants(c.subs, w.st.upIndex[RequestKey(q, m.requestId)], m.trackExtensions, p);
        }
      } else if m.RequestError? {
        RequestErrorOnly(w, q, m.requestId, Refused(m.errorCode, m.retryInterval, m.errorReason), c, p);
      } else if m.PublishDone? {
        PublishDoneOnly(w, q, m.requestId, Completed(m.statusCode, m.streamCount, m.errorReason), c, p);
      } else if m.Unsubscribe? {
        UnsubscribeOnly(w, q, m.requestId, c, p);
      }
    }
  }

  /** A request of another session leaves the ids of s alone. */
  lemma RequestLeavesPeerNext(cfg: RelayConfig, w: World, q: SessionKey, ch: Channel, m: ControlMessage, c: Choice,
                              s: SessionKey)
    requires q != s && (m.PublishNamespace? || m.Subscribe?)
    ensures Only(ControlPlan(cfg, w, q, ch, m, c), LeavesPeerNext(s))
  {
    var p := LeavesPeerNext(s);
    if m.PublishNamespace? {
      OnlyOffers(c.tracks, q, m.trackNamespace, p);
    } else {
      OnlyOpenLegs(c.peers, TrackKey(m.trackNamespace, m.trackName), p);
    }
  }

  lemma {:induction false} NeverUsedNoIds(cfg: RelayConfig, run: seq<Stimulus>, s: SessionKey)
    requires ConfigOk(cfg) && ValidRun(cfg, run) && s !in Reach(cfg, run).used
    ensures AcceptedIds(cfg, run, s) == []
  {
    if run != [] {
      var n := |run| - 1;
      var w := Reach(cfg, run[..n]);
      Reachable(cfg, run[..n]);
      UsedOnlyGrows(cfg, w, run[n], s);
      NeverUsedNoIds(cfg, run[..n], s);
      if IsRequest(run[n].event, s) {
        RequestStep(cfg, w, run[n], s);
      }
    }
  }

  lemma UsedOnlyGrows(cfg: RelayConfig, w: World, x: Stimulus, s: SessionKey)
    ensures s in w.used ==> s in Step(cfg, w, x).used
  {
    ActsUse(Receive(w, x.event), Plan(cfg, Receive(w, x.event), x.event, x.choice));
  }

  lemma {:induction false} ActsUse(w: World, acts: seq<Act>)
    ensures w.used <= Exec(w, acts).used
  {
    if acts != [] {
      ActsUse(w, acts[..|acts|-1]);
    }
  }

  /** Request ids accepted from s: consecutive steps of two from the peer's first id, no gap, no repeat. */
  lemma {:induction false} AcceptedIdsFit(cfg: RelayConfig, run: seq<Stimulus>, s: SessionKey)
    requires ConfigOk(cfg) && ValidRun(cfg, run) && s in Reach(cfg, run).st.sessions
    ensures var ids := AcceptedIds(cfg, run, s);
            var sess := Reach(cfg, run).st.sessions[s];
            StepsOfTwo(ids, PeerFirst(sess.role)) && sess.peerNext == PeerFirst(sess.role) + 2 * |ids|
  {
    if run == [] {
    } else {
      var n := |run| - 1;
      var w := Reach(cfg, run[..n]);
      Reachable(cfg, run[..n]);
      if run[n].event.SessionOpened? && run[n].event.session == s {
        NeverUsedNoIds(cfg, run[..n], s);
        SingleAct(Receive(w, run[n].event), Open(s, run[n].event.role, cfg.initialLocalMax, cfg.initialPeerMax));
      } else if IsRequest(run[n].event, s) {
        RequestStep(cfg, w, run[n], s);
        AcceptedIdsFit(cfg, run[..n], s);
      } else {
        OtherStep(cfg, w, run[n], s);
        AcceptedIdsFit(cfg, run[..n], s);
      }
    }
  }

  // ---- Aliases (section 10.1) ----

  /** Aliases announced to a session are 1, 2, 3, ...: none is given out twice. */
  lemma OutboundAliasesFresh(cfg: RelayConfig, run: seq<Stimulus>, s: SessionKey)
    requires ConfigOk(cfg) && ValidRun(cfg, run) && s in Reach(cfg, run).st.sessions
    ensures var as_ := Aliases(Reach(cfg, run).log, s);
            forall i :: 0 <= i < |as_| ==> as_[i] == i + 1
  {
    Reachable(cfg, run);
    assert AliasesFit(Reach(cfg, run), s, Aliases(Reach(cfg, run).log, s));
  }

  /** No alias names two subscriptions of a session, and no object uses an alias before its SUBSCRIBE_OK. */
  lemma OutboundAliasesSafe(cfg: RelayConfig, run: seq<Stimulus>, s: SessionKey, id1: nat, id2: nat, a: nat)
    requires ConfigOk(cfg) && ValidRun(cfg, run)
    ensures var log := Reach(cfg, run).log;
            && ObjectsAnnounced(log)
            && (Accepted(a) in Replies(log, RequestKey(s, id1)) && Accepted(a) in Replies(log, RequestKey(s, id2))
                ==> id1 == id2)
  {
    Reachable(cfg, run);
  }

  /** An inbound alias was announced by its publisher in answer to a SUBSCRIBE for its track. */
  lemma InboundAliasAnswered(cfg: RelayConfig, run: seq<Stimulus>, p: SessionKey, a: nat)
    requires ConfigOk(cfg) && ValidRun(cfg, run)
    requires p in Reach(cfg, run).st.sessions && a in Reach(cfg, run).st.sessions[p].inbound
    ensures exists r :: AnsweredWith(Reach(cfg, run).log, p, r, a, Reach(cfg, run).st.sessions[p].inbound[a])
  {
    Reachable(cfg, run);
  }

  ghost predicate BindingHolds(w: World, p: SessionKey, a: nat, t: TrackKey) {
    p in w.used && (p in w.st.sessions ==> a in w.st.sessions[p].inbound && w.st.sessions[p].inbound[a] == t)
  }

  lemma BindingKept(w: World, act: Act, p: SessionKey, a: nat, t: TrackKey)
    requires Enabled(w, act) && BindingHolds(w, p, a, t)
    ensures BindingHolds(ApplyWorld(w, act), p, a, t)
  {
  }

  lemma {:induction false} BindingRun(w: World, acts: seq<Act>, p: SessionKey, a: nat, t: TrackKey)
    requires Legal(w, acts) && BindingHolds(w, p, a, t)
    ensures BindingHolds(Exec(w, acts), p, a, t)
  {
    if acts != [] {
      BindingRun(w, acts[..|acts|-1], p, a, t);
      BindingKept(Exec(w, acts[..|acts|-1]), acts[|acts|-1], p, a, t);
    }
  }

  /** An inbound alias keeps its track for the life of the session. */
  lemma {:induction false} InboundAliasKeepsTrack(cfg: RelayConfig, pre: seq<Stimulus>, post: seq<Stimulus>,
                                                  p: SessionKey, a: nat)
    requires ConfigOk(cfg) && ValidRun(cfg, pre + post)
    requires p in Reach(cfg, pre).st.sessions && a in Reach(cfg, pre).st.sessions[p].inbound
    ensures BindingHolds(Reach(cfg, pre + post), p, a, Reach(cfg, pre).st.sessions[p].inbound[a])
    decreases |post|
  {
    SplitRun(cfg, pre, post);
    Reachable(cfg, pre);
    if post == [] {
      assert pre + post == pre;
    } else {
      var n := |post| - 1;
      assert (pre + post)[..|pre + post| - 1] == pre + post[..n];
      InboundAliasKeepsTrack(cfg, pre, post[..n], p, a);
      var w := Reach(cfg, pre + post[..n]);
      Reachable(cfg, pre + post[..n]);
      PlanLegal(cfg, w, post[n]);
      BindingRun(Receive(w, post[n].event), Plan(cfg, Receive(w, post[n].event), post[n].event, post[n].choice),
                 p, a, Reach(cfg, pre).st.sessions[p].inbound[a]);
    }
  }
}
