/** The two scans that bring a track and its publishers together: one when a publisher announces a
    namespace, one when a subscriber names a track (section 8.5 of draft-ietf-moq-transport-16). */
module RelayScans {
  import opened MoqTypes
  import opened RelayState
  import opened RelayActs
  import opened RelayPlan
  import opened RelayInv
  import opened RelayTrace
  import opened RelayLegal
  import opened RelayRuns
  import opened RelayMatching

  /** Announcing a namespace offers exactly the recorded tracks it is a prefix of. */
  lemma {:induction false} OffersExactly(order: seq<TrackKey>, s: SessionKey, ns: Namespace, t: TrackKey)
    ensures OpenLeg(s, t) in OfferTracks(order, s, ns) <==> t in order && IsPrefixOf(ns, t.namespace)
  {
    if order != [] {
      var n := |order| - 1;
      OffersExactly(order[..n], s, ns, t);
      assert t in order <==> t in order[..n] || t == order[n];
    }
  }

  /** Announcing one of its namespaces would offer track t to s. */
  ghost predicate Offered(st: State, s: SessionKey, t: TrackKey, order: seq<TrackKey>) {
    s in st.sessions && exists p :: p in st.sessions[s].published && OpenLeg(s, t) in OfferTracks(order, s, p)
  }

  lemma OfferedIsPrefix(st: State, s: SessionKey, t: TrackKey, order: seq<TrackKey>)
    requires t in order
    ensures Offered(st, s, t, order)
       <==> s in st.sessions && exists p :: p in st.sessions[s].published && IsPrefixOf(p, t.namespace)
  {
    if s in st.sessions {
      forall p | p in st.sessions[s].published
        ensures OpenLeg(s, t) in OfferTracks(order, s, p) <==> IsPrefixOf(p, t.namespace)
      {
        OffersExactly(order, s, p, t);
      }
    }
  }

  /** Of a track on record, subscribing finds the publishers that announcing offers it to, in whatever order
      the tracks are gone through; except that announcing the empty namespace is also offered the track. */
  lemma SameMatchBothWays(cfg: RelayConfig, run: seq<Stimulus>, t: TrackKey, s: SessionKey, order: seq<TrackKey>)
    requires ConfigOk(cfg) && ValidRun(cfg, run)
    requires t in Reach(cfg, run).st.tracks && IsOrder(order, Reach(cfg, run).st.tracks.Keys)
    ensures var st := Reach(cfg, run).st;
            Offered(st, s, t, order) <==>
              s in MatchPublishers(st, t.namespace) || (s in st.sessions && [] in st.sessions[s].published)
  {
    Reachable(cfg, run);
    var st := Reach(cfg, run).st;
    OfferedIsPrefix(st, s, t, order);
    MatchIsOwnership(st, t.namespace, s);
    assert IsPrefixOf([], t.namespace);
  }

  /** The scans agree on s for every track exactly when s has not announced the empty namespace: then every
      track is offered to it, but a subscription to the empty namespace never finds it. */
  lemma ScansAgreeIff(cfg: RelayConfig, run: seq<Stimulus>, s: SessionKey)
    requires ConfigOk(cfg) && ValidRun(cfg, run) && s in Reach(cfg, run).st.sessions
    ensures var st := Reach(cfg, run).st;
            (forall t :: Offered(st, s, t, [t]) <==> s in MatchPublishers(st, t.namespace))
            <==> [] !in st.sessions[s].published
  {
    Reachable(cfg, run);
    var st := Reach(cfg, run).st;
    forall t: TrackKey
      ensures Offered(st, s, t, [t]) <==> exists p :: p in st.sessions[s].published && IsPrefixOf(p, t.namespace)
      ensures s in MatchPublishers(st, t.namespace) <==> OwnsPrefix(st, s, t.namespace)
    {
      OfferedIsPrefix(st, s, t, [t]);
      MatchIsOwnership(st, t.namespace, s);
    }
    if [] in st.sessions[s].published {
      var t := TrackKey([], []);
      assert IsPrefixOf([], t.namespace) && Offered(st, s, t, [t]) && !OwnsPrefix(st, s, t.namespace);
    }
  }

  // ---- Where published namespaces come from ----

  predicate Announces(ev: Event, s: SessionKey, ns: Namespace) {
    ev.Control? && ev.session == s && ev.message.PublishNamespace? && ev.message.trackNamespace == ns
  }

  predicate Publishes(st: State, s: SessionKey, ns: Namespace) {
    s in st.sessions && ns in st.sessions[s].published
  }

  lemma PublishedSource(w: World, act: Act, s: SessionKey, ns: Namespace)
    requires Enabled(w, act) && Publishes(Apply(w.st, act), s, ns)
    ensures Publishes(w.st, s, ns) || (act.Announce? && act.s == s && act.ns == ns)
  {
  }

  function Discreet(s: SessionKey): Act -> bool { (a: Act) => !(a.Announce? && a.s == s) }

  lemma {:induction false} DiscreetRun(w: World, acts: seq<Act>, s: SessionKey, ns: Namespace)
    requires Legal(w, acts) && Only(acts, Discreet(s)) && Publishes(Exec(w, acts).st, s, ns)
    ensures Publishes(w.st, s, ns)
  {
    if acts != [] {
      var n := |acts| - 1;
      assert Discreet(s)(acts[n]);
      PublishedSource(Exec(w, acts[..n]), acts[n], s, ns);
      DiscreetRun(w, acts[..n], s, ns);
    }
  }

  lemma PlansDiscreet(cfg: RelayConfig, w: World, x: Stimulus, s: SessionKey)
    requires Inv(w) && (IsRequest(x.event, s) ==> !Acceptable(w.st, s, x.event.message.requestId))
    ensures Only(Plan(cfg, w, x.event, x.choice), Discreet(s))
  {
    var acts := Plan(cfg, w, x.event, x.choice);
    if IsRequest(x.event, s) {
      RequestPlanShape(cfg, w, x, s);
    } else if !x.event.SessionOpened? {
      PlansLeavePeerNext(cfg, w, x, s);
      forall i | 0 <= i < |acts| ensures Discreet(s)(acts[i]) { assert LeavesPeerNext(s)(acts[i]); }
    }
  }

  lemma AnnouncedNow(cfg: RelayConfig, w: World, x: Stimulus, s: SessionKey, ns: Namespace)
    requires Inv(w) && IsRequest(x.event, s) && Acceptable(w.st, s, x.event.message.requestId)
    requires Legal(w, Plan(cfg, w, x.event, x.choice))
    requires Publishes(Exec(w, Plan(cfg, w, x.event, x.choice)).st, s, ns) && !Publishes(w.st, s, ns)
    ensures Announces(x.event, s, ns)
  {
    var acts := Plan(cfg, w, x.event, x.choice);
    RequestPlanShape(cfg, w, x, s);
    assert acts == [acts[0]] + acts[1..];
    ExecAppend(w, [acts[0]], acts[1..]);
    SingleAct(w, acts[0]);
    forall i | 0 <= i < |acts[1..]| ensures Discreet(s)(acts[1..][i]) { assert Following(s)(acts[1..][i]); }
    DiscreetRun(ApplyWorld(w, acts[0]), acts[1..], s, ns);
    PublishedSource(w, acts[0], s, ns);
    FirstAnnounces(cfg, w, x);
  }

  lemma FirstAnnounces(cfg: RelayConfig, w: World, x: Stimulus)
    requires x.event.Control? && (x.event.message.Subscribe? || x.event.message.PublishNamespace?)
    ensures var acts := Plan(cfg, w, x.event, x.choice);
            acts != [] && acts[0].Announce? ==> Announces(x.event, acts[0].s, acts[0].ns)
  {
  }

  /** A session's published namespaces are ones it announced. */
  lemma {:induction false} PublishedWasAnnounced(cfg: RelayConfig, run: seq<Stimulus>, s: SessionKey, ns: Namespace)
    requires ConfigOk(cfg) && ValidRun(cfg, run) && Publishes(Reach(cfg, run).st, s, ns)
    ensures exists i :: 0 <= i < |run| && Announces(run[i].event, s, ns)
  {
    if run != [] {
      var n := |run| - 1;
      var w := Reach(cfg, run[..n]);
      Reachable(cfg, run[..n]);
      if Publishes(w.st, s, ns) {
        PublishedWasAnnounced(cfg, run[..n], s, ns);
        var i :| 0 <= i < n && Announces(run[..n][i].event, s, ns);
        assert Announces(run[i].event, s, ns);
      } else {
        NewlyPublished(cfg, w, run[n], s, ns);
        assert Announces(run[n].event, s, ns);
      }
    }
  }

  lemma NewlyPublished(cfg: RelayConfig, w: World, x: Stimulus, s: SessionKey, ns: Namespace)
    requires ConfigOk(cfg) && Inv(w) && TraceInv(w) && Admissible(w, x)
    requires Publishes(Step(cfg, w, x).st, s, ns) && !Publishes(w.st, s, ns)
    ensures Announces(x.event, s, ns)
  {
    var w1 := Receive(w, x.event);
    ReceiveKeeps(w, x.event);
    PlanLegal(cfg, w, x);
    if IsRequest(x.event, s) && Acceptable(w.st, s, x.event.message.requestId) {
      AnnouncedNow(cfg, w1, x, s, ns);
    } else {
      PlansDiscreet(cfg, w1, x, s);
      DiscreetRun(w1, Plan(cfg, w1, x.event, x.choice), s, ns);
    }
  }

  /** So the scans agree on s, for every track, if it has announced no empty namespace. */
  lemma ScansAgreeOnProperNamespaces(cfg: RelayConfig, run: seq<Stimulus>, s: SessionKey, t: TrackKey)
    requires ConfigOk(cfg) && ValidRun(cfg, run) && s in Reach(cfg, run).st.sessions
    requires forall i :: 0 <= i < |run| ==> !Announces(run[i].event, s, [])
    ensures Offered(Reach(cfg, run).st, s, t, [t]) <==> s in MatchPublishers(Reach(cfg, run).st, t.namespace)
  {
    if [] in Reach(cfg, run).st.sessions[s].published {
      PublishedWasAnnounced(cfg, run, s, []);
    }
    ScansAgreeIff(cfg, run, s);
  }
}
