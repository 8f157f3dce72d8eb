/** How a leg that has ended keeps its publisher from being asked for the track again. */
module RelayStarving {
  import opened MoqTypes
  import opened RelayState
  import opened RelayLog
  import opened RelayActs
  import opened RelayPlan
  import opened RelayInv
  import opened RelayTrace
  import opened RelayLegal
  import opened RelayRuns
  import opened RelayFinality
  import opened RelayTheorems
  import opened RelayAsking

  /** Only recording a track anew or forgetting p can change what is on record of a leg that has ended. */
  lemma RecordKept(w: World, act: Act, t: TrackKey, p: SessionKey, leg: Leg)
    requires Enabled(w, act) && leg.state.Terminated? && !act.AddSub? && !(act.Forget? && act.s == p)
    requires t in w.st.tracks ==> OnRecord(w.st, t, p, leg)
    ensures t in Apply(w.st, act).tracks ==> OnRecord(Apply(w.st, act), t, p, leg)
  {
  }

  /** Acts that neither record a subscriber nor forget p. */
  function Remembering(p: SessionKey): Act -> bool { (a: Act) => !a.AddSub? && !(a.Forget? && a.s == p) }

  /** Nothing but SUBSCRIBE messages for other tracks has been sent to p since. */
  ghost predicate NotAskedSince(log: seq<Obs>, log': seq<Obs>, p: SessionKey, t: TrackKey) {
    var a, b := Requests(log, p), Requests(log', p);
    a <= b && forall i :: |a| <= i < |b| ==> b[i].1 != t
  }

  lemma NotAskedFor(w: World, act: Act, t: TrackKey, p: SessionKey, leg: Leg)
    requires Enabled(w, act) && (t in w.st.tracks ==> OnRecord(w.st, t, p, leg))
    ensures NotAskedSince(w.log, ApplyWorld(w, act).log, p, t)
  {
    RequestsGrow(w, act, p);
  }

  lemma NotAskedSinceEither(log: seq<Obs>, log1: seq<Obs>, log2: seq<Obs>, p: SessionKey, t: TrackKey)
    requires NotAskedSince(log, log1, p, t) && NotAskedSince(log1, log2, p, t)
    ensures NotAskedSince(log, log2, p, t)
  {
    var b, c := Requests(log1, p), Requests(log2, p);
    assert forall i :: 0 <= i < |b| ==> c[i] == b[i];
  }

  lemma {:induction false} RecordRun(w: World, acts: seq<Act>, t: TrackKey, p: SessionKey, leg: Leg)
    requires Legal(w, acts) && leg.state.Terminated? && Only(acts, Remembering(p))
    requires t in w.st.tracks ==> OnRecord(w.st, t, p, leg)
    ensures t in Exec(w, acts).st.tracks ==> OnRecord(Exec(w, acts).st, t, p, leg)
    ensures NotAskedSince(w.log, Exec(w, acts).log, p, t)
  {
    if acts != [] {
      var n := |acts| - 1;
      var w1 := Exec(w, acts[..n]);
      RecordRun(w, acts[..n], t, p, leg);
      assert Remembering(p)(acts[n]);
      RecordKept(w1, acts[n], t, p, leg);
      NotAskedFor(w1, acts[n], t, p, leg);
      NotAskedSinceEither(w.log, w1.log, Exec(w, acts).log, p, t);
    }
  }

  lemma AddingKeepsRecord(st: State, k: RequestKey, t: TrackKey, params: Parameters, u: TrackKey, p: SessionKey,
                          leg: Leg)
    requires OnRecord(st, u, p, leg)
    ensures OnRecord(Apply(st, AddSub(k, t, params)), u, p, leg)
  {
  }

  lemma RecordStep(cfg: RelayConfig, w: World, y: Stimulus, t: TrackKey, p: SessionKey, leg: Leg)
    requires ConfigOk(cfg) && Inv(w) && TraceInv(w) && Admissible(w, y)
    requires OnRecord(w.st, t, p, leg) && leg.state.Terminated? && y.event != SessionClosed(p)
    ensures t in Step(cfg, w, y).st.tracks ==> OnRecord(Step(cfg, w, y).st, t, p, leg)
    ensures NotAskedSince(w.log, Step(cfg, w, y).log, p, t)
  {
    var w1 := Receive(w, y.event);
    ReceiveRequests(w, y.event, p);
    var acts := Plan(cfg, w1, y.event, y.choice);
    PlanLegal(cfg, w, y);
    PlansRecord(cfg, w1, y, p);
    if acts != [] && acts[0].AddSub? {
      assert acts == [acts[0]] + acts[1..];
      ExecAppend(w1, [acts[0]], acts[1..]);
      SingleAct(w1, acts[0]);
      AddingKeepsRecord(w.st, acts[0].k, acts[0].t, acts[0].params, t, p, leg);
      RequestsGrow(w1, acts[0], p);
      RecordRun(ApplyWorld(w1, acts[0]), acts[1..], t, p, leg);
    } else {
      RecordRun(w1, acts, t, p, leg);
    }
  }

  /** Only the first act of a step records a subscriber, and only closing p forgets it. */
  lemma PlansRecord(cfg: RelayConfig, w: World, y: Stimulus, p: SessionKey)
    requires y.event != SessionClosed(p)
    ensures var acts := Plan(cfg, w, y.event, y.choice);
            if acts != [] && acts[0].AddSub? then Only(acts[1..], Remembering(p)) else Only(acts, Remembering(p))
  {
    match y.event
    case SessionOpened(_, _) =>
    case SessionClosed(s) => LeavingRecords(w.st, s, y.choice.tracks, y.choice.legs, p);
    case Control(s, ch, m) => ControlRecords(cfg, w, s, ch, m, y.choice, p);
    case ObjectReceived(s, alias, body) =>
      if s in w.st.sessions && alias in w.st.sessions[s].inbound {
        OnlyForwards(y.choice.subs, w.st.sessions[s].inbound[alias], body, Remembering(p));
      }
    case FetchObjectReceived(_) =>
  }

  lemma {:induction false} LeavingRecords(st: State, s: SessionKey, order: seq<TrackKey>,
                                          legs: map<TrackKey, seq<SessionKey>>, p: SessionKey)
    requires s != p
    ensures Only(LeaveTracks(st, s, order, legs), Remembering(p))
  {
    if order != [] {
      var n := |order| - 1;
      LeavingRecords(st, s, order[..n], legs, p);
      OnlyUnsubs(if order[n] in legs then legs[order[n]] else [], order[n], true, Remembering(p));
    }
  }

  lemma ControlRecords(cfg: RelayConfig, w: World, s: SessionKey, ch: Channel, m: ControlMessage, c: Choice,
                       p: SessionKey)
    ensures var acts := ControlPlan(cfg, w, s, ch, m, c);
            if acts != [] && acts[0].AddSub? then Only(acts[1..], Remembering(p)) else Only(acts, Remembering(p))
  {
    var q := Remembering(p);
    if s in w.st.sessions {
      if m.PublishNamespace? {
        OnlyOffers(c.tracks, s, m.trackNamespace, q);
      } else if m.Subscribe? {
        OnlyOpenLegs(c.peers, TrackKey(m.trackNamespace, m.trackName), q);
        SubscribeRecords(w, s, ch, m.requestId, TrackKey(m.trackNamespace, m.trackName), m.parameters, c, p);
      } else if m.SubscribeOk? {
        if RequestKey(s, m.requestId) in w.st.upIndex {
          OnlyGrants(c.subs, w.st.upIndex[RequestKey(s, m.requestId)], m.trackExtensions, q);
        }
      } else if m.RequestError? {
        RequestErrorOnly(w, s, m.requestId, Refused(m.errorCode, m.retryInterval, m.errorReason), c, q);
      } else if m.PublishDone? {
        PublishDoneOnly(w, s, m.requestId, Completed(m.statusCode, m.streamCount, m.errorReason), c, q);
      } else if m.Unsubscribe? {
        UnsubscribeOnly(w, s, m.requestId, c, q);
      }
    }
  }

  lemma SubscribeRecords(w: World, s: SessionKey, ch: Channel, id: nat, t: TrackKey, params: Parameters, c: Choice,
                         p: SessionKey)
    requires s in w.st.sessions && Only(OpenLegs(c.peers, t), Remembering(p))
    ensures var acts := SubscribePlan(w, s, ch, id, t, params, c);
            if acts[0].AddSub? then Only(acts[1..], Remembering(p)) else Only(acts, Remembering(p))
  {
  }

  /** All along these events the track has a route and p is not closed. */
  ghost predicate RouteLasts(cfg: RelayConfig, w: World, post: seq<Stimulus>, t: TrackKey, p: SessionKey) {
    && t in Continue(cfg, w, post).st.tracks
    && (post == [] || (RouteLasts(cfg, w, post[..|post|-1], t, p) && post[|post|-1].event != SessionClosed(p)))
  }

  lemma {:induction false} RecordLasts(cfg: RelayConfig, w: World, post: seq<Stimulus>, t: TrackKey, p: SessionKey,
                                       leg: Leg)
    requires ConfigOk(cfg) && Inv(w) && TraceInv(w) && ValidFrom(cfg, w, post) && RouteLasts(cfg, w, post, t, p)
    requires OnRecord(w.st, t, p, leg) && leg.state.Terminated?
    ensures Inv(Continue(cfg, w, post)) && TraceInv(Continue(cfg, w, post))
    ensures OnRecord(Continue(cfg, w, post).st, t, p, leg)
    ensures NotAskedSince(w.log, Continue(cfg, w, post).log, p, t)
  {
    if post != [] {
      var n := |post| - 1;
      var w1 := Continue(cfg, w, post[..n]);
      RecordLasts(cfg, w, post[..n], t, p, leg);
      StepKeeps(cfg, w1, post[n]);
      RecordStep(cfg, w1, post[n], t, p, leg);
      NotAskedSinceEither(w.log, w1.log, Continue(cfg, w, post).log, p, t);
    }
  }

  /** A leg that has ended stays on record, unchanged, for as long as its track has a route and its
      publisher is not closed. */
  lemma DeadLegStays(cfg: RelayConfig, pre: seq<Stimulus>, post: seq<Stimulus>, t: TrackKey, p: SessionKey)
    requires ConfigOk(cfg) && ValidRun(cfg, pre + post) && RouteLasts(cfg, Reach(cfg, pre), post, t, p)
    requires HasLeg(Reach(cfg, pre).st, t, p) && LegOf(Reach(cfg, pre).st, t, p).state.Terminated?
    ensures OnRecord(Reach(cfg, pre + post).st, t, p, LegOf(Reach(cfg, pre).st, t, p))
  {
    SplitRun(cfg, pre, post);
    Reachable(cfg, pre);
    RecordLasts(cfg, Reach(cfg, pre), post, t, p, LegOf(Reach(cfg, pre).st, t, p));
  }

  /** So until then p is sent no SUBSCRIBE for the track, whatever events come: subscribers, announcements of p
      itself, or any others. */
  lemma StarvedWhileOnRecord(cfg: RelayConfig, pre: seq<Stimulus>, post: seq<Stimulus>, t: TrackKey, p: SessionKey)
    requires ConfigOk(cfg) && ValidRun(cfg, pre + post) && RouteLasts(cfg, Reach(cfg, pre), post, t, p)
    requires HasLeg(Reach(cfg, pre).st, t, p) && LegOf(Reach(cfg, pre).st, t, p).state.Terminated?
    ensures NotAskedSince(Reach(cfg, pre).log, Reach(cfg, pre + post).log, p, t)
  {
    SplitRun(cfg, pre, post);
    Reachable(cfg, pre);
    RecordLasts(cfg, Reach(cfg, pre), post, t, p, LegOf(Reach(cfg, pre).st, t, p));
  }
}
