/** What a subscriber is granted: the track of the SUBSCRIBE that was accepted from it, while a publisher
    of that track is Established. */
module RelayAccepted {
  import opened MoqTypes
  import opened RelayState
  import opened RelayLog
  import opened RelayActs
  import opened RelayPlan
  import opened RelayInv
  import opened RelayTrace
  import opened RelayLegal
  import opened RelayRuns
  import opened RelayFinality
  import opened RelayTheorems
  import opened RelayDelivery
  import opened RelayMatching

  // ---- Which track a subscription is for ----

  /** Event i of the run is the SUBSCRIBE k for track t, and was not refused. */
  ghost predicate AcceptedAt(cfg: RelayConfig, run: seq<Stimulus>, i: nat, k: RequestKey, t: TrackKey)
    requires i < |run|
  {
    AsksFor(Rx(run[i].event), k, t) && !Refuses(Reach(cfg, run[..i]), Reach(cfg, run[..i + 1]))
  }

  ghost predicate AcceptedFor(cfg: RelayConfig, run: seq<Stimulus>, k: RequestKey, t: TrackKey) {
    exists i: nat :: i < |run| && AcceptedAt(cfg, run, i, k, t)
  }

  lemma AcceptedForGrows(cfg: RelayConfig, run: seq<Stimulus>, y: Stimulus, k: RequestKey, t: TrackKey)
    requires AcceptedFor(cfg, run, k, t)
    ensures AcceptedFor(cfg, run + [y], k, t)
  {
    var i: nat :| i < |run| && AcceptedAt(cfg, run, i, k, t);
    assert (run + [y])[..i] == run[..i] && (run + [y])[..i + 1] == run[..i + 1];
    assert AcceptedAt(cfg, run + [y], i, k, t);
  }

  /** Acts that record no subscription of s. */
  function Recordless(s: SessionKey): Act -> bool { (a: Act) => !(a.AddSub? && a.k.session == s) }

  lemma {:induction false} NoNewSubRun(w: World, acts: seq<Act>, t: TrackKey, k: RequestKey)
    requires Only(acts, Recordless(k.session)) && HasSub(Exec(w, acts).st, t, k)
    ensures HasSub(w.st, t, k)
  {
    if acts != [] {
      var n := |acts| - 1;
      assert Recordless(k.session)(acts[n]);
      NoNewSub(Exec(w, acts[..n]), acts[n], t, k);
      NoNewSubRun(w, acts[..n], t, k);
    }
  }

  lemma PlansRecordless(cfg: RelayConfig, w: World, x: Stimulus, s: SessionKey)
    requires Inv(w) && (IsRequest(x.event, s) ==> !Acceptable(w.st, s, x.event.message.requestId))
    ensures Only(Plan(cfg, w, x.event, x.choice), Recordless(s))
  {
    var acts := Plan(cfg, w, x.event, x.choice);
    if IsRequest(x.event, s) {
      RequestPlanShape(cfg, w, x, s);
    } else if !x.event.SessionOpened? {
      PlansLeavePeerNext(cfg, w, x, s);
      forall i | 0 <= i < |acts| ensures Recordless(s)(acts[i]) { assert LeavesPeerNext(s)(acts[i]); }
    }
  }

  /** What is recorded of k in a step is recorded by a SUBSCRIBE with its id for that track, which is accepted. */
  lemma NewSubAccepted(cfg: RelayConfig, w: World, x: Stimulus, t: TrackKey, k: RequestKey)
    requires ConfigOk(cfg) && Inv(w) && TraceInv(w) && Admissible(w, x)
    requires HasSub(Step(cfg, w, x).st, t, k) && !HasSub(w.st, t, k)
    ensures AsksFor(Rx(x.event), k, t) && !Refuses(w, Step(cfg, w, x))
  {
    var s := k.session;
    var w1 := Receive(w, x.event);
    var acts := Plan(cfg, w1, x.event, x.choice);
    ReceiveKeeps(w, x.event);
    if IsRequest(x.event, s) && Acceptable(w.st, s, x.event.message.requestId) {
      RequestStep(cfg, w, x, s);
      NewSubIsAsked(cfg, w1, x, t, k);
    } else {
      PlansRecordless(cfg, w1, x, s);
      NoNewSubRun(w1, acts, t, k);
    }
  }

  lemma NewSubIsAsked(cfg: RelayConfig, w: World, x: Stimulus, t: TrackKey, k: RequestKey)
    requires Inv(w) && IsRequest(x.event, k.session) && Acceptable(w.st, k.session, x.event.message.requestId)
    requires HasSub(Exec(w, Plan(cfg, w, x.event, x.choice)).st, t, k) && !HasSub(w.st, t, k)
    ensures AsksFor(Rx(x.event), k, t)
  {
    var s := k.session;
    var acts := Plan(cfg, w, x.event, x.choice);
    RequestPlanShape(cfg, w, x, s);
    assert acts == [acts[0]] + acts[1..];
    ExecAppend(w, [acts[0]], acts[1..]);
    SingleAct(w, acts[0]);
    forall i | 0 <= i < |acts[1..]| ensures Recordless(s)(acts[1..][i]) { assert Following(s)(acts[1..][i]); }
    NoNewSubRun(ApplyWorld(w, acts[0]), acts[1..], t, k);
    NoNewSub(w, acts[0], t, k);
    FirstOfRequest(cfg, w, x);
    assert k == RequestKey(s, x.event.message.requestId);
  }

  lemma FirstOfRequest(cfg: RelayConfig, w: World, x: Stimulus)
    requires x.event.Control?
    ensures var acts := Plan(cfg, w, x.event, x.choice);
            acts != [] && acts[0].AddSub? && (x.event.message.Subscribe? || x.event.message.PublishNamespace?) ==>
              AsksFor(Rx(x.event), acts[0].k, acts[0].t)
  {
  }

  lemma LastIsAccepted(cfg: RelayConfig, pre: seq<Stimulus>, run: seq<Stimulus>, k: RequestKey, t: TrackKey)
    requires |run| == |pre| + 1 && run[..|pre|] == pre
    requires AsksFor(Rx(run[|pre|].event), k, t) && !Refuses(Reach(cfg, pre), Reach(cfg, run))
    ensures AcceptedFor(cfg, run, k, t)
  {
    assert run[..|pre| + 1] == run;
    assert AcceptedAt(cfg, run, |pre|, k, t);
  }

  /** Whatever is recorded as a subscription is that of an accepted SUBSCRIBE. */
  lemma {:induction false} RecordedWasAccepted(cfg: RelayConfig, run: seq<Stimulus>, k: RequestKey, t: TrackKey)
    requires ConfigOk(cfg) && ValidRun(cfg, run) && HasSub(Reach(cfg, run).st, t, k)
    ensures AcceptedFor(cfg, run, k, t)
  {
    if run != [] {
      var pre, x := run[..|run|-1], run[|run|-1];
      assert run == pre + [x];
      OneMore(cfg, pre, x, run);
      Reachable(cfg, pre);
      if HasSub(Reach(cfg, pre).st, t, k) {
        RecordedWasAccepted(cfg, pre, k, t);
        AcceptedForGrows(cfg, pre, x, k, t);
      } else {
        NewSubAccepted(cfg, Reach(cfg, pre), x, t, k);
        LastIsAccepted(cfg, pre, run, k, t);
      }
    }
  }

  /** Event j takes a request id of s. */
  ghost predicate Takes(cfg: RelayConfig, run: seq<Stimulus>, j: nat, s: SessionKey)
    requires j < |run|
  {
    IsRequest(run[j].event, s) && !Refuses(Reach(cfg, run[..j]), Reach(cfg, run[..j + 1]))
  }

  /** The id is among those accepted from s up to event j. */
  ghost predicate Listed(cfg: RelayConfig, run: seq<Stimulus>, s: SessionKey, id: nat, j: nat) {
    j <= |run| && id in AcceptedIds(cfg, run[..j], s)
  }

  lemma ListTaken(cfg: RelayConfig, run: seq<Stimulus>, j: nat, s: SessionKey)
    requires j < |run| && Takes(cfg, run, j, s)
    ensures Listed(cfg, run, s, run[j].event.message.requestId, j + 1)
  {
    assert run[..j + 1][..j] == run[..j];
  }

  lemma ListGrows(cfg: RelayConfig, run: seq<Stimulus>, j: nat, s: SessionKey, id: nat)
    requires j < |run| && Listed(cfg, run, s, id, j)
    ensures Listed(cfg, run, s, id, j + 1)
  {
    assert run[..j + 1][..j] == run[..j];
  }

  lemma {:induction false} StaysListed(cfg: RelayConfig, run: seq<Stimulus>, i: nat, j: nat, s: SessionKey, id: nat)
    requires i <= j <= |run| && Listed(cfg, run, s, id, i)
    ensures Listed(cfg, run, s, id, j)
    decreases j
  {
    if i < j {
      StaysListed(cfg, run, i, j - 1, s, id);
      ListGrows(cfg, run, j - 1, s, id);
    }
  }

  /** A request id is accepted at most once, so for one track only. */
  lemma AcceptedForOneTrack(cfg: RelayConfig, run: seq<Stimulus>, i: nat, j: nat, k: RequestKey, t: TrackKey,
                            u: TrackKey)
    requires ConfigOk(cfg) && ValidRun(cfg, run) && i < |run| && j < |run|
    requires AcceptedAt(cfg, run, i, k, t) && AcceptedAt(cfg, run, j, k, u)
    ensures i == j && t == u
  {
    if i < j {
      AcceptedTwice(cfg, run, i, j, k, t, u);
    } else if j < i {
      AcceptedTwice(cfg, run, j, i, k, u, t);
    }
  }

  lemma AcceptedTwice(cfg: RelayConfig, run: seq<Stimulus>, i: nat, j: nat, k: RequestKey, t: TrackKey, u: TrackKey)
    requires ConfigOk(cfg) && ValidRun(cfg, run) && i < j < |run| && AcceptedAt(cfg, run, i, k, t)
    ensures !AcceptedAt(cfg, run, j, k, u)
  {
    if AcceptedAt(cfg, run, j, k, u) {
      PrefixValid(cfg, run, j);
      AcceptedIsNext(cfg, run, j, k, u);
      ListTaken(cfg, run, i, k.session);
      StaysListed(cfg, run, i + 1, j, k.session, k.id);
      NextIsNotListed(cfg, run[..j], k);
    }
  }

  lemma AcceptedIsNext(cfg: RelayConfig, run: seq<Stimulus>, j: nat, k: RequestKey, u: TrackKey)
    requires ConfigOk(cfg) && ValidRun(cfg, run) && j < |run| && AcceptedAt(cfg, run, j, k, u)
    ensures Acceptable(Reach(cfg, run[..j]).st, k.session, k.id)
  {
    StepOfRun(cfg, run, j);
    Reachable(cfg, run[..j]);
    RequestStep(cfg, Reach(cfg, run[..j]), run[j], k.session);
  }

  lemma NextIsNotListed(cfg: RelayConfig, run: seq<Stimulus>, k: RequestKey)
    requires ConfigOk(cfg) && ValidRun(cfg, run) && Acceptable(Reach(cfg, run).st, k.session, k.id)
    ensures k.id !in AcceptedIds(cfg, run, k.session)
  {
    AcceptedIdsFit(cfg, run, k.session);
  }

  // ---- What is carried ----

  /** What is carried to k is of the one track whose SUBSCRIBE was accepted from k, under an alias its
      publisher announced for it. */
  lemma CarriedTrackWasAsked(cfg: RelayConfig, run: seq<Stimulus>, p: SessionKey, alias: nat, k: RequestKey)
    requires ConfigOk(cfg) && ValidRun(cfg, run) && Carries(Reach(cfg, run).st, p, alias, k)
    ensures var t := Reach(cfg, run).st.sessions[p].inbound[alias];
            && (forall u :: AcceptedFor(cfg, run, k, u) <==> u == t)
            && exists r :: AnsweredWith(Reach(cfg, run).log, p, r, alias, t)
  {
    Reachable(cfg, run);
    var t := Reach(cfg, run).st.sessions[p].inbound[alias];
    RecordedWasAccepted(cfg, run, k, t);
    forall u | AcceptedFor(cfg, run, k, u) ensures u == t {
      OnlyTrack(cfg, run, k, t, u);
    }
  }

  lemma OnlyTrack(cfg: RelayConfig, run: seq<Stimulus>, k: RequestKey, t: TrackKey, u: TrackKey)
    requires ConfigOk(cfg) && ValidRun(cfg, run) && AcceptedFor(cfg, run, k, t) && AcceptedFor(cfg, run, k, u)
    ensures t == u
  {
    var i: nat :| i < |run| && AcceptedAt(cfg, run, i, k, t);
    var j: nat :| j < |run| && AcceptedAt(cfg, run, j, k, u);
    AcceptedForOneTrack(cfg, run, i, j, k, t, u);
  }

  // ---- SUBSCRIBE_OK ----

  /** k is Established on t under alias a, and so is a publisher's leg. */
  predicate Served(st: State, t: TrackKey, k: RequestKey, a: nat) {
    && HasSub(st, t, k) && Sub(st, t, k).state.Established? && Sub(st, t, k).outboundAlias == Some(a)
    && HasEstablishedUpstream(st.tracks[t])
  }

  predicate Builds(a: Act) {
    !(a.End? || a.EndLeg? || a.Unsub? || a.Drop? || a.Forget? || a.Depart?)
  }

  /** Acts that end nothing; acts that grant nothing. */
  function Building(): Act -> bool { (a: Act) => Builds(a) }
  function Grantless(): Act -> bool { (a: Act) => !a.Grant? }

  lemma ServedKept(w: World, act: Act, t: TrackKey, k: RequestKey, a: nat)
    requires Inv(w) && Enabled(w, act) && Builds(act) && Served(w.st, t, k, a)
    ensures Served(Apply(w.st, act), t, k, a)
  {
    assert SubOk(w.st, t, k);
    var p :| p in w.st.tracks[t].ups && w.st.tracks[t].ups[p].state.Established?;
    LegOutlasts(w, act, t, p);
    SubOutlasts(w, act, t, k);
  }

  lemma LegOutlasts(w: World, act: Act, t: TrackKey, p: SessionKey)
    requires Enabled(w, act) && Builds(act) && HasLeg(w.st, t, p) && LegOf(w.st, t, p).state.Established?
    ensures HasLeg(Apply(w.st, act), t, p) && LegOf(Apply(w.st, act), t, p).state.Established?
  {
  }

  lemma SubOutlasts(w: World, act: Act, t: TrackKey, k: RequestKey)
    requires Enabled(w, act) && Builds(act) && HasSub(w.st, t, k) && SubOk(w.st, t, k)
             && Sub(w.st, t, k).state.Established?
    ensures HasSub(Apply(w.st, act), t, k) && Sub(Apply(w.st, act), t, k) == Sub(w.st, t, k)
  {
  }

  lemma GrantServes(w: World, act: Act, k: RequestKey, a: nat)
    requires Enabled(w, act) && GrantedNow(w.st, act, k, a)
    ensures Served(Apply(w.st, act), act.t, k, a)
  {
    var p :| p in w.st.tracks[act.t].ups && w.st.tracks[act.t].ups[p].state.Established?;
    assert HasLeg(Apply(w.st, act), act.t, p) && LegOf(Apply(w.st, act), act.t, p).state.Established?;
  }

  lemma {:induction false} BuildingServes(w: World, acts: seq<Act>, k: RequestKey, a: nat)
    requires Inv(w) && Legal(w, acts) && Only(acts, Building())
    requires Accepted(a) in Replies(Exec(w, acts).log, k) && Accepted(a) !in Replies(w.log, k)
    ensures exists t :: Served(Exec(w, acts).st, t, k, a)
  {
    if acts != [] {
      var n := |acts| - 1;
      var w1 := Exec(w, acts[..n]);
      InvRun(w, acts[..n]);
      assert Building()(acts[n]);
      if Accepted(a) in Replies(w1.log, k) {
        BuildingServes(w, acts[..n], k, a);
        var t :| Served(w1.st, t, k, a);
        ServedKept(w1, acts[n], t, k, a);
      } else {
        AcceptedSource(w1, acts[n], k, a);
        GrantServes(w1, acts[n], k, a);
      }
    }
  }

  lemma {:induction false} GrantlessAccepts(w: World, acts: seq<Act>, k: RequestKey, a: nat)
    requires Legal(w, acts) && Only(acts, Grantless())
    requires Accepted(a) in Replies(Exec(w, acts).log, k)
    ensures Accepted(a) in Replies(w.log, k)
  {
    if acts != [] {
      var n := |acts| - 1;
      assert Grantless()(acts[n]);
      AcceptedSource(Exec(w, acts[..n]), acts[n], k, a);
      GrantlessAccepts(w, acts[..n], k, a);
    }
  }

  /** A handler that grants ends nothing. */
  lemma PlansBuildOrGrantNot(cfg: RelayConfig, w: World, x: Stimulus)
    ensures Only(Plan(cfg, w, x.event, x.choice), Building()) || Only(Plan(cfg, w, x.event, x.choice), Grantless())
  {
    match x.event
    case SessionOpened(_, _) =>
    case SessionClosed(s) => LeavingGrantless(w.st, s, x.choice.tracks, x.choice.legs);
    case Control(s, ch, m) => if s in w.st.sessions { ControlBuilds(cfg, w, s, ch, m, x.choice); }
    case ObjectReceived(s, alias, body) =>
      if s in w.st.sessions && alias in w.st.sessions[s].inbound {
        OnlyForwards(x.choice.subs, w.st.sessions[s].inbound[alias], body, Building());
      }
    case FetchObjectReceived(_) =>
  }

  lemma {:induction false} LeavingGrantless(st: State, s: SessionKey, order: seq<TrackKey>,
                                            legs: map<TrackKey, seq<SessionKey>>)
    ensures Only(LeaveTracks(st, s, order, legs), Grantless())
  {
    if order != [] {
      var n := |order| - 1;
      LeavingGrantless(st, s, order[..n], legs);
      OnlyUnsubs(if order[n] in legs then legs[order[n]] else [], order[n], true, Grantless());
    }
  }

  lemma ControlBuilds(cfg: RelayConfig, w: World, s: SessionKey, ch: Channel, m: ControlMessage, c: Choice)
    requires s in w.st.sessions
    ensures var acts := ControlPlan(cfg, w, s, ch, m, c); Only(acts, Building()) || Only(acts, Grantless())
  {
    if m.PublishNamespace? {
      OnlyOffers(c.tracks, s, m.trackNamespace, Building());
    } else if m.Subscribe? {
      OnlyOpenLegs(c.peers, TrackKey(m.trackNamespace, m.trackName), Building());
      SubscribeBuilds(w, s, ch, m.requestId, TrackKey(m.trackNamespace, m.trackName), m.parameters, c);
    } else if m.SubscribeOk? {
      if RequestKey(s, m.requestId) in w.st.upIndex {
        OnlyGrants(c.subs, w.st.upIndex[RequestKey(s, m.requestId)], m.trackExtensions, Building());
      }
    } else if m.RequestError? {
      RequestErrorOnly(w, s, m.requestId, Refused(m.errorCode, m.retryInterval, m.errorReason), c, Grantless());
    } else if m.PublishDone? {
      PublishDoneOnly(w, s, m.requestId, Completed(m.statusCode, m.streamCount, m.errorReason), c, Grantless());
    } else if m.Unsubscribe? {
      UnsubscribeOnly(w, s, m.requestId, c, Grantless());
    }
  }

  lemma SubscribeBuilds(w: World, s: SessionKey, ch: Channel, id: nat, t: TrackKey, params: Parameters, c: Choice)
    requires s in w.st.sessions && Only(OpenLegs(c.peers, t), Building())
    ensures var acts := SubscribePlan(w, s, ch, id, t, params, c); Only(acts, Building()) || Only(acts, Grantless())
  {
  }

  lemma GrantStepServes(cfg: RelayConfig, w: World, x: Stimulus, k: RequestKey, a: nat)
    requires ConfigOk(cfg) && Inv(w) && TraceInv(w) && Admissible(w, x)
    requires Accepted(a) in Replies(Step(cfg, w, x).log, k) && Accepted(a) !in Replies(w.log, k)
    ensures exists t :: Served(Step(cfg, w, x).st, t, k, a)
  {
    var w1 := Receive(w, x.event);
    var acts := Plan(cfg, w1, x.event, x.choice);
    ReceiveKeeps(w, x.event);
    ReceiveReplies(w, x.event, k);
    PlanLegal(cfg, w, x);
    PlansBuildOrGrantNot(cfg, w1, x);
    if Only(acts, Building()) {
      BuildingServes(w1, acts, k, a);
    } else {
      GrantlessAccepts(w1, acts, k, a);
    }
  }

  /** Event i makes the relay send SUBSCRIBE_OK to k with alias a for track t: the one whose SUBSCRIBE was
      accepted from k, on which a publisher that accepted the relay's own SUBSCRIBE is then Established. */
  ghost predicate BackedAt(cfg: RelayConfig, run: seq<Stimulus>, i: nat, k: RequestKey, a: nat, t: TrackKey)
    requires i < |run|
  {
    && Accepted(a) !in Replies(Reach(cfg, run[..i]).log, k)
    && Accepted(a) in Replies(Reach(cfg, run[..i + 1]).log, k)
    && Served(Reach(cfg, run[..i + 1]).st, t, k, a)
    && AcceptedFor(cfg, run[..i + 1], k, t)
    && TrackAnswered(Reach(cfg, run[..i + 1]).log, t)
  }

  lemma GrantStepBacked(cfg: RelayConfig, run: seq<Stimulus>, x: Stimulus, k: RequestKey, a: nat)
    requires ConfigOk(cfg) && ValidRun(cfg, run + [x])
    requires Accepted(a) in Replies(Reach(cfg, run + [x]).log, k) && Accepted(a) !in Replies(Reach(cfg, run).log, k)
    ensures exists t :: Served(Reach(cfg, run + [x]).st, t, k, a) && AcceptedFor(cfg, run + [x], k, t)
                        && TrackAnswered(Reach(cfg, run + [x]).log, t)
  {
    SplitStep(cfg, run, x);
    Reachable(cfg, run);
    GrantStepServes(cfg, Reach(cfg, run), x, k, a);
    Reachable(cfg, run + [x]);
    var w := Reach(cfg, run + [x]);
    var t :| Served(w.st, t, k, a);
    RecordedWasAccepted(cfg, run + [x], k, t);
    var p :| p in w.st.tracks[t].ups && w.st.tracks[t].ups[p].state.Established?;
    assert HasLeg(w.st, t, p) && LegOf(w.st, t, p).state.Established?;
  }

  lemma BackedGrows(cfg: RelayConfig, pre: seq<Stimulus>, x: Stimulus, i: nat, k: RequestKey, a: nat, t: TrackKey)
    requires i < |pre| && BackedAt(cfg, pre, i, k, a, t)
    ensures BackedAt(cfg, pre + [x], i, k, a, t)
  {
    assert (pre + [x])[..i] == pre[..i] && (pre + [x])[..i + 1] == pre[..i + 1];
  }

  lemma BackedIs(cfg: RelayConfig, pre: seq<Stimulus>, run: seq<Stimulus>, k: RequestKey, a: nat, t: TrackKey)
    requires |run| == |pre| + 1 && run[..|pre|] == pre
    requires Accepted(a) in Replies(Reach(cfg, run).log, k) && Accepted(a) !in Replies(Reach(cfg, pre).log, k)
    requires Served(Reach(cfg, run).st, t, k, a) && AcceptedFor(cfg, run, k, t) && TrackAnswered(Reach(cfg, run).log, t)
    ensures BackedAt(cfg, run, |pre|, k, a, t)
  {
    assert run[..|pre| + 1] == run;
  }

  /** Every SUBSCRIBE_OK is sent so. */
  lemma {:induction false} GrantsAreBacked(cfg: RelayConfig, run: seq<Stimulus>, k: RequestKey, a: nat)
    requires ConfigOk(cfg) && ValidRun(cfg, run) && Accepted(a) in Replies(Reach(cfg, run).log, k)
    ensures exists i: nat, t :: i < |run| && BackedAt(cfg, run, i, k, a, t)
  {
    if run != [] {
      var pre, x := run[..|run|-1], run[|run|-1];
      assert run == pre + [x];
      if Accepted(a) in Replies(Reach(cfg, pre).log, k) {
        GrantsAreBacked(cfg, pre, k, a);
        var i: nat, t :| i < |pre| && BackedAt(cfg, pre, i, k, a, t);
        BackedGrows(cfg, pre, x, i, k, a, t);
      } else {
        GrantStepBacked(cfg, pre, x, k, a);
        var t :| Served(Reach(cfg, run).st, t, k, a) && AcceptedFor(cfg, run, k, t)
            && TrackAnswered(Reach(cfg, run).log, t);
        BackedIs(cfg, pre, run, k, a, t);
      }
    }
  }
}
