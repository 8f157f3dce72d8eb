/** Upstream correlation: which leg a publisher's reply reaches. */
module RelayRouting {
  import opened MoqTypes
  import opened RelayState
  import opened RelayLog
  import opened RelayActs
  import opened RelayPlan
  import opened RelayInv
  import opened RelayTrace
  import opened RelayLegal
  import opened RelayRuns
  import opened RelayTheorems

  predicate LiveLeg(st: State, t: TrackKey, p: SessionKey) {
    HasLeg(st, t, p) && Live(LegOf(st, t, p).state)
  }

  /** The request index sends replies from s about id r to track t. */
  predicate Indexed(st: State, s: SessionKey, r: nat, t: TrackKey) {
    RequestKey(s, r) in st.upIndex && st.upIndex[RequestKey(s, r)] == t
  }

  /** A live leg is indexed under its own id, was asked for under that id, and shares it with no other leg. */
  lemma UpstreamCorrelation(cfg: RelayConfig, run: seq<Stimulus>, t: TrackKey, p: SessionKey)
    requires ConfigOk(cfg) && ValidRun(cfg, run) && LiveLeg(Reach(cfg, run).st, t, p)
    ensures var st := Reach(cfg, run).st;
            var r := LegOf(st, t, p).requestId;
            && Indexed(st, p, r, t)
            && p in st.sessions && r < st.sessions[p].localNext
            && LegMsgs(Reach(cfg, run).log, RequestKey(p, r)) == [Asked(t)]
            && (forall u :: HasLeg(st, u, p) && LegOf(st, u, p).requestId == r ==> u == t)
  {
    Reachable(cfg, run);
    var w := Reach(cfg, run);
    var x := RequestKey(p, LegOf(w.st, t, p).requestId);
    assert LegIsOk(w.st, t, p);
    assert LegMsgsFit(w, x, LegMsgs(w.log, x));
    assert LiveLegAt(w.st, t, x);
  }

  /** Everyone recorded anywhere is open and set up. */
  lemma RecordedAreSetUp(cfg: RelayConfig, run: seq<Stimulus>, s: SessionKey)
    requires ConfigOk(cfg) && ValidRun(cfg, run)
    requires var st := Reach(cfg, run).st;
             || (exists ns :: s in PublishersOf(st, ns))
             || (exists t :: HasLeg(st, t, s))
             || (exists t, id :: HasSub(st, t, RequestKey(s, id)))
    ensures s in Reach(cfg, run).st.sessions && Reach(cfg, run).st.sessions[s].setupDone
  {
    Reachable(cfg, run);
    var st := Reach(cfg, run).st;
    if ns :| s in PublishersOf(st, ns) {
      PublisherIsSetUp(st, s, ns);
    } else if t :| HasLeg(st, t, s) {
      LegIsSetUp(st, s, t);
    } else {
      var t, id :| HasSub(st, t, RequestKey(s, id));
      SubscriberIsSetUp(st, t, RequestKey(s, id));
    }
  }

  lemma PublisherIsSetUp(st: State, s: SessionKey, ns: Namespace)
    requires StateInv(st) && s in PublishersOf(st, ns)
    ensures s in st.sessions && st.sessions[s].setupDone
  {
    assert SessionOk(st.sessions[s]);
  }

  lemma LegIsSetUp(st: State, s: SessionKey, t: TrackKey)
    requires StateInv(st) && HasLeg(st, t, s)
    ensures s in st.sessions && st.sessions[s].setupDone
  {
    assert LegIsOk(st, t, s);
  }

  lemma SubscriberIsSetUp(st: State, t: TrackKey, k: RequestKey)
    requires StateInv(st) && HasSub(st, t, k)
    ensures k.session in st.sessions && st.sessions[k.session].setupDone
  {
    assert SubOk(st, t, k);
  }

  // ---- Acts that pass a leg by ----

  predicate PassesBy(a: Act, t: TrackKey, p: SessionKey) {
    && !((a.LegOk? || a.EndLeg? || a.Unsub?) && a.t == t && a.p == p)
    && !(a.Forget? && a.s == p)
  }

  function Passing(t: TrackKey, p: SessionKey): Act -> bool { (a: Act) => PassesBy(a, t, p) }

  lemma PassedLeg(w: World, act: Act, t: TrackKey, p: SessionKey)
    requires Enabled(w, act) && PassesBy(act, t, p) && LiveLeg(w.st, t, p)
    ensures HasLeg(Apply(w.st, act), t, p) && LegOf(Apply(w.st, act), t, p) == LegOf(w.st, t, p)
  {
  }

  lemma {:induction false} PassedRun(w: World, acts: seq<Act>, t: TrackKey, p: SessionKey)
    requires Legal(w, acts) && Only(acts, Passing(t, p)) && LiveLeg(w.st, t, p)
    ensures HasLeg(Exec(w, acts).st, t, p) && LegOf(Exec(w, acts).st, t, p) == LegOf(w.st, t, p)
  {
    if acts != [] {
      var n := |acts| - 1;
      PassedRun(w, acts[..n], t, p);
      assert Passing(t, p)(acts[n]);
      PassedLeg(Exec(w, acts[..n]), acts[n], t, p);
    }
  }

  /** Acts that bring no leg to life. */
  function Reviving(): Act -> bool { (a: Act) => !a.OpenLeg? }

  lemma {:induction false} StaysDown(w: World, acts: seq<Act>, t: TrackKey, p: SessionKey)
    requires Legal(w, acts) && Only(acts, Reviving()) && !LiveLeg(w.st, t, p)
    ensures !LiveLeg(Exec(w, acts).st, t, p)
  {
    if acts != [] {
      var n := |acts| - 1;
      StaysDown(w, acts[..n], t, p);
      assert Reviving()(acts[n]);
      StaysDownAct(Exec(w, acts[..n]), acts[n], t, p);
    }
  }

  lemma StaysDownAct(w: World, act: Act, t: TrackKey, p: SessionKey)
    requires Enabled(w, act) && !act.OpenLeg? && !LiveLeg(w.st, t, p)
    ensures !LiveLeg(Apply(w.st, act), t, p)
  {
  }

  // ---- REQUEST_ERROR and PUBLISH_DONE ----

  predicate EndsId(m: ControlMessage, r: nat) {
    (m.RequestError? || m.PublishDone?) && m.requestId == r
  }

  /** After the leg named by the index has ended, the other acts only end subscriptions and drop the route. */
  lemma EndingTail(cfg: RelayConfig, w: World, s: SessionKey, r: nat, ch: Channel, m: ControlMessage, c: Choice,
                   p: Act -> bool)
    requires s in w.st.sessions && w.st.sessions[s].setupDone && EndsId(m, r)
    requires RequestKey(s, r) in w.st.upIndex && w.st.upIndex[RequestKey(s, r)] in w.st.tracks
    requires forall a: Act :: p(a) || !(a.End? || a.Drop?)
    ensures var acts := Plan(cfg, w, Control(s, ch, m), c);
            acts != [] && acts[0] == EndLeg(s, r, w.st.upIndex[RequestKey(s, r)]) && Only(acts[1..], p)
  {
    var t := w.st.upIndex[RequestKey(s, r)];
    if m.RequestError? {
      OnlyEnds(c.subs, t, Refused(m.errorCode, m.retryInterval, m.errorReason), p);
    } else {
      OnlyEnds(c.subs, t, Completed(m.statusCode, m.streamCount, m.errorReason), p);
      OnlyEnds(c.late, t, GONE, p);
    }
  }

  lemma EndingHits(cfg: RelayConfig, w: World, s: SessionKey, r: nat, ch: Channel, m: ControlMessage, c: Choice,
                   t: TrackKey, p: SessionKey)
    requires ConfigOk(cfg) && Inv(w) && s in w.st.sessions && w.st.sessions[s].setupDone && EndsId(m, r)
    requires RequestKey(s, r) in w.st.upIndex && w.st.upIndex[RequestKey(s, r)] in w.st.tracks
    requires Legal(w, Plan(cfg, w, Control(s, ch, m), c))
    requires LiveLeg(w.st, t, p)
    ensures var st' := Exec(w, Plan(cfg, w, Control(s, ch, m), c)).st;
            if p == s && w.st.upIndex[RequestKey(s, r)] == t then !LiveLeg(st', t, p)
            else HasLeg(st', t, p) && LegOf(st', t, p) == LegOf(w.st, t, p)
  {
    var acts := Plan(cfg, w, Control(s, ch, m), c);
    var hit := w.st.upIndex[RequestKey(s, r)];
    if p == s && hit == t {
      EndingTail(cfg, w, s, r, ch, m, c, Reviving());
      EndedStaysDown(w, acts, s, r, t);
    } else {
      EndingTail(cfg, w, s, r, ch, m, c, Passing(t, p));
      EndLegAct(w.st, s, r, hit, t, p);
      FirstThenPass(w, acts, t, p);
    }
  }

  lemma EndLegAct(st: State, s: SessionKey, r: nat, hit: TrackKey, t: TrackKey, p: SessionKey)
    requires LiveLeg(st, t, p) && (p != s || hit != t)
    ensures HasLeg(Apply(st, EndLeg(s, r, hit)), t, p)
    ensures LegOf(Apply(st, EndLeg(s, r, hit)), t, p) == LegOf(st, t, p)
  {
  }

  lemma EndedStaysDown(w: World, acts: seq<Act>, s: SessionKey, r: nat, t: TrackKey)
    requires Legal(w, acts) && acts != [] && acts[0] == EndLeg(s, r, t) && Only(acts[1..], Reviving())
    ensures !LiveLeg(Exec(w, acts).st, t, s)
  {
    assert acts == [acts[0]] + acts[1..];
    ExecAppend(w, [acts[0]], acts[1..]);
    SingleAct(w, acts[0]);
    StaysDown(ApplyWorld(w, acts[0]), acts[1..], t, s);
  }

  lemma FirstThenPass(w: World, acts: seq<Act>, t: TrackKey, p: SessionKey)
    requires Legal(w, acts) && acts != [] && Only(acts[1..], Passing(t, p))
    requires LiveLeg(w.st, t, p) && LiveLeg(Apply(w.st, acts[0]), t, p)
    ensures HasLeg(Exec(w, acts).st, t, p) && LegOf(Exec(w, acts).st, t, p) == LegOf(Apply(w.st, acts[0]), t, p)
  {
    assert acts == [acts[0]] + acts[1..];
    ExecAppend(w, [acts[0]], acts[1..]);
    SingleAct(w, acts[0]);
    PassedRun(ApplyWorld(w, acts[0]), acts[1..], t, p);
  }

  /** REQUEST_ERROR and PUBLISH_DONE end exactly the leg the index names; every other live leg is untouched. */
  lemma EndReachesExactly(cfg: RelayConfig, run: seq<Stimulus>, y: Stimulus, s: SessionKey, ch: Channel, r: nat,
                          t: TrackKey, p: SessionKey)
    requires ConfigOk(cfg) && ValidRun(cfg, run + [y])
    requires y.event.Control? && y.event == Control(s, ch, y.event.message) && EndsId(y.event.message, r)
    requires LiveLeg(Reach(cfg, run).st, t, p)
    ensures var st, st' := Reach(cfg, run).st, Reach(cfg, run + [y]).st;
            if p == s && Indexed(st, s, r, t) then !LiveLeg(st', t, p)
            else HasLeg(st', t, p) && LegOf(st', t, p) == LegOf(st, t, p)
  {
    SplitStep(cfg, run, y);
    Reachable(cfg, run);
    var w := Reach(cfg, run);
    var w1 := Receive(w, y.event);
    ReceiveKeeps(w, y.event);
    PlanLegal(cfg, w, y);
    assert LegIsOk(w.st, t, p);
    if s in w.st.sessions && w.st.sessions[s].setupDone && RequestKey(s, r) in w.st.upIndex
       && w.st.upIndex[RequestKey(s, r)] in w.st.tracks
    {
      EndingHits(cfg, w1, s, r, ch, y.event.message, y.choice, t, p);
    } else {
      EndingMisses(cfg, w1, s, r, ch, y.event.message, y.choice);
    }
  }

  lemma EndingMisses(cfg: RelayConfig, w: World, s: SessionKey, r: nat, ch: Channel, m: ControlMessage, c: Choice)
    requires EndsId(m, r)
    requires !(s in w.st.sessions && w.st.sessions[s].setupDone && RequestKey(s, r) in w.st.upIndex
               && w.st.upIndex[RequestKey(s, r)] in w.st.tracks)
    ensures Exec(w, Plan(cfg, w, Control(s, ch, m), c)).st == w.st
  {
    MissPlan(cfg, w, s, r, ch, m, c);
    SingleAct(w, Say(Close(s, ProtocolViolation)));
  }

  lemma MissPlan(cfg: RelayConfig, w: World, s: SessionKey, r: nat, ch: Channel, m: ControlMessage, c: Choice)
    requires EndsId(m, r)
    requires !(s in w.st.sessions && w.st.sessions[s].setupDone && RequestKey(s, r) in w.st.upIndex
               && w.st.upIndex[RequestKey(s, r)] in w.st.tracks)
    ensures var acts := Plan(cfg, w, Control(s, ch, m), c); acts == [] || acts == [Say(Close(s, ProtocolViolation))]
  {
  }

  /** The reply with a leg's own id ends that leg and no other. */
  lemma ReplyReachesItsLeg(cfg: RelayConfig, run: seq<Stimulus>, y: Stimulus, s: SessionKey, ch: Channel, t: TrackKey,
                           u: TrackKey, p: SessionKey)
    requires ConfigOk(cfg) && ValidRun(cfg, run + [y])
    requires LiveLeg(Reach(cfg, run).st, t, s) && LiveLeg(Reach(cfg, run).st, u, p)
    requires y.event.Control? && y.event == Control(s, ch, y.event.message)
    requires EndsId(y.event.message, LegOf(Reach(cfg, run).st, t, s).requestId)
    ensures var st, st' := Reach(cfg, run).st, Reach(cfg, run + [y]).st;
            if (u, p) == (t, s) then !LiveLeg(st', u, p)
            else HasLeg(st', u, p) && LegOf(st', u, p) == LegOf(st, u, p)
  {
    SplitStep(cfg, run, y);
    var r := LegOf(Reach(cfg, run).st, t, s).requestId;
    UpstreamCorrelation(cfg, run, t, s);
    EndReachesExactly(cfg, run, y, s, ch, r, u, p);
  }

  /** An index entry outlived the leg it was made for, and its publisher has a newer leg on the track. */
  predicate Stale(st: State, s: SessionKey, r: nat) {
    RequestKey(s, r) in st.upIndex && LiveLeg(st, st.upIndex[RequestKey(s, r)], s)
    && LegOf(st, st.upIndex[RequestKey(s, r)], s).requestId != r
  }

  /** A reply ends a leg that does not carry its id exactly when the index entry is stale. */
  lemma WrongLegIffStale(cfg: RelayConfig, run: seq<Stimulus>, y: Stimulus, s: SessionKey, ch: Channel, r: nat)
    requires ConfigOk(cfg) && ValidRun(cfg, run + [y])
    requires y.event.Control? && y.event == Control(s, ch, y.event.message) && EndsId(y.event.message, r)
    ensures var st, st' := Reach(cfg, run).st, Reach(cfg, run + [y]).st;
            (exists t, p :: LiveLeg(st, t, p) && (p != s || LegOf(st, t, p).requestId != r) && !LiveLeg(st', t, p))
            <==> Stale(st, s, r)
  {
    var st, st' := Reach(cfg, run).st, Reach(cfg, run + [y]).st;
    forall t, p | LiveLeg(st, t, p)
      ensures !LiveLeg(st', t, p) <==> p == s && Indexed(st, s, r, t)
    {
      EndReachesExactly(cfg, run, y, s, ch, r, t, p);
    }
  }

  /** x's session ends the leg itself: by closing, or by ending a request the index resolves to this track. */
  predicate EndsItsLeg(st: State, ev: Event, t: TrackKey, x: RequestKey) {
    || ev == SessionClosed(x.session)
    || (ev.Control? && ev.session == x.session && (ev.message.RequestError? || ev.message.PublishDone?)
        && Indexed(st, x.session, ev.message.requestId, t))
  }

  /** A live leg never ends unnoticed: it is unsubscribed in that step, or its publisher ended just this leg. */
  lemma NoSilentLegEnd(cfg: RelayConfig, run: seq<Stimulus>, y: Stimulus, t: TrackKey, x: RequestKey)
    requires ConfigOk(cfg) && ValidRun(cfg, run + [y])
    requires LiveLegAt(Reach(cfg, run).st, t, x) && !LiveLegAt(Reach(cfg, run + [y]).st, t, x)
    ensures LegMsgs(Reach(cfg, run + [y]).log, x) == [Asked(t), Withdrew]
            || EndsItsLeg(Reach(cfg, run).st, y.event, t, x)
  {
    LegEndHasCause(cfg, run, y, t, x);
    if EndsBehind(y.event, x.session) && y.event != SessionClosed(x.session) {
      EndReachesExactly(cfg, run, y, x.session, y.event.channel, y.event.message.requestId, t, x.session);
    }
  }

  // ---- SUBSCRIBE_OK ----

  lemma OkTail(cfg: RelayConfig, w: World, s: SessionKey, ch: Channel, m: ControlMessage, c: Choice, p: Act -> bool)
    requires m.SubscribeOk? && s in w.st.sessions && w.st.sessions[s].setupDone
    requires RequestKey(s, m.requestId) in w.st.upIndex
    requires HasLeg(w.st, w.st.upIndex[RequestKey(s, m.requestId)], s)
    requires LegOf(w.st, w.st.upIndex[RequestKey(s, m.requestId)], s).state.Pending?
    requires forall a: Act :: p(a) || !(a.Bind? || a.Grant? || a.SetExtensions? || a.Say?)
    ensures var acts := Plan(cfg, w, Control(s, ch, m), c);
            acts != [] && acts[0] == LegOk(s, w.st.upIndex[RequestKey(s, m.requestId)], m.trackAlias)
            && Only(acts[1..], p)
  {
    OnlyGrants(c.subs, w.st.upIndex[RequestKey(s, m.requestId)], m.trackExtensions, p);
  }

  predicate Awaited(st: State, s: SessionKey, r: nat, t: TrackKey) {
    Indexed(st, s, r, t) && HasLeg(st, t, s) && LegOf(st, t, s).state.Pending?
  }

  /** SUBSCRIBE_OK establishes exactly the awaited leg, and touches no other live leg. */
  lemma OkReachesExactly(cfg: RelayConfig, run: seq<Stimulus>, y: Stimulus, s: SessionKey, ch: Channel,
                         t: TrackKey, p: SessionKey)
    requires ConfigOk(cfg) && ValidRun(cfg, run + [y])
    requires y.event.Control? && y.event == Control(s, ch, y.event.message) && y.event.message.SubscribeOk?
    requires LiveLeg(Reach(cfg, run).st, t, p)
    ensures var st, st' := Reach(cfg, run).st, Reach(cfg, run + [y]).st;
            var m := y.event.message;
            && HasLeg(st', t, p)
            && LegOf(st', t, p) == if p == s && Awaited(st, s, m.requestId, t)
                                   then LegOf(st, t, p).(state := Established, inboundAlias := Some(m.trackAlias),
                                                         forwardCurrent := true)
                                   else LegOf(st, t, p)
  {
    SplitStep(cfg, run, y);
    Reachable(cfg, run);
    var w := Reach(cfg, run);
    var w1 := Receive(w, y.event);
    ReceiveKeeps(w, y.event);
    PlanLegal(cfg, w, y);
    assert LegIsOk(w.st, t, p);
    OkHitsOrMisses(cfg, w1, s, ch, y.event.message, y.choice, t, p);
  }

  lemma OkHitsOrMisses(cfg: RelayConfig, w: World, s: SessionKey, ch: Channel, m: ControlMessage, c: Choice,
                       t: TrackKey, p: SessionKey)
    requires Inv(w) && m.SubscribeOk? && Legal(w, Plan(cfg, w, Control(s, ch, m), c)) && LiveLeg(w.st, t, p)
    ensures var st' := Exec(w, Plan(cfg, w, Control(s, ch, m), c)).st;
            && HasLeg(st', t, p)
            && LegOf(st', t, p) == if p == s && Awaited(w.st, s, m.requestId, t)
                                   then Answered(LegOf(w.st, t, p), m.trackAlias)
                                   else LegOf(w.st, t, p)
  {
    var x := RequestKey(s, m.requestId);
    if x in w.st.upIndex && Awaited(w.st, s, m.requestId, w.st.upIndex[x]) {
      OkHits(cfg, w, s, ch, m, c, t, p);
    } else {
      OkMissPlan(cfg, w, s, ch, m, c);
      SingleAct(w, Say(Close(s, ProtocolViolation)));
    }
  }

  lemma OkMissPlan(cfg: RelayConfig, w: World, s: SessionKey, ch: Channel, m: ControlMessage, c: Choice)
    requires m.SubscribeOk?
    requires RequestKey(s, m.requestId) in w.st.upIndex ==>
               !Awaited(w.st, s, m.requestId, w.st.upIndex[RequestKey(s, m.requestId)])
    ensures Plan(cfg, w, Control(s, ch, m), c) == [Say(Close(s, ProtocolViolation))]
  {
  }

  lemma OkHits(cfg: RelayConfig, w: World, s: SessionKey, ch: Channel, m: ControlMessage, c: Choice,
               t: TrackKey, p: SessionKey)
    requires Inv(w) && m.SubscribeOk? && Legal(w, Plan(cfg, w, Control(s, ch, m), c)) && LiveLeg(w.st, t, p)
    requires RequestKey(s, m.requestId) in w.st.upIndex
    requires Awaited(w.st, s, m.requestId, w.st.upIndex[RequestKey(s, m.requestId)])
    ensures var st' := Exec(w, Plan(cfg, w, Control(s, ch, m), c)).st;
            && HasLeg(st', t, p)
            && LegOf(st', t, p) == if p == s && w.st.upIndex[RequestKey(s, m.requestId)] == t
                                   then Answered(LegOf(w.st, t, p), m.trackAlias)
                                   else LegOf(w.st, t, p)
  {
    var hit := w.st.upIndex[RequestKey(s, m.requestId)];
    var acts := Plan(cfg, w, Control(s, ch, m), c);
    LegIsSetUp(w.st, s, hit);
    OkTail(cfg, w, s, ch, m, c, Passing(t, p));
    FirstEnabled(w, acts);
    OkAct(w, s, hit, m.trackAlias, t, p);
    FirstThenPass(w, acts, t, p);
  }

  lemma FirstEnabled(w: World, acts: seq<Act>)
    requires Legal(w, acts) && acts != []
    ensures Enabled(w, acts[0])
  {
    assert acts == [acts[0]] + acts[1..];
    ExecAppend(w, [acts[0]], acts[1..]);
    SingleAct(w, acts[0]);
  }

  lemma OkAct(w: World, s: SessionKey, hit: TrackKey, alias: nat, t: TrackKey, p: SessionKey)
    requires Enabled(w, LegOk(s, hit, alias)) && LiveLeg(w.st, t, p)
    ensures var st' := Apply(w.st, LegOk(s, hit, alias));
            && LiveLeg(st', t, p)
            && LegOf(st', t, p) == if p == s && hit == t
                                   then Answered(LegOf(w.st, t, p), alias)
                                   else LegOf(w.st, t, p)
  {
  }

  /** SUBSCRIBE_OK establishes a leg that does not carry its id exactly when the index entry is stale and the
      newer leg is still Pending. */
  lemma WrongLegAcceptedIff(cfg: RelayConfig, run: seq<Stimulus>, y: Stimulus, s: SessionKey, ch: Channel)
    requires ConfigOk(cfg) && ValidRun(cfg, run + [y])
    requires y.event.Control? && y.event == Control(s, ch, y.event.message) && y.event.message.SubscribeOk?
    ensures var st, st' := Reach(cfg, run).st, Reach(cfg, run + [y]).st;
            var r := y.event.message.requestId;
            (exists t, p :: LiveLeg(st, t, p) && (p != s || LegOf(st, t, p).requestId != r)
                            && LegOf(st, t, p).state.Pending?
                            && !(HasLeg(st', t, p) && LegOf(st', t, p).state.Pending?))
            <==> Stale(st, s, r) && LegOf(st, st.upIndex[RequestKey(s, r)], s).state.Pending?
  {
    var st, st' := Reach(cfg, run).st, Reach(cfg, run + [y]).st;
    var r := y.event.message.requestId;
    forall t, p | LiveLeg(st, t, p)
      ensures HasLeg(st', t, p)
      ensures LegOf(st, t, p).state.Pending? && !LegOf(st', t, p).state.Pending? <==> p == s && Awaited(st, s, r, t)
    {
      OkReachesExactly(cfg, run, y, s, ch, t, p);
    }
    if Stale(st, s, r) && LegOf(st, st.upIndex[RequestKey(s, r)], s).state.Pending? {
      assert LiveLeg(st, st.upIndex[RequestKey(s, r)], s) && Awaited(st, s, r, st.upIndex[RequestKey(s, r)]);
    }
  }
}
