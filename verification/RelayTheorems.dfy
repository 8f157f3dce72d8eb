/** What the relay promises over whole runs, in terms of what it receives and sends. */
module RelayTheorems {
  import opened MoqTypes
  import opened RelayState
  import opened RelayLog
  import opened RelayActs
  import opened RelayPlan
  import opened RelayInv
  import opened RelayTrace
  import opened RelayLegal
  import opened RelayRuns
  import opened RelayFinality

  // ---- Subscriptions ----

  /** The replies to one request are SUBSCRIBE_OK then PUBLISH_DONE, or one REQUEST_ERROR, or a prefix. */
  lemma SubscriptionGrammar(cfg: RelayConfig, run: seq<Stimulus>, k: RequestKey)
    requires ConfigOk(cfg) && ValidRun(cfg, run)
    ensures ReplyGrammar(Replies(Reach(cfg, run).log, k))
  {
    Reachable(cfg, run);
    assert RepliesFit(Reach(cfg, run), k, Replies(Reach(cfg, run).log, k));
  }

  /** After an accepted UNSUBSCRIBE the subscriber hears nothing more about the request. */
  lemma NothingAfterUnsubscribe(cfg: RelayConfig, pre: seq<Stimulus>, x: Stimulus, post: seq<Stimulus>, ch: Channel,
                                k: RequestKey)
    requires ConfigOk(cfg) && ValidRun(cfg, pre + [x] + post)
    requires x.event == Control(k.session, ch, Unsubscribe(k.id))
    requires !Refuses(Reach(cfg, pre), Reach(cfg, pre + [x]))
    ensures Replies(Reach(cfg, pre + [x] + post).log, k) == Replies(Reach(cfg, pre).log, k)
  {
    SplitRun(cfg, pre + [x], post);
    SplitStep(cfg, pre, x);
    Reachable(cfg, pre);
    Reachable(cfg, pre + [x]);
    var w := Reach(cfg, pre);
    if k in w.st.downIndex {
      UnsubscribeAccepted(cfg, w, x, ch, k);
      DeadForever(cfg, Reach(cfg, pre + [x]), post, k);
    } else {
      UnsubscribeOfDead(cfg, w, x, ch, k);
    }
  }

  lemma {:induction false} LogPrefix(w: World, acts: seq<Act>)
    ensures w.log <= Exec(w, acts).log
  {
    if acts != [] {
      LogPrefix(w, acts[..|acts|-1]);
    }
  }

  lemma SplitStep(cfg: RelayConfig, pre: seq<Stimulus>, x: Stimulus)
    ensures Reach(cfg, pre + [x]) == Step(cfg, Reach(cfg, pre), x)
    ensures ValidRun(cfg, pre + [x]) <==> ValidRun(cfg, pre) && Admissible(Reach(cfg, pre), x)
  {
    assert (pre + [x])[..|pre|] == pre;
  }

  /** UNSUBSCRIBE never misses a live subscription and is refused for every other id. */
  lemma UnsubscribeExact(cfg: RelayConfig, run: seq<Stimulus>, x: Stimulus, ch: Channel, k: RequestKey)
    requires ConfigOk(cfg) && ValidRun(cfg, run + [x]) && x.event == Control(k.session, ch, Unsubscribe(k.id))
    ensures var w := Reach(cfg, run);
            Refuses(w, Reach(cfg, run + [x])) <==> !exists t :: HasSub(w.st, t, k) && Live(Sub(w.st, t, k).state)
  {
    SplitStep(cfg, run, x);
    Reachable(cfg, run);
    var w := Reach(cfg, run);
    IndexedIffLive(w, k);
    if k in w.st.downIndex {
      UnsubscribeAccepted(cfg, w, x, ch, k);
    } else {
      UnsubscribeOfDead(cfg, w, x, ch, k);
    }
  }

  /** The downstream index is exactly the map from live subscriptions to their tracks. */
  lemma DownstreamIndexExact(cfg: RelayConfig, run: seq<Stimulus>, k: RequestKey, t: TrackKey)
    requires ConfigOk(cfg) && ValidRun(cfg, run)
    ensures var st := Reach(cfg, run).st;
            (k in st.downIndex && st.downIndex[k] == t) <==> (HasSub(st, t, k) && Live(Sub(st, t, k).state))
  {
    Reachable(cfg, run);
    var st := Reach(cfg, run).st;
    if k in st.downIndex {
      assert HasSub(st, st.downIndex[k], k);
    }
    if HasSub(st, t, k) {
      assert SubOk(st, t, k);
    }
  }

  // ---- Nothing ends silently ----

  /** Acts that do not end subscription k without telling its session. */
  function Telling(k: RequestKey): Act -> bool {
    (a: Act) => !(a.End? && a.k == k && a.verdict.Withdrawn?) && !(a.Forget? && a.s == k.session)
  }

  lemma IndexLost(st: State, act: Act, k: RequestKey)
    requires k in st.downIndex && k !in Apply(st, act).downIndex
    ensures (act.End? && act.k == k) || (act.Forget? && act.s == k.session)
  {
  }

  lemma {:induction false} EndsAreTold(w: World, acts: seq<Act>, k: RequestKey)
    requires Inv(w) && Legal(w, acts) && k in w.st.downIndex && Only(acts, Telling(k))
    ensures |Replies(Exec(w, acts).log, k)| >= |Replies(w.log, k)|
    ensures k !in Exec(w, acts).st.downIndex ==> |Replies(Exec(w, acts).log, k)| > |Replies(w.log, k)|
  {
    if acts != [] {
      var n := |acts| - 1;
      EndsAreTold(w, acts[..n], k);
      assert Telling(k)(acts[n]);
      EndIsTold(Exec(w, acts[..n]), acts[n], k);
    }
  }

  /** A subscription that leaves the index hears one reply more. */
  lemma EndIsTold(w: World, act: Act, k: RequestKey)
    requires Enabled(w, act) && Telling(k)(act)
    ensures |Replies(ApplyWorld(w, act).log, k)| >= |Replies(w.log, k)|
    ensures k in w.st.downIndex && k !in Apply(w.st, act).downIndex ==>
              |Replies(ApplyWorld(w, act).log, k)| > |Replies(w.log, k)|
  {
    RepliesGrow(w, act, k);
    if k in w.st.downIndex && k !in Apply(w.st, act).downIndex {
      IndexLost(w.st, act, k);
    }
  }

  /** p may fail only of acts that end a leg, withdraw a subscription, or clear a closed session away. */
  ghost predicate FailsOnlyOnEnds(p: Act -> bool) {
    && (forall a: Act :: p(a) || a.End? || a.EndLeg? || a.Forget? || a.Depart?)
    && (forall k, t, ch, v :: p(End(k, t, ch, v)) || v.Withdrawn?)
  }

  ghost predicate HoldsOfEndings(p: Act -> bool) {
    && (forall a: Act :: p(a) || !(a.Say? || a.Drop? || a.Unsub?))
    && (forall k, t, ch, v :: p(End(k, t, ch, v)) || v.Withdrawn?)
  }

  lemma RequestErrorOnly(w: World, s: SessionKey, r: nat, v: Verdict, c: Choice, p: Act -> bool)
    requires s in w.st.sessions && v.Refused? && HoldsOfEndings(p) && forall t :: p(EndLeg(s, r, t))
    ensures Only(RequestErrorPlan(w, s, r, v, c), p)
  {
    if RequestKey(s, r) in w.st.upIndex {
      OnlyEnds(c.subs, w.st.upIndex[RequestKey(s, r)], v, p);
    }
  }

  lemma PublishDoneOnly(w: World, s: SessionKey, r: nat, v: Verdict, c: Choice, p: Act -> bool)
    requires s in w.st.sessions && v.Completed? && HoldsOfEndings(p) && forall t :: p(EndLeg(s, r, t))
    ensures Only(PublishDonePlan(w, s, r, v, c), p)
  {
    if RequestKey(s, r) in w.st.upIndex {
      OnlyEnds(c.subs, w.st.upIndex[RequestKey(s, r)], v, p);
      OnlyEnds(c.late, w.st.upIndex[RequestKey(s, r)], GONE, p);
    }
  }

  lemma UnsubscribeOnly(w: World, s: SessionKey, id: nat, c: Choice, p: Act -> bool)
    requires s in w.st.sessions && HoldsOfEndings(p)
    requires forall t, ch :: p(End(RequestKey(s, id), t, ch, Withdrawn))
    ensures Only(UnsubscribePlan(w, s, id, c), p)
  {
    if RequestKey(s, id) in w.st.downIndex {
      OnlyUnsubs(c.peers, w.st.downIndex[RequestKey(s, id)], false, p);
    }
  }

  lemma SubscribeOkOnly(w: World, s: SessionKey, r: nat, alias: nat, exts: Extensions, c: Choice, p: Act -> bool)
    requires s in w.st.sessions && FailsOnlyOnEnds(p)
    ensures Only(SubscribeOkPlan(w, s, r, alias, exts, c), p)
  {
    if RequestKey(s, r) in w.st.upIndex {
      OnlyGrants(c.subs, w.st.upIndex[RequestKey(s, r)], exts, p);
    }
  }

  /** A property of acts that fails only on ends holds of every act of a message that ends nothing of the kind. */
  lemma ControlOnly(cfg: RelayConfig, w: World, s: SessionKey, ch: Channel, m: ControlMessage, c: Choice,
                    p: Act -> bool)
    requires FailsOnlyOnEnds(p)
    requires m.Unsubscribe? ==> forall t, ch :: p(End(RequestKey(s, m.requestId), t, ch, Withdrawn))
    requires m.RequestError? || m.PublishDone? ==> forall t :: p(EndLeg(s, m.requestId, t))
    ensures Only(ControlPlan(cfg, w, s, ch, m, c), p)
  {
    if s in w.st.sessions {
      if m.PublishNamespace? {
        OnlyOffers(c.tracks, s, m.trackNamespace, p);
      } else if m.Subscribe? {
        OnlyOpenLegs(c.peers, TrackKey(m.trackNamespace, m.trackName), p);
      } else if m.SubscribeOk? {
        SubscribeOkOnly(w, s, m.requestId, m.trackAlias, m.trackExtensions, c, p);
      } else if m.RequestError? {
        RequestErrorOnly(w, s, m.requestId, Refused(m.errorCode, m.retryInterval, m.errorReason), c, p);
      } else if m.PublishDone? {
        PublishDoneOnly(w, s, m.requestId, Completed(m.statusCode, m.streamCount, m.errorReason), c, p);
      } else if m.Unsubscribe? {
        UnsubscribeOnly(w, s, m.requestId, c, p);
      }
    }
  }

  lemma {:induction false} LeavingOnly(st: State, s: SessionKey, order: seq<TrackKey>,
                                       legs: map<TrackKey, seq<SessionKey>>, p: Act -> bool)
    requires FailsOnlyOnEnds(p) && forall t :: p(Forget(s, t))
    ensures Only(LeaveTracks(st, s, order, legs), p)
  {
    if order != [] {
      var n := |order| - 1;
      LeavingOnly(st, s, order[..n], legs, p);
      OnlyUnsubs(if order[n] in legs then legs[order[n]] else [], order[n], true, p);
    }
  }

  /** Only the subscriber's own UNSUBSCRIBE or the end of its session may end it silently. */
  lemma PlansTell(cfg: RelayConfig, w: World, x: Stimulus, k: RequestKey)
    requires !(x.event.SessionClosed? && x.event.session == k.session)
    requires !(x.event.Control? && x.event.session == k.session && x.event.message == Unsubscribe(k.id))
    ensures Only(Plan(cfg, w, x.event, x.choice), Telling(k))
  {
    var p := Telling(k);
    match x.event
    case SessionOpened(_, _) =>
    case SessionClosed(s) => LeavingOnly(w.st, s, x.choice.tracks, x.choice.legs, p);
    case Control(s, ch, m) => ControlOnly(cfg, w, s, ch, m, x.choice, p);
    case ObjectReceived(s, alias, body) =>
      if s in w.st.sessions && alias in w.st.sessions[s].inbound {
        OnlyForwards(x.choice.subs, w.st.sessions[s].inbound[alias], body, p);
      }
    case FetchObjectReceived(_) =>
  }

  /** A live subscription that ends in a step is told so in that step, unless its own session
      unsubscribed it or is gone. */
  lemma NoSilentEnd(cfg: RelayConfig, run: seq<Stimulus>, x: Stimulus, k: RequestKey)
    requires ConfigOk(cfg) && ValidRun(cfg, run + [x])
    requires k in Reach(cfg, run).st.downIndex && k !in Reach(cfg, run + [x]).st.downIndex
    ensures || |Replies(Reach(cfg, run + [x]).log, k)| > |Replies(Reach(cfg, run).log, k)|
            || x.event == SessionClosed(k.session)
            || (x.event.Control? && x.event.session == k.session && x.event.message == Unsubscribe(k.id))
  {
    SplitStep(cfg, run, x);
    Reachable(cfg, run);
    var w := Reach(cfg, run);
    if !x.event.SessionClosed? || x.event.session != k.session {
      if !(x.event.Control? && x.event.session == k.session && x.event.message == Unsubscribe(k.id)) {
        var w1 := Receive(w, x.event);
        ReceiveKeeps(w, x.event);
        ReceiveReplies(w, x.event, k);
        PlanLegal(cfg, w, x);
        PlansTell(cfg, w1, x, k);
        EndsAreTold(w1, Plan(cfg, w1, x.event, x.choice), k);
      }
    }
  }

  // ---- Upstream legs ----

  /** About one upstream id the relay sends SUBSCRIBE and then at most one UNSUBSCRIBE. */
  lemma UpstreamGrammar(cfg: RelayConfig, run: seq<Stimulus>, x: RequestKey)
    requires ConfigOk(cfg) && ValidRun(cfg, run)
    ensures LegGrammar(LegMsgs(Reach(cfg, run).log, x))
  {
    Reachable(cfg, run);
    assert LegMsgsFit(Reach(cfg, run), x, LegMsgs(Reach(cfg, run).log, x));
  }

  /** The publisher ends request r. */
  predicate EndsRequest(ev: Event, x: RequestKey) {
    && ev.Control? && ev.session == x.session
    && (ev.message.RequestError? || ev.message.PublishDone?) && ev.message.requestId == x.id
  }

  lemma EndLegKills(w: World, x: RequestKey, t: TrackKey, acts: seq<Act>)
    requires Inv(w) && acts != [] && acts[0] == EndLeg(x.session, x.id, t) && Legal(w, acts) && !Unissued(w, x)
    ensures DeadLeg(Exec(w, acts), x) && LegMsgs(Exec(w, acts).log, x) == LegMsgs(w.log, x)
  {
    assert acts == [acts[0]] + acts[1..];
    assert x == RequestKey(x.session, x.id);
    ExecAppend(w, [acts[0]], acts[1..]);
    SingleAct(w, acts[0]);
    InvKept(w, acts[0]);
    var w1 := ApplyWorld(w, acts[0]);
    EndedLegIsDead(w, x, t);
    LegMsgsGrow(w, acts[0], x);
    DeadLegRun(w1, acts[1..], x);
  }

  lemma EndedLegIsDead(w: World, x: RequestKey, t: TrackKey)
    requires Inv(w) && Enabled(w, EndLeg(x.session, x.id, t)) && !Unissued(w, x)
    ensures DeadLeg(ApplyWorld(w, EndLeg(x.session, x.id, t)), x)
  {
    var act := EndLeg(x.session, x.id, t);
    UnissuedShrinks(w, act, x);
    assert x == RequestKey(x.session, x.id);
    forall u ensures !LiveLegAt(Apply(w.st, act), u, x) {
      NewLiveLeg(w, act, u, x);
      assert HasLeg(w.st, u, x.session) ==> LegIsOk(w.st, u, x.session);
    }
  }

  lemma UnindexedIsDead(w: World, x: RequestKey)
    requires Inv(w) && !Unissued(w, x) && (x !in w.st.upIndex || w.st.upIndex[x] !in w.st.tracks)
    ensures DeadLeg(w, x)
  {
    assert x == RequestKey(x.session, x.id);
    forall t ensures !LiveLegAt(w.st, t, x) {
      assert HasLeg(w.st, t, x.session) ==> LegIsOk(w.st, t, x.session);
    }
  }

  lemma PublisherEndStep(cfg: RelayConfig, w: World, y: Stimulus, x: RequestKey)
    requires ConfigOk(cfg) && Inv(w) && TraceInv(w) && Admissible(w, y)
    requires EndsRequest(y.event, x) && LegMsgs(w.log, x) != []
    ensures DeadLeg(Step(cfg, w, y), x) && LegMsgs(Step(cfg, w, y).log, x) == LegMsgs(w.log, x)
  {
    var w1 := Receive(w, y.event);
    ReceiveKeeps(w, y.event);
    ReceiveLegMsgs(w, y.event, x);
    PlanLegal(cfg, w, y);
    assert LegMsgsFit(w, x, LegMsgs(w.log, x));
    var acts := Plan(cfg, w1, y.event, y.choice);
    assert x == RequestKey(x.session, x.id);
    if x.session in w.st.sessions && w.st.sessions[x.session].setupDone
       && x in w.st.upIndex && w.st.upIndex[x] in w.st.tracks
    {
      EndLegKills(w1, x, w.st.upIndex[x], acts);
    } else {
      if x.session !in w.st.sessions || !w.st.sessions[x.session].setupDone {
        forall t ensures !LiveLegAt(w.st, t, x) {
          assert HasLeg(w.st, t, x.session) ==> LegIsOk(w.st, t, x.session);
        }
      } else {
        UnindexedIsDead(w, x);
      }
      assert DeadLeg(w1, x);
      DeadLegRun(w1, acts, x);
    }
  }

  /** Once the publisher has ended an id by REQUEST_ERROR or PUBLISH_DONE the relay is silent about it:
      in particular it never unsubscribes it. */
  lemma NothingAfterPublisherEnds(cfg: RelayConfig, pre: seq<Stimulus>, y: Stimulus, post: seq<Stimulus>, x: RequestKey)
    requires ConfigOk(cfg) && ValidRun(cfg, pre + [y] + post)
    requires EndsRequest(y.event, x) && LegMsgs(Reach(cfg, pre).log, x) != []
    ensures LegMsgs(Reach(cfg, pre + [y] + post).log, x) == LegMsgs(Reach(cfg, pre).log, x)
  {
    SplitRun(cfg, pre + [y], post);
    SplitStep(cfg, pre, y);
    Reachable(cfg, pre);
    Reachable(cfg, pre + [y]);
    PublisherEndStep(cfg, Reach(cfg, pre), y, x);
    DeadLegForever(cfg, Reach(cfg, pre + [y]), post, x);
  }

  /** Acts that do not end a leg of x's session behind the publisher's back. */
  function Notifying(p: SessionKey): Act -> bool {
    (a: Act) => !(a.EndLeg? && a.p == p) && !(a.Forget? && a.s == p)
  }

  lemma LiveLegLost(w: World, act: Act, t: TrackKey, x: RequestKey)
    requires Inv(w) && Enabled(w, act) && LiveLegAt(w.st, t, x) && !LiveLegAt(Apply(w.st, act), t, x)
    ensures NewLegMsg(w.st, act, x) == [Withdrew] || (act.EndLeg? && act.p == x.session)
            || (act.Forget? && act.s == x.session)
  {
  }

  lemma {:induction false} LegEndsAreTold(w: World, acts: seq<Act>, t: TrackKey, x: RequestKey)
    requires Inv(w) && Legal(w, acts) && LiveLegAt(w.st, t, x) && Only(acts, Notifying(x.session))
    ensures LiveLegAt(Exec(w, acts).st, t, x) || Withdrew in LegMsgs(Exec(w, acts).log, x)
  {
    if acts != [] {
      var n := |acts| - 1;
      var w1 := Exec(w, acts[..n]);
      LegEndsAreTold(w, acts[..n], t, x);
      InvRun(w, acts[..n]);
      LegMsgsGrow(w1, acts[n], x);
      if LiveLegAt(w1.st, t, x) && !LiveLegAt(Apply(w1.st, acts[n]), t, x) {
        LiveLegLost(w1, acts[n], t, x);
        assert Notifying(x.session)(acts[n]);
      }
    }
  }

  /** A leg that ends is unsubscribed, or its publisher ended a request or is gone. */
  lemma LegEndHasCause(cfg: RelayConfig, run: seq<Stimulus>, y: Stimulus, t: TrackKey, x: RequestKey)
    requires ConfigOk(cfg) && ValidRun(cfg, run + [y])
    requires LiveLegAt(Reach(cfg, run).st, t, x) && !LiveLegAt(Reach(cfg, run + [y]).st, t, x)
    ensures LegMsgs(Reach(cfg, run + [y]).log, x) == [Asked(t), Withdrew] || EndsBehind(y.event, x.session)
  {
    SplitStep(cfg, run, y);
    Reachable(cfg, run);
    Reachable(cfg, run + [y]);
    var w := Reach(cfg, run);
    var w1 := Receive(w, y.event);
    ReceiveKeeps(w, y.event);
    ReceiveLegMsgs(w, y.event, x);
    PlanLegal(cfg, w, y);
    if !EndsBehind(y.event, x.session) {
      PlansNotify(cfg, w1, y, x.session);
      LegEndsAreTold(w1, Plan(cfg, w1, y.event, y.choice), t, x);
      LegHistory(w1, Plan(cfg, w1, y.event, y.choice), t, x);
    }
  }

  /** Events by which p itself ends a leg. */
  predicate EndsBehind(ev: Event, p: SessionKey) {
    || ev == SessionClosed(p)
    || (ev.Control? && ev.session == p && (ev.message.RequestError? || ev.message.PublishDone?))
  }

  lemma PlansNotify(cfg: RelayConfig, w: World, y: Stimulus, p: SessionKey)
    requires !EndsBehind(y.event, p)
    ensures Only(Plan(cfg, w, y.event, y.choice), Notifying(p))
  {
    match y.event
    case SessionOpened(_, _) =>
    case SessionClosed(s) => LeavingOnly(w.st, s, y.choice.tracks, y.choice.legs, Notifying(p));
    case Control(s, ch, m) => ControlOnly(cfg, w, s, ch, m, y.choice, Notifying(p));
    case ObjectReceived(s, alias, body) =>
      if s in w.st.sessions && alias in w.st.sessions[s].inbound {
        OnlyForwards(y.choice.subs, w.st.sessions[s].inbound[alias], body, Notifying(p));
      }
    case FetchObjectReceived(_) =>
  }

  lemma LegHistory(w: World, acts: seq<Act>, t: TrackKey, x: RequestKey)
    requires Inv(w) && TraceInv(w) && Legal(w, acts) && LiveLegAt(w.st, t, x)
    requires Withdrew in LegMsgs(Exec(w, acts).log, x)
    ensures LegMsgs(Exec(w, acts).log, x) == [Asked(t), Withdrew]
  {
    TraceInvRun(w, acts);
    assert LegMsgsFit(w, x, LegMsgs(w.log, x));
    assert LegMsgsFit(Exec(w, acts), x, LegMsgs(Exec(w, acts).log, x));
    LegMsgsPrefix(w, acts, x);
  }

  lemma {:induction false} LegMsgsPrefix(w: World, acts: seq<Act>, x: RequestKey)
    requires Legal(w, acts)
    ensures LegMsgs(w.log, x) <= LegMsgs(Exec(w, acts).log, x)
  {
    if acts != [] {
      LegMsgsPrefix(w, acts[..|acts|-1], x);
      LegMsgsGrow(Exec(w, acts[..|acts|-1]), acts[|acts|-1], x);
    }
  }
}
