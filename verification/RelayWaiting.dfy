/** No subscription waits behind a live upstream (section 8.5 of draft-ietf-moq-transport-16): when one
    begins to, and that it does so only behind a publisher told to close for reusing a track alias. */
module RelayWaiting {
  import opened MoqTypes
  import opened RelayState
  import opened RelayLog
  import opened RelayActs
  import opened RelayPlan
  import opened RelayInv
  import opened RelayTrace
  import opened RelayLegal
  import opened RelayHandlers
  import opened RelayRuns
  import opened RelayTheorems
  import opened RelayRouting
  import opened RelayClosing

  predicate Pends(st: State, t: TrackKey, k: RequestKey) {
    HasSub(st, t, k) && Sub(st, t, k).state.Pending?
  }

  /** k is Pending on track t although p's leg for t is Established. */
  predicate Waits(st: State, t: TrackKey, k: RequestKey, p: SessionKey) {
    && Pends(st, t, k)
    && HasLeg(st, t, p) && LegOf(st, t, p).state.Established?
  }

  /** p answers the SUBSCRIBE for t that awaits its answer, under an alias it uses already. */
  predicate ReusesAlias(st: State, ev: Event, t: TrackKey, p: SessionKey) {
    && ev.Control? && ev.session == p && ev.message.SubscribeOk?
    && Awaited(st, p, ev.message.requestId, t)
    && p in st.sessions && ev.message.trackAlias in st.sessions[p].inbound
  }

  predicate BeginsWait(st: State, ev: Event, t: TrackKey, k: RequestKey, p: SessionKey) {
    ReusesAlias(st, ev, t, p) && Pends(st, t, k)
  }

  ghost predicate NoNewWaits(st: State, st': State) {
    forall t, k, p :: Waits(st', t, k, p) ==> Waits(st, t, k, p)
  }

  predicate ToldToClose(log: seq<Obs>, p: SessionKey) {
    Tx(Close(p, DuplicateTrackAlias)) in log
  }

  /** Only a new subscription or a newly Established leg can make somebody wait. */
  lemma WaitSource(st: State, act: Act, t: TrackKey, k: RequestKey, p: SessionKey)
    ensures Waits(Apply(st, act), t, k, p) ==>
              Waits(st, t, k, p) || (act.AddSub? && act.t == t && act.k == k)
              || (act.LegOk? && act.t == t && act.p == p)
  {
  }

  function Unhurried(): Act -> bool { (a: Act) => !a.AddSub? && !a.LegOk? }

  lemma {:induction false} UnhurriedRun(w: World, acts: seq<Act>)
    requires Only(acts, Unhurried())
    ensures NoNewWaits(w.st, Exec(w, acts).st)
  {
    if acts != [] {
      var n := |acts| - 1;
      UnhurriedRun(w, acts[..n]);
      assert Unhurried()(acts[n]);
      forall t, k, p | Waits(Exec(w, acts).st, t, k, p) ensures Waits(w.st, t, k, p) {
        WaitSource(Exec(w, acts[..n]).st, acts[n], t, k, p);
      }
    }
  }

  /** A subscriber that arrives where an upstream is Established is served at once. */
  lemma ServedAtOnce(w: World, k: RequestKey, t: TrackKey, params: Parameters, ch: Channel, exts: Extensions)
    requires k.session in w.st.sessions
    ensures NoNewWaits(w.st, ApplyWorld(ApplyWorld(w, AddSub(k, t, params)), Grant(k, t, ch, exts)).st)
  {
    var w1 := ApplyWorld(w, AddSub(k, t, params));
    var w2 := ApplyWorld(w1, Grant(k, t, ch, exts));
    assert HasSub(w2.st, t, k) && Sub(w2.st, t, k).state.Established?;
    forall u, j, p | Waits(w2.st, u, j, p) ensures Waits(w.st, u, j, p) {
      WaitSource(w1.st, Grant(k, t, ch, exts), u, j, p);
      WaitSource(w.st, AddSub(k, t, params), u, j, p);
    }
  }

  lemma NothingToWaitFor(st: State, k: RequestKey, t: TrackKey, params: Parameters)
    requires !HasEstablishedUpstream(RouteOr(st, t))
    ensures NoNewWaits(st, Apply(st, AddSub(k, t, params)))
  {
    var st1 := Apply(st, AddSub(k, t, params));
    forall u, j, p | Waits(st1, u, j, p) ensures Waits(st, u, j, p) {
      WaitSource(st, AddSub(k, t, params), u, j, p);
      if !Waits(st, u, j, p) {
        EstablishedBefore(st, k, t, params, p);
      }
    }
  }

  lemma EstablishedBefore(st: State, k: RequestKey, t: TrackKey, params: Parameters, p: SessionKey)
    requires !HasEstablishedUpstream(RouteOr(st, t))
    ensures !(HasLeg(Apply(st, AddSub(k, t, params)), t, p)
              && LegOf(Apply(st, AddSub(k, t, params)), t, p).state.Established?)
  {
    assert p in RouteOr(st, t).ups ==> !RouteOr(st, t).ups[p].state.Established?;
  }

  lemma SubscribeNoWait(w: World, s: SessionKey, ch: Channel, id: nat, t: TrackKey, params: Parameters, c: Choice)
    requires s in w.st.sessions
    ensures NoNewWaits(w.st, Exec(w, SubscribePlan(w, s, ch, id, t, params, c)).st)
  {
    var acts := SubscribePlan(w, s, ch, id, t, params, c);
    var add := AddSub(RequestKey(s, id), t, params);
    if acts[0] != add {
      UnhurriedRun(w, acts);
    } else if HasEstablishedUpstream(RouteOr(w.st, t)) {
      TwoActs(w, add, acts[1]);
      assert acts == [add, acts[1]];
      ServedAtOnce(w, add.k, t, params, ch, acts[1].exts);
    } else {
      OnlyOpenLegs(c.peers, t, Unhurried());
      NewcomerNoWait(w, add.k, t, params, acts);
    }
  }

  lemma NewcomerNoWait(w: World, k: RequestKey, t: TrackKey, params: Parameters, acts: seq<Act>)
    requires !HasEstablishedUpstream(RouteOr(w.st, t))
    requires acts != [] && acts[0] == AddSub(k, t, params) && Only(acts[1..], Unhurried())
    ensures NoNewWaits(w.st, Exec(w, acts).st)
  {
    assert acts == [acts[0]] + acts[1..];
    ExecAppend(w, [acts[0]], acts[1..]);
    SingleAct(w, acts[0]);
    NothingToWaitFor(w.st, k, t, params);
    UnhurriedRun(ApplyWorld(w, acts[0]), acts[1..]);
  }

  /** A reused alias leaves the leg Established, everybody Pending behind it, and its publisher told to close. */
  lemma DuplicateWaits(w: World, s: SessionKey, t: TrackKey, alias: nat)
    requires HasLeg(w.st, t, s)
    ensures var w' := Exec(w, [LegOk(s, t, alias), Say(Close(s, DuplicateTrackAlias))]);
            && ToldToClose(w'.log, s)
            && forall u, j, p :: Waits(w'.st, u, j, p) <==>
                 Waits(w.st, u, j, p) || (u == t && p == s && Pends(w.st, t, j))
  {
    var ok, say := LegOk(s, t, alias), Say(Close(s, DuplicateTrackAlias));
    TwoActs(w, ok, say);
    assert Exec(w, [ok, say]).log == w.log + [] + [Tx(Close(s, DuplicateTrackAlias))];
  }

  /** When a publisher accepts, everybody waiting on the track is served. */
  lemma AcceptedNoWait(w: World, s: SessionKey, r: nat, alias: nat, t: TrackKey, exts: Extensions,
                       subs: seq<RequestKey>)
    requires Inv(w) && s in w.st.sessions && HasLeg(w.st, t, s)
    requires IsOrder(subs, GrantableSubs(w.st.tracks[t]))
    ensures NoNewWaits(w.st, Exec(w, [LegOk(s, t, alias), Bind(s, r, alias, t)]
                                     + (if exts == [] then [] else [SetExtensions(t, exts)])
                                          + Grants(subs, t, exts)).st)
  {
    var ok, bind := LegOk(s, t, alias), Bind(s, r, alias, t);
    var head := [ok, bind] + (if exts == [] then [] else [SetExtensions(t, exts)]);
    HeadEffect(w, s, r, alias, t, exts);
    var w1 := Exec(w, head);
    forall k | k in subs ensures HasSub(w1.st, t, k) && Sub(w1.st, t, k).state.Pending? && k.session in w1.st.sessions {
      assert HasSub(w.st, t, k) && SubOk(w.st, t, k);
    }
    GrantsEffect(w1, subs, t, exts);
    ExecAppend(w, head, Grants(subs, t, exts));
    var w2 := Exec(w1, Grants(subs, t, exts));
    OnlyGrants(subs, t, exts, Unhurried());
    GrantsWaitSource(w1, subs, t, exts);
    forall u, j, p | Waits(w2.st, u, j, p) ensures Waits(w.st, u, j, p) {
      if u == t {
        NobodyStillPending(w.st, w2.st, t, subs, j);
      }
    }
  }

  lemma HeadEffect(w: World, s: SessionKey, r: nat, alias: nat, t: TrackKey, exts: Extensions)
    requires s in w.st.sessions && HasLeg(w.st, t, s)
    ensures var w1 := Exec(w, [LegOk(s, t, alias), Bind(s, r, alias, t)]
                           + (if exts == [] then [] else [SetExtensions(t, exts)]));
            && t in w1.st.tracks && w1.st.tracks[t].downs == w.st.tracks[t].downs
            && HasEstablishedUpstream(w1.st.tracks[t])
            && w1.st.sessions.Keys == w.st.sessions.Keys
            && (forall u, j, p :: Waits(w1.st, u, j, p) ==> u == t || Waits(w.st, u, j, p))
  {
    var ok, bind, set_ := LegOk(s, t, alias), Bind(s, r, alias, t), SetExtensions(t, exts);
    TwoActs(w, ok, bind);
    BoundRoute(w.st, s, r, alias, t, exts);
    if exts == [] {
      assert [ok, bind] + [] == [ok, bind];
    } else {
      ExecSnoc(w, [ok, bind], set_);
    }
  }

  lemma {:induction false} GrantsWaitSource(w: World, subs: seq<RequestKey>, t: TrackKey, exts: Extensions)
    ensures forall u, j, p :: Waits(Exec(w, Grants(subs, t, exts)).st, u, j, p) ==> Waits(w.st, u, j, p)
  {
    if subs != [] {
      var n := |subs| - 1;
      var last := Grant(subs[n], t, ControlStream, exts);
      GrantsWaitSource(w, subs[..n], t, exts);
      ExecSnoc(w, Grants(subs[..n], t, exts), last);
      var st1 := Exec(w, Grants(subs[..n], t, exts)).st;
      forall u, j, p | Waits(Apply(st1, last), u, j, p) ensures Waits(w.st, u, j, p) {
        WaitSource(st1, last, u, j, p);
      }
    }
  }

  lemma NobodyStillPending(st: State, st2: State, t: TrackKey, subs: seq<RequestKey>, j: RequestKey)
    requires DownInv(st) && t in st.tracks && t in st2.tracks
    requires IsOrder(subs, GrantableSubs(st.tracks[t]))
    requires GrantedDowns(st.tracks[t].downs, st2.tracks[t].downs, ToSet(subs))
    ensures !(HasSub(st2, t, j) && Sub(st2, t, j).state.Pending?)
  {
    if HasSub(st, t, j) {
      assert SubOk(st, t, j);
      assert j in subs <==> j in GrantableSubs(st.tracks[t]);
    }
  }

  lemma OkMisses(w: World, s: SessionKey, r: nat, alias: nat, exts: Extensions, c: Choice)
    requires Inv(w) && s in w.st.sessions
    requires RequestKey(s, r) in w.st.upIndex ==> !Awaited(w.st, s, r, w.st.upIndex[RequestKey(s, r)])
    ensures NoNewWaits(w.st, Exec(w, SubscribeOkPlan(w, s, r, alias, exts, c)).st)
  {
    UnhurriedRun(w, SubscribeOkPlan(w, s, r, alias, exts, c));
  }

  lemma OkHits(w: World, s: SessionKey, r: nat, alias: nat, exts: Extensions, c: Choice)
    requires Inv(w) && s in w.st.sessions && RequestKey(s, r) in w.st.upIndex
    requires Awaited(w.st, s, r, w.st.upIndex[RequestKey(s, r)])
    requires IsOrder(c.subs, GrantableSubs(w.st.tracks[w.st.upIndex[RequestKey(s, r)]]))
    ensures var t := w.st.upIndex[RequestKey(s, r)];
            var w' := Exec(w, SubscribeOkPlan(w, s, r, alias, exts, c));
            if alias in w.st.sessions[s].inbound
            then ToldToClose(w'.log, s)
                 && forall u, j, p :: Waits(w'.st, u, j, p)
                      <==> Waits(w.st, u, j, p) || (u == t && p == s && Pends(w.st, t, j))
            else NoNewWaits(w.st, w'.st)
  {
    var t := w.st.upIndex[RequestKey(s, r)];
    assert LegIsOk(w.st, t, s);
    OkPlanShape(w, s, r, alias, exts, c);
    if alias in w.st.sessions[s].inbound {
      DuplicateWaits(w, s, t, alias);
    } else {
      AcceptedNoWait(w, s, r, alias, t, exts, c.subs);
    }
  }

  /** SUBSCRIBE_OK makes somebody wait exactly when it reuses an alias. */
  lemma SubscribeOkWaits(w: World, s: SessionKey, ch: Channel, m: ControlMessage, c: Choice,
                         t: TrackKey, k: RequestKey, p: SessionKey)
    requires Inv(w) && s in w.st.sessions && m.SubscribeOk? && FairControl(w.st, s, m, c)
    ensures var w' := Exec(w, SubscribeOkPlan(w, s, m.requestId, m.trackAlias, m.trackExtensions, c));
            && (Waits(w'.st, t, k, p) && !Waits(w.st, t, k, p) <==> BeginsWait(w.st, Control(s, ch, m), t, k, p))
            && (BeginsWait(w.st, Control(s, ch, m), t, k, p) ==> ToldToClose(w'.log, p))
  {
    var x := RequestKey(s, m.requestId);
    if x !in w.st.upIndex || !Awaited(w.st, s, m.requestId, w.st.upIndex[x]) {
      OkMisses(w, s, m.requestId, m.trackAlias, m.trackExtensions, c);
    } else {
      OkHits(w, s, m.requestId, m.trackAlias, m.trackExtensions, c);
    }
  }

  lemma OkPlanShape(w: World, s: SessionKey, r: nat, alias: nat, exts: Extensions, c: Choice)
    requires s in w.st.sessions && SubscribeOkPlan(w, s, r, alias, exts, c)[0].LegOk?
    ensures var t := w.st.upIndex[RequestKey(s, r)];
            SubscribeOkPlan(w, s, r, alias, exts, c)
            == if alias in w.st.sessions[s].inbound then [LegOk(s, t, alias), Say(Close(s, DuplicateTrackAlias))]
               else [LegOk(s, t, alias), Bind(s, r, alias, t)] + (if exts == [] then [] else [SetExtensions(t, exts)])
                    + Grants(c.subs, t, exts)
  {
    var t := w.st.upIndex[RequestKey(s, r)];
    assert [LegOk(s, t, alias)] + [Say(Close(s, DuplicateTrackAlias))]
           == [LegOk(s, t, alias), Say(Close(s, DuplicateTrackAlias))];
    assert [LegOk(s, t, alias)] + [Bind(s, r, alias, t)] == [LegOk(s, t, alias), Bind(s, r, alias, t)];
  }

  lemma PlansUnhurried(cfg: RelayConfig, w: World, x: Stimulus)
    requires !(x.event.Control? && (x.event.message.Subscribe? || x.event.message.SubscribeOk?))
    ensures Only(Plan(cfg, w, x.event, x.choice), Unhurried())
  {
    var p := Unhurried();
    match x.event
    case SessionOpened(_, _) =>
    case SessionClosed(s) => LeavingUnhurried(w.st, s, x.choice.tracks, x.choice.legs);
    case Control(s, ch, m) => if s in w.st.sessions { ControlUnhurried(cfg, w, s, ch, m, x.choice); }
    case ObjectReceived(s, alias, body) =>
      if s in w.st.sessions && alias in w.st.sessions[s].inbound {
        OnlyForwards(x.choice.subs, w.st.sessions[s].inbound[alias], body, p);
      }
    case FetchObjectReceived(_) =>
  }

  lemma {:induction false} LeavingUnhurried(st: State, s: SessionKey, order: seq<TrackKey>,
                                            legs: map<TrackKey, seq<SessionKey>>)
    ensures Only(LeaveTracks(st, s, order, legs), Unhurried())
  {
    if order != [] {
      var n := |order| - 1;
      LeavingUnhurried(st, s, order[..n], legs);
      OnlyUnsubs(if order[n] in legs then legs[order[n]] else [], order[n], true, Unhurried());
    }
  }

  lemma ControlUnhurried(cfg: RelayConfig, w: World, s: SessionKey, ch: Channel, m: ControlMessage, c: Choice)
    requires s in w.st.sessions && !m.Subscribe? && !m.SubscribeOk?
    ensures Only(ControlPlan(cfg, w, s, ch, m, c), Unhurried())
  {
    var p := Unhurried();
    match m
    case PublishNamespace(id, ns, _) => OnlyOffers(c.tracks, s, ns, p);
    case RequestError(r, code, retry, reason) => RequestErrorOnly(w, s, r, Refused(code, retry, reason), c, p);
    case PublishDone(r, status, count, reason) => PublishDoneOnly(w, s, r, Completed(status, count, reason), c, p);
    case Unsubscribe(id) => UnsubscribeOnly(w, s, id, c, p);
    case _ =>
  }

  /** One event: k begins to wait behind p exactly when p reuses an alias in answer to the SUBSCRIBE for
      the track k is Pending on; then p is told to close. */
  lemma WaitStep(cfg: RelayConfig, w: World, x: Stimulus, t: TrackKey, k: RequestKey, p: SessionKey)
    requires ConfigOk(cfg) && Inv(w) && TraceInv(w) && Admissible(w, x)
    ensures Waits(Step(cfg, w, x).st, t, k, p) && !Waits(w.st, t, k, p) <==> BeginsWait(w.st, x.event, t, k, p)
    ensures BeginsWait(w.st, x.event, t, k, p) ==> ToldToClose(Step(cfg, w, x).log, p)
  {
    var w1 := Receive(w, x.event);
    ReceiveKeeps(w, x.event);
    if x.event.Control? && x.event.message.Subscribe? && x.event.session in w.st.sessions {
      var m := x.event.message;
      SubscribeNoWait(w1, x.event.session, x.event.channel, m.requestId, TrackKey(m.trackNamespace, m.trackName),
                      m.parameters, x.choice);
    } else if x.event.Control? && x.event.message.SubscribeOk? && x.event.session in w.st.sessions {
      SubscribeOkWaits(w1, x.event.session, x.event.channel, x.event.message, x.choice, t, k, p);
    } else if x.event.Control? && x.event.session !in w.st.sessions {
      UnhurriedRun(w1, Violation(x.event.session));
    } else {
      PlansUnhurried(cfg, w1, x);
      UnhurriedRun(w1, Plan(cfg, w1, x.event, x.choice));
    }
  }

  /** The same over runs: when a subscription begins to wait behind an Established leg. */
  lemma WaitBeginsIff(cfg: RelayConfig, run: seq<Stimulus>, x: Stimulus, t: TrackKey, k: RequestKey, p: SessionKey)
    requires ConfigOk(cfg) && ValidRun(cfg, run + [x])
    ensures var st, st' := Reach(cfg, run).st, Reach(cfg, run + [x]).st;
            Waits(st', t, k, p) && !Waits(st, t, k, p) <==> BeginsWait(st, x.event, t, k, p)
  {
    SplitStep(cfg, run, x);
    Reachable(cfg, run);
    WaitStep(cfg, Reach(cfg, run), x, t, k, p);
  }

  /** Whoever somebody waits behind is open and has been told to close. */
  lemma {:induction false} WaitedForIsTold(cfg: RelayConfig, run: seq<Stimulus>, t: TrackKey, k: RequestKey,
                                           p: SessionKey)
    requires ConfigOk(cfg) && ValidRun(cfg, run) && Waits(Reach(cfg, run).st, t, k, p)
    ensures p in Reach(cfg, run).st.sessions && ToldToClose(Reach(cfg, run).log, p)
  {
    Reachable(cfg, run);
    assert LegIsOk(Reach(cfg, run).st, t, p);
    if run != [] {
      var n := |run| - 1;
      var w := Reach(cfg, run[..n]);
      Reachable(cfg, run[..n]);
      WaitStep(cfg, w, run[n], t, k, p);
      if Waits(w.st, t, k, p) {
        WaitedForIsTold(cfg, run[..n], t, k, p);
        StillTold(cfg, w, run[n], p);
      }
    }
  }

  lemma StillTold(cfg: RelayConfig, w: World, x: Stimulus, p: SessionKey)
    requires ToldToClose(w.log, p)
    ensures ToldToClose(Step(cfg, w, x).log, p)
  {
    var w1 := Receive(w, x.event);
    LogPrefix(w1, Plan(cfg, w1, x.event, x.choice));
    var i :| 0 <= i < |w.log| && w.log[i] == Tx(Close(p, DuplicateTrackAlias));
    assert w1.log[i] == w.log[i] && Step(cfg, w, x).log[i] == w1.log[i];
  }

  /** As long as no open session has been told to close for reusing an alias, no track has both an
      Established leg and a Pending subscription. */
  lemma NoWaitingBehindLiveUpstream(cfg: RelayConfig, run: seq<Stimulus>, t: TrackKey)
    requires ConfigOk(cfg) && ValidRun(cfg, run) && t in Reach(cfg, run).st.tracks
    requires forall p :: p in Reach(cfg, run).st.sessions ==> !ToldToClose(Reach(cfg, run).log, p)
    ensures HasEstablishedUpstream(Reach(cfg, run).st.tracks[t]) ==> PendingSubs(Reach(cfg, run).st.tracks[t]) == {}
  {
    var st := Reach(cfg, run).st;
    if HasEstablishedUpstream(st.tracks[t]) && PendingSubs(st.tracks[t]) != {} {
      var p :| p in st.tracks[t].ups && st.tracks[t].ups[p].state.Established?;
      var k :| k in PendingSubs(st.tracks[t]);
      assert Waits(st, t, k, p);
      WaitedForIsTold(cfg, run, t, k, p);
    }
  }
}
