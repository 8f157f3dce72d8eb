/** Delivery (sections 8.4 and 8.7 of draft-ietf-moq-transport-16): what a subscription is sent is
    exactly what its track's publishers sent while it was Established. */
module RelayDelivery {
  import opened MoqTypes
  import opened RelayState
  import opened RelayLog
  import opened RelayActs
  import opened RelayPlan
  import opened RelayInv
  import opened RelayTrace
  import opened RelayLegal
  import opened RelayRuns
  import opened RelayTheorems

  /** An object from p under this alias belongs to k: the alias is bound to the track on which k is Established. */
  predicate Carries(st: State, p: SessionKey, alias: nat, k: RequestKey) {
    && p in st.sessions && alias in st.sessions[p].inbound
    && HasSub(st, st.sessions[p].inbound[alias], k)
    && Sub(st, st.sessions[p].inbound[alias], k).state.Established?
  }

  /** The objects k should be sent: every one received for it, in order, once. */
  function Expected(cfg: RelayConfig, run: seq<Stimulus>, k: RequestKey): seq<ObjectBody> {
    if run == [] then [] else
    var n := |run| - 1;
    var ev := run[n].event;
    Expected(cfg, run[..n], k)
    + (if ev.ObjectReceived? && Carries(Reach(cfg, run[..n]).st, ev.session, ev.alias, k) then [ev.body] else [])
  }

  function NewObject(st: State, act: Act, s: SessionKey, alias: nat): seq<ObjectBody> {
    if act.Forward? && act.k.session == s && HasSub(st, act.t, act.k)
        && Sub(st, act.t, act.k).outboundAlias == Some(alias)
    then [act.body] else []
  }

  lemma ObjectOfAct(st: State, act: Act, s: SessionKey, alias: nat)
    requires act.Say? ==> Harmless(st, act.out)
    ensures var out := Emit(st, act);
            (if out == [] then [] else ObjectIn(Tx(out[0]), s, alias)) == NewObject(st, act, s, alias)
  {
  }

  lemma DeliveredGrows(w: World, act: Act, s: SessionKey, alias: nat)
    requires act.Say? ==> Harmless(w.st, act.out)
    ensures Delivered(ApplyWorld(w, act).log, s, alias) == Delivered(w.log, s, alias) + NewObject(w.st, act, s, alias)
  {
    ViewOfAct(w, act, ObjectView(s, alias));
    ObjectOfAct(w.st, act, s, alias);
  }

  // ---- Steps without objects ----

  function Objectless(): Act -> bool { (a: Act) => !a.Forward? }

  lemma {:induction false} NothingDelivered(w: World, acts: seq<Act>, s: SessionKey, alias: nat)
    requires Legal(w, acts) && Only(acts, Objectless())
    ensures Delivered(Exec(w, acts).log, s, alias) == Delivered(w.log, s, alias)
  {
    if acts != [] {
      var n := |acts| - 1;
      NothingDelivered(w, acts[..n], s, alias);
      DeliveredGrows(Exec(w, acts[..n]), acts[n], s, alias);
      assert Objectless()(acts[n]);
    }
  }

  lemma PlansObjectless(cfg: RelayConfig, w: World, x: Stimulus)
    requires !x.event.ObjectReceived?
    ensures Only(Plan(cfg, w, x.event, x.choice), Objectless())
  {
    var p := Objectless();
    match x.event
    case SessionOpened(_, _) =>
    case SessionClosed(s) => LeavingObjectless(w.st, s, x.choice.tracks, x.choice.legs);
    case Control(s, ch, m) => ControlObjectless(cfg, w, s, ch, m, x.choice);
    case FetchObjectReceived(_) =>
  }

  lemma {:induction false} LeavingObjectless(st: State, s: SessionKey, order: seq<TrackKey>,
                                             legs: map<TrackKey, seq<SessionKey>>)
    ensures Only(LeaveTracks(st, s, order, legs), Objectless())
  {
    if order != [] {
      var n := |order| - 1;
      LeavingObjectless(st, s, order[..n], legs);
      OnlyUnsubs(if order[n] in legs then legs[order[n]] else [], order[n], true, Objectless());
    }
  }

  lemma ControlObjectless(cfg: RelayConfig, w: World, s: SessionKey, ch: Channel, m: ControlMessage, c: Choice)
    ensures Only(ControlPlan(cfg, w, s, ch, m, c), Objectless())
  {
    var p := Objectless();
    if s in w.st.sessions {
      if m.PublishNamespace? {
        OnlyOffers(c.tracks, s, m.trackNamespace, p);
      } else if m.Subscribe? {
        OnlyOpenLegs(c.peers, TrackKey(m.trackNamespace, m.trackName), p);
      } else if m.SubscribeOk? {
        if RequestKey(s, m.requestId) in w.st.upIndex {
          OnlyGrants(c.subs, w.st.upIndex[RequestKey(s, m.requestId)], m.trackExtensions, p);
        }
      } else if m.RequestError? {
        RequestErrorOnly(w, s, m.requestId, Refused(m.errorCode, m.retryInterval, m.errorReason), c, p);
      } else if m.PublishDone? {
        PublishDoneOnly(w, s, m.requestId, Completed(m.statusCode, m.streamCount, m.errorReason), c, p);
      } else if m.Unsubscribe? {
        UnsubscribeOnly(w, s, m.requestId, c, p);
      }
    }
  }

  // ---- One object ----

  /** j may be sent objects of t, and goes by this alias of k's session exactly if it is k. */
  predicate NamesOnly(st: State, t: TrackKey, j: RequestKey, k: RequestKey, alias: nat) {
    && HasSub(st, t, j) && Sub(st, t, j).state.Established? && Sub(st, t, j).outboundAlias.Some?
    && ((j.session == k.session && Sub(st, t, j).outboundAlias.value == alias) <==> j == k)
  }

  /** The fan-out of one object puts exactly one copy under k's alias if k is among the targets, none otherwise. */
  lemma {:induction false} FanOut(w: World, order: seq<RequestKey>, t: TrackKey, body: ObjectBody, k: RequestKey,
                                  alias: nat)
    requires Distinct(order) && forall j :: j in order ==> NamesOnly(w.st, t, j, k, alias)
    ensures Exec(w, Forwards(order, t, body)).st == w.st
    ensures Delivered(Exec(w, Forwards(order, t, body)).log, k.session, alias)
            == Delivered(w.log, k.session, alias) + (if k in order then [body] else [])
  {
    if order != [] {
      var n := |order| - 1;
      var j := order[n];
      FanOut(w, order[..n], t, body, k, alias);
      ExecSnoc(w, Forwards(order[..n], t, body), Forward(j, t, body));
      assert j in order;
      OneCopy(Exec(w, Forwards(order[..n], t, body)), j, t, body, k, alias);
      LastOnce(order, k);
    }
  }

  /** One copy goes out under k's alias exactly when it is sent to k. */
  lemma OneCopy(w: World, j: RequestKey, t: TrackKey, body: ObjectBody, k: RequestKey, alias: nat)
    requires NamesOnly(w.st, t, j, k, alias)
    ensures ApplyWorld(w, Forward(j, t, body)).st == w.st
    ensures Delivered(ApplyWorld(w, Forward(j, t, body)).log, k.session, alias)
         == Delivered(w.log, k.session, alias) + (if j == k then [body] else [])
  {
    DeliveredGrows(w, Forward(j, t, body), k.session, alias);
  }

  lemma LastOnce<T(!new)>(order: seq<T>, k: T)
    requires order != [] && Distinct(order)
    ensures order[|order|-1] !in order[..|order|-1]
    ensures k in order <==> k in order[..|order|-1] || k == order[|order|-1]
  {
  }

  /** Whoever is Established and was sent this alias is k itself. */
  lemma AliasNames(w: World, t: TrackKey, j: RequestKey, k: RequestKey, alias: nat)
    requires Inv(w) && TraceInv(w) && Accepted(alias) in Replies(w.log, k)
    requires HasSub(w.st, t, j) && Sub(w.st, t, j).state.Established?
    ensures j.session == k.session && Sub(w.st, t, j).outboundAlias == Some(alias) ==> j == k
    ensures j == k ==> Sub(w.st, t, j).outboundAlias == Some(alias)
  {
    assert SubOk(w.st, t, j);
    assert RepliesFit(w, j, Replies(w.log, j));
    assert j == RequestKey(j.session, j.id) && k == RequestKey(k.session, k.id);
  }

  lemma ObjectStep(w: World, s: SessionKey, a: nat, body: ObjectBody, c: Choice, k: RequestKey, alias: nat)
    requires Inv(w) && TraceInv(w) && Fair(w.st, ObjectReceived(s, a, body), c)
    requires Accepted(alias) in Replies(w.log, k)
    ensures Delivered(Exec(w, ObjectPlan(w, s, a, body, c)).log, k.session, alias)
            == Delivered(w.log, k.session, alias) + (if Carries(w.st, s, a, k) then [body] else [])
  {
    if s !in w.st.sessions || a !in w.st.sessions[s].inbound {
      SingleAct(w, Say(Close(s, ProtocolViolation)));
      DeliveredGrows(w, Say(Close(s, ProtocolViolation)), k.session, alias);
    } else {
      var t := w.st.sessions[s].inbound[a];
      if t in w.st.tracks {
        forall j | j in c.subs
          ensures NamesOnly(w.st, t, j, k, alias)
        {
          assert j in ReadySubs(w.st.tracks[t]);
          AliasNames(w, t, j, k, alias);
        }
        FanOut(w, c.subs, t, body, k, alias);
        ReadyIffCarried(w, s, a, k);
      }
    }
  }

  lemma ReadyIffCarried(w: World, s: SessionKey, a: nat, k: RequestKey)
    requires Inv(w) && s in w.st.sessions && a in w.st.sessions[s].inbound
    requires w.st.sessions[s].inbound[a] in w.st.tracks
    ensures k in ReadySubs(w.st.tracks[w.st.sessions[s].inbound[a]]) <==> Carries(w.st, s, a, k)
  {
    var t := w.st.sessions[s].inbound[a];
    if HasSub(w.st, t, k) {
      assert SubOk(w.st, t, k);
    }
  }

  // ---- Whole runs ----

  /** An alias nobody was told about has carried nothing. */
  lemma {:induction false} UnannouncedEmpty(log: seq<Obs>, s: SessionKey, alias: nat)
    requires ObjectsAnnounced(log) && alias !in Aliases(log, s)
    ensures Delivered(log, s, alias) == []
  {
    if log != [] {
      var n := |log| - 1;
      assert log == log[..n] + [log[n]];
      CollectSnoc(log[..n], log[n], AliasView(s));
      CollectSnoc(log[..n], log[n], ObjectView(s, alias));
      forall i | 0 <= i < n && log[..n][i].Tx? && log[..n][i].output.SendObject?
        ensures log[..n][i].output.alias in Aliases(log[..n][..i], log[..n][i].output.session)
      {
        assert log[..n][..i] == log[..i] && log[i] == log[..n][i];
      }
      UnannouncedEmpty(log[..n], s, alias);
    }
  }

  /** Objects flow only under an alias that was announced: a request not yet accepted was due nothing. */
  lemma NotCarriedBefore(w: World, s: SessionKey, a: nat, k: RequestKey)
    requires Inv(w) && TraceInv(w) && Carries(w.st, s, a, k)
    ensures exists alias :: Accepted(alias) in Replies(w.log, k)
  {
    var t := w.st.sessions[s].inbound[a];
    assert SubOk(w.st, t, k);
    assert RepliesFit(w, k, Replies(w.log, k));
    assert Accepted(Sub(w.st, t, k).outboundAlias.value) in Replies(w.log, k);
  }

  ghost predicate DeliveryFits(log: seq<Obs>, k: RequestKey, expected: seq<ObjectBody>) {
    && (forall alias: nat :: Accepted(alias) in Replies(log, k) ==> Delivered(log, k.session, alias) == expected)
    && ((forall alias: nat :: Accepted(alias) !in Replies(log, k)) ==> expected == [])
  }

  lemma ObjectDelivery(cfg: RelayConfig, w: World, x: Stimulus, k: RequestKey, expected: seq<ObjectBody>)
    requires ConfigOk(cfg) && Inv(w) && TraceInv(w) && Admissible(w, x) && x.event.ObjectReceived?
    requires DeliveryFits(w.log, k, expected)
    ensures DeliveryFits(Step(cfg, w, x).log, k,
                         expected + (if Carries(w.st, x.event.session, x.event.alias, k) then [x.event.body] else []))
  {
    var w1 := Receive(w, x.event);
    var s, a, body := x.event.session, x.event.alias, x.event.body;
    ReceiveKeeps(w, x.event);
    ReceiveReplies(w, x.event, k);
    PlanLegal(cfg, w, x);
    ObjectReplies(w1, s, a, body, x.choice, k);
    forall alias: nat | Accepted(alias) in Replies(w.log, k)
      ensures Delivered(Step(cfg, w, x).log, k.session, alias)
              == expected + (if Carries(w.st, s, a, k) then [body] else [])
    {
      ReceiveDelivered(w, x.event, k.session, alias);
      ObjectStep(w1, s, a, body, x.choice, k, alias);
    }
    if Carries(w.st, s, a, k) {
      NotCarriedBefore(w, s, a, k);
    }
  }

  lemma ObjectReplies(w: World, s: SessionKey, a: nat, body: ObjectBody, c: Choice, k: RequestKey)
    requires Legal(w, ObjectPlan(w, s, a, body, c))
    ensures Replies(Exec(w, ObjectPlan(w, s, a, body, c)).log, k) == Replies(w.log, k)
  {
    if s in w.st.sessions && a in w.st.sessions[s].inbound {
      OnlyForwards(c.subs, w.st.sessions[s].inbound[a], body, Mute());
    }
    MuteRun(w, ObjectPlan(w, s, a, body, c), k);
  }

  function Mute(): Act -> bool { (act: Act) => act.Forward? || act.Say? }

  lemma {:induction false} MuteRun(w: World, acts: seq<Act>, k: RequestKey)
    requires Legal(w, acts) && Only(acts, Mute())
    ensures Replies(Exec(w, acts).log, k) == Replies(w.log, k)
  {
    if acts != [] {
      var n := |acts| - 1;
      MuteRun(w, acts[..n], k);
      RepliesGrow(Exec(w, acts[..n]), acts[n], k);
      assert Mute()(acts[n]);
    }
  }

  lemma OtherDelivery(cfg: RelayConfig, w: World, x: Stimulus, k: RequestKey, expected: seq<ObjectBody>)
    requires ConfigOk(cfg) && Inv(w) && TraceInv(w) && Admissible(w, x) && !x.event.ObjectReceived?
    requires DeliveryFits(w.log, k, expected)
    ensures DeliveryFits(Step(cfg, w, x).log, k, expected)
  {
    var w1 := Receive(w, x.event);
    var acts := Plan(cfg, w1, x.event, x.choice);
    ReceiveKeeps(w, x.event);
    ReceiveReplies(w, x.event, k);
    PlanLegal(cfg, w, x);
    PlansObjectless(cfg, w1, x);
    RepliesPrefix(w1, acts, k);
    forall alias: nat | Accepted(alias) in Replies(Step(cfg, w, x).log, k)
      ensures Delivered(Step(cfg, w, x).log, k.session, alias) == expected
    {
      ReceiveDelivered(w, x.event, k.session, alias);
      NothingDelivered(w1, acts, k.session, alias);
      if Accepted(alias) !in Replies(w.log, k) {
        NewAliasIsEmpty(w1, acts, k, alias);
      }
    }
  }

  lemma {:induction false} RepliesPrefix(w: World, acts: seq<Act>, k: RequestKey)
    requires Legal(w, acts)
    ensures Replies(w.log, k) <= Replies(Exec(w, acts).log, k)
  {
    if acts != [] {
      RepliesPrefix(w, acts[..|acts|-1], k);
      RepliesGrow(Exec(w, acts[..|acts|-1]), acts[|acts|-1], k);
    }
  }

  lemma AcceptedOnce(rs: seq<Reply>, rs': seq<Reply>, alias: nat)
    requires ReplyGrammar(rs') && rs <= rs' && Accepted(alias) in rs' && Accepted(alias) !in rs
    ensures forall b: nat :: Accepted(b) !in rs
  {
    assert |rs'| <= 2 && rs'[0] == Accepted(alias);
  }

  /** A request accepted only now was due nothing before, and its alias has carried nothing. */
  lemma NewAliasIsEmpty(w: World, acts: seq<Act>, k: RequestKey, alias: nat)
    requires Inv(w) && TraceInv(w) && Legal(w, acts)
    requires Accepted(alias) in Replies(Exec(w, acts).log, k) && Accepted(alias) !in Replies(w.log, k)
    ensures Delivered(w.log, k.session, alias) == []
    ensures forall b: nat :: Accepted(b) !in Replies(w.log, k)
  {
    TraceInvRun(w, acts);
    RepliesPrefix(w, acts, k);
    assert RepliesFit(Exec(w, acts), k, Replies(Exec(w, acts).log, k));
    AcceptedOnce(Replies(w.log, k), Replies(Exec(w, acts).log, k), alias);
    AcceptedIsNew(w, acts, k, alias);
    UnannouncedEmpty(w.log, k.session, alias);
  }

  lemma {:induction false} AcceptedIsNew(w: World, acts: seq<Act>, k: RequestKey, alias: nat)
    requires Inv(w) && TraceInv(w) && Legal(w, acts)
    requires Accepted(alias) in Replies(Exec(w, acts).log, k) && Accepted(alias) !in Replies(w.log, k)
    ensures alias !in Aliases(w.log, k.session)
  {
    if acts != [] {
      var n := |acts| - 1;
      var w1 := Exec(w, acts[..n]);
      TraceInvRun(w, acts[..n]);
      if Accepted(alias) in Replies(w1.log, k) {
        AcceptedIsNew(w, acts[..n], k, alias);
      } else {
        AcceptedSource(w1, acts[n], k, alias);
        assert AliasesFit(w1, k.session, Aliases(w1.log, k.session));
        AliasesPrefix(w, acts[..n], k.session);
      }
    }
  }

  lemma {:induction false} AliasesPrefix(w: World, acts: seq<Act>, s: SessionKey)
    requires Legal(w, acts)
    ensures Aliases(w.log, s) <= Aliases(Exec(w, acts).log, s)
  {
    if acts != [] {
      AliasesPrefix(w, acts[..|acts|-1], s);
      AliasesGrow(Exec(w, acts[..|acts|-1]), acts[|acts|-1], s);
    }
  }

  /** Over any run the objects sent under the alias announced to a subscription are exactly the objects
      received for it while it was Established: in order, none lost, none repeated, none changed. */
  lemma {:induction false} DeliveryExact(cfg: RelayConfig, run: seq<Stimulus>, k: RequestKey)
    requires ConfigOk(cfg) && ValidRun(cfg, run)
    ensures DeliveryFits(Reach(cfg, run).log, k, Expected(cfg, run, k))
  {
    if run != [] {
      var n := |run| - 1;
      var w := Reach(cfg, run[..n]);
      DeliveryExact(cfg, run[..n], k);
      Reachable(cfg, run[..n]);
      if run[n].event.ObjectReceived? {
        ObjectDelivery(cfg, w, run[n], k, Expected(cfg, run[..n], k));
      } else {
        OtherDelivery(cfg, w, run[n], k, Expected(cfg, run[..n], k));
        assert Expected(cfg, run, k) == Expected(cfg, run[..n], k);
      }
    }
  }
}
