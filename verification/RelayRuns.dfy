/** Steps and runs of the relay, and the invariant of every reachable world. */
module RelayRuns {
  import opened MoqTypes
  import opened RelayState
  import opened RelayLog
  import opened RelayActs
  import opened RelayPlan
  import opened RelayInv
  import opened RelayTrace
  import opened RelayLegal
  import opened RelayHandlers

  /** One event, with the iteration orders the hash maps had while it was handled. */
  datatype Stimulus = Stimulus(event: Event, choice: Choice)

  const START := World(EMPTY_STATE, {}, [])

  /** `Relay::on_event`. */
  function Step(cfg: RelayConfig, w: World, x: Stimulus): World {
    Exec(Receive(w, x.event), Plan(cfg, Receive(w, x.event), x.event, x.choice))
  }

  function Reach(cfg: RelayConfig, run: seq<Stimulus>): World {
    if run == [] then START else Step(cfg, Reach(cfg, run[..|run|-1]), run[|run|-1])
  }

  predicate ConfigOk(cfg: RelayConfig) {
    cfg.initialLocalMax <= ID_LIMIT && cfg.initialPeerMax <= ID_LIMIT
  }

  /** Session keys are not reused, wire integers are varints, iteration orders are orders. */
  ghost predicate Admissible(w: World, x: Stimulus) {
    && Fair(w.st, x.event, x.choice)
    && (x.event.SessionOpened? ==> x.event.session !in w.used)
    && (x.event.Control? ==> WireOk(x.event.message))
  }

  ghost predicate ValidRun(cfg: RelayConfig, run: seq<Stimulus>) {
    run == [] || (ValidRun(cfg, run[..|run|-1]) && Admissible(Reach(cfg, run[..|run|-1]), run[|run|-1]))
  }

  lemma ReceivedAnswer(w: World, ev: Event, s: SessionKey, r: nat, alias: nat)
    requires Inv(w) && TraceInv(w) && s in w.st.sessions && RequestKey(s, r) in w.st.upIndex
    requires AnswerAt([Rx(ev)], 0, s, r, alias)
    ensures AnsweredWith(Receive(w, ev).log, s, r, alias, w.st.upIndex[RequestKey(s, r)])
  {
    var log' := Receive(w, ev).log;
    assert log'[..|w.log|] == w.log;
    assert LegMsgsFit(w, RequestKey(s, r), LegMsgs(w.log, RequestKey(s, r)));
    assert AnswerAt(log', |w.log|, s, r, alias);
  }

  lemma ControlPlanLegal(cfg: RelayConfig, w: World, s: SessionKey, ch: Channel, m: ControlMessage, c: Choice)
    requires Inv(w) && TraceInv(w) && Admissible(w, Stimulus(Control(s, ch, m), c))
    ensures Legal(Receive(w, Control(s, ch, m)), ControlPlan(cfg, Receive(w, Control(s, ch, m)), s, ch, m, c))
  {
    var ev := Control(s, ch, m);
    var w1 := Receive(w, ev);
    ReceiveKeeps(w, ev);
    if s !in w.st.sessions {
      SingleAct(w1, Say(Close(s, ProtocolViolation)));
    } else {
      if m.ClientSetup? {
        ClientSetupLegal(cfg, w1, s, ch);
      } else if m.ServerSetup? {
        ServerSetupLegal(w1, s, m.parameters);
      } else if m.MaxRequestId? {
        MaxRequestIdLegal(w1, s, m.maxRequestId);
      } else if m.Goaway? {
        GoawayLegal(w1, s, m.newSessionUri);
      } else if m.PublishNamespace? {
        PublishNamespaceLegal(w1, s, ch, m.requestId, m.trackNamespace, c);
      } else if m.Subscribe? {
        var t := TrackKey(m.trackNamespace, m.trackName);
        SubscribeLegal(w1, s, ch, m.requestId, t, m.parameters, c);
      } else if m.SubscribeOk? {
        if RequestKey(s, m.requestId) in w.st.upIndex {
          ReceivedAnswer(w, ev, s, m.requestId, m.trackAlias);
        }
        SubscribeOkLegal(w1, s, m.requestId, m.trackAlias, m.trackExtensions, c);
      } else if m.RequestError? {
        RequestErrorLegal(w1, s, m.requestId, Refused(m.errorCode, m.retryInterval, m.errorReason), c);
      } else if m.Unsubscribe? {
        UnsubscribeLegal(w1, s, m.requestId, c);
      } else if m.PublishDone? {
        PublishDoneLegal(w1, s, m.requestId, Completed(m.statusCode, m.streamCount, m.errorReason), c);
      } else {
        SingleAct(w1, Say(Close(s, ProtocolViolation)));
      }
    }
  }

  /** Every handler consists of enabled acts. */
  lemma PlanLegal(cfg: RelayConfig, w: World, x: Stimulus)
    requires ConfigOk(cfg) && Inv(w) && TraceInv(w) && Admissible(w, x)
    ensures Legal(Receive(w, x.event), Plan(cfg, Receive(w, x.event), x.event, x.choice))
  {
    var w1 := Receive(w, x.event);
    ReceiveKeeps(w, x.event);
    match x.event
    case SessionOpened(s, role) => SingleAct(w1, Open(s, role, cfg.initialLocalMax, cfg.initialPeerMax));
    case SessionClosed(s) => ClosePlanEffect(w1, s, x.choice);
    case Control(s, ch, m) => ControlPlanLegal(cfg, w, s, ch, m, x.choice);
    case ObjectReceived(s, alias, body) => ObjectPlanLegal(w1, s, alias, body, x.choice);
    case FetchObjectReceived(_) =>
  }

  lemma StepKeeps(cfg: RelayConfig, w: World, x: Stimulus)
    requires ConfigOk(cfg) && Inv(w) && TraceInv(w) && Admissible(w, x)
    ensures Inv(Step(cfg, w, x)) && TraceInv(Step(cfg, w, x))
  {
    ReceiveKeeps(w, x.event);
    PlanLegal(cfg, w, x);
    TraceInvRun(Receive(w, x.event), Plan(cfg, Receive(w, x.event), x.event, x.choice));
  }

  lemma StartOk()
    ensures Inv(START) && TraceInv(START)
  {
  }

  /** The invariant of every reachable world. */
  lemma {:induction false} Reachable(cfg: RelayConfig, run: seq<Stimulus>)
    requires ConfigOk(cfg) && ValidRun(cfg, run)
    ensures Inv(Reach(cfg, run)) && TraceInv(Reach(cfg, run))
  {
    if run == [] {
      StartOk();
    } else {
      Reachable(cfg, run[..|run|-1]);
      StepKeeps(cfg, Reach(cfg, run[..|run|-1]), run[|run|-1]);
    }
  }
}
