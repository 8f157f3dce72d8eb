/** When the relay closes a session, and with which error: exactly once for every event it cannot accept, and
    never otherwise. */
module RelayRefusals {
  import opened MoqTypes
  import opened RelayState
  import opened RelayLog
  import opened RelayActs
  import opened RelayPlan
  import opened RelayInv
  import opened RelayTrace
  import opened RelayRuns
  import opened RelayFinality
  import opened RelayTheorems
  import opened RelayMatching

  // ---- What is wrong with an event ----

  /** What decides whether a session's messages are in order, except for what is going on on tracks. */
  datatype Account = Account(role: EndpointRole, setUp: bool, goaway: bool, uri: Option<Bytes>, next: nat,
                             localLimit: nat, peerLimit: nat, published: set<Namespace>, bound: map<nat, TrackKey>)

  function AccountOf(x: SessionState): Account {
    Account(x.role, x.setupDone, x.goaway, x.goawayUri, x.peerNext, x.localMax, x.peerMax, x.published, x.inbound)
  }

  function AccountIn(st: State, s: SessionKey): Option<Account> {
    if s in st.sessions then Some(AccountOf(st.sessions[s])) else None
  }

  function ViolationUnless(ok: bool): Option<SessionError> { if ok then None else Some(ProtocolViolation) }

  /** A new request id: set-up comes first, no id is skipped, and the limit holds. */
  function IdComplaint(a: Account, id: nat): Option<SessionError> {
    if !a.setUp then Some(ProtocolViolation)
    else if id != a.next then Some(InvalidRequestId)
    else if id >= a.localLimit then Some(TooManyRequests)
    else None
  }

  /** The id names a track for which the publisher's answer is still awaited. */
  predicate AwaitsAnswer(st: State, s: SessionKey, r: nat) {
    && RequestKey(s, r) in st.upIndex
    && HasLeg(st, st.upIndex[RequestKey(s, r)], s) && LegOf(st, st.upIndex[RequestKey(s, r)], s).state.Pending?
  }

  ghost predicate LiveSub(st: State, k: RequestKey) { exists t :: HasSub(st, t, k) && Live(Sub(st, t, k).state) }

  ghost function MessageComplaint(a: Account, st: State, s: SessionKey, m: ControlMessage): Option<SessionError> {
    match m
    case ClientSetup(_) => ViolationUnless(a.role.Server? && !a.setUp)
    case ServerSetup(_) => ViolationUnless(a.role.Client? && !a.setUp)
    case MaxRequestId(n) => ViolationUnless(n + 1 > a.peerLimit)
    case RequestsBlocked(_) => None
    case Goaway(_) => ViolationUnless(!a.goaway)
    case PublishNamespace(id, _, _) => IdComplaint(a, id)
    case Subscribe(id, _, _, _) => IdComplaint(a, id)
    case SubscribeOk(r, alias, _, _) =>
      if !a.setUp || !AwaitsAnswer(st, s, r) then Some(ProtocolViolation)
      else if alias in a.bound then Some(DuplicateTrackAlias)
      else None
    case Unsubscribe(id) => ViolationUnless(a.setUp && LiveSub(st, RequestKey(s, id)))
    case _ => ViolationUnless(a.setUp)
  }

  /** What is wrong with the event, if anything, for a session with the given account. */
  ghost function Complaint(a: Option<Account>, st: State, ev: Event): Option<SessionError> {
    match ev
    case Control(s, _, m) => if a.None? then Some(ProtocolViolation) else MessageComplaint(a.value, st, s, m)
    case ObjectReceived(_, alias, _) => ViolationUnless(a.Some? && alias in a.value.bound)
    case _ => None
  }

  // ---- Where a plan closes ----

  /** A handler closes the session the event came from, with nothing sent before, or closes nothing. */
  ghost predicate ClosesOwn(acts: seq<Act>, s: SessionKey) {
    || Only(acts, NoCloses())
    || (exists e :: acts == [Say(Close(s, e))])
    || (exists t, a, e :: acts == [LegOk(s, t, a), Say(Close(s, e))])
  }

  lemma PlansCloseOwn(cfg: RelayConfig, w: World, x: Stimulus)
    ensures var acts := Plan(cfg, w, x.event, x.choice);
            if x.event.Control? || x.event.ObjectReceived? then ClosesOwn(acts, x.event.session)
            else Only(acts, NoCloses())
  {
    match x.event
    case SessionOpened(_, _) =>
    case SessionClosed(s) => LeavingCloses(w.st, s, x.choice.tracks, x.choice.legs);
    case Control(s, ch, m) => if s in w.st.sessions { ControlClosesOwn(cfg, w, s, ch, m, x.choice); }
    case ObjectReceived(s, alias, body) =>
      if s in w.st.sessions && alias in w.st.sessions[s].inbound {
        OnlyForwards(x.choice.subs, w.st.sessions[s].inbound[alias], body, NoCloses());
      }
    case FetchObjectReceived(_) =>
  }

  lemma {:induction false} LeavingCloses(st: State, s: SessionKey, order: seq<TrackKey>,
                                         legs: map<TrackKey, seq<SessionKey>>)
    ensures Only(LeaveTracks(st, s, order, legs), NoCloses())
  {
    if order != [] {
      var n := |order| - 1;
      LeavingCloses(st, s, order[..n], legs);
      OnlyUnsubs(if order[n] in legs then legs[order[n]] else [], order[n], true, NoCloses());
    }
  }

  lemma ControlClosesOwn(cfg: RelayConfig, w: World, s: SessionKey, ch: Channel, m: ControlMessage, c: Choice)
    requires s in w.st.sessions
    ensures ClosesOwn(ControlPlan(cfg, w, s, ch, m, c), s)
  {
    var p := NoCloses();
    if m.PublishNamespace? {
      OnlyOffers(c.tracks, s, m.trackNamespace, p);
    } else if m.Subscribe? {
      OnlyOpenLegs(c.peers, TrackKey(m.trackNamespace, m.trackName), p);
    } else if m.SubscribeOk? {
      OkClosesOwn(w, s, m.requestId, m.trackAlias, m.trackExtensions, c);
    } else if m.RequestError? || m.PublishDone? {
      EndingClosesOwn(cfg, w, s, ch, m, c);
    } else if m.Unsubscribe? {
      if RequestKey(s, m.requestId) in w.st.downIndex {
        OnlyUnsubs(c.peers, w.st.downIndex[RequestKey(s, m.requestId)], false, p);
      }
    }
  }

  lemma EndingClosesOwn(cfg: RelayConfig, w: World, s: SessionKey, ch: Channel, m: ControlMessage, c: Choice)
    requires s in w.st.sessions && (m.RequestError? || m.PublishDone?)
    ensures ClosesOwn(ControlPlan(cfg, w, s, ch, m, c), s)
  {
    if RequestKey(s, m.requestId) in w.st.upIndex {
      var t := w.st.upIndex[RequestKey(s, m.requestId)];
      OnlyEnds(c.subs, t, if m.RequestError? then Refused(m.errorCode, m.retryInterval, m.errorReason)
                          else Completed(m.statusCode, m.streamCount, m.errorReason), NoCloses());
      OnlyEnds(c.late, t, GONE, NoCloses());
    }
  }

  lemma OkClosesOwn(w: World, s: SessionKey, r: nat, alias: nat, exts: Extensions, c: Choice)
    requires s in w.st.sessions
    ensures ClosesOwn(SubscribeOkPlan(w, s, r, alias, exts, c), s)
  {
    var acts := SubscribeOkPlan(w, s, r, alias, exts, c);
    if acts[0].LegOk? {
      var t := w.st.upIndex[RequestKey(s, r)];
      if alias in w.st.sessions[s].inbound {
        assert acts == [LegOk(s, t, alias), Say(Close(s, DuplicateTrackAlias))];
      } else {
        OnlyGrants(c.subs, t, exts, NoCloses());
      }
    }
  }

  predicate EndsInClose(acts: seq<Act>, s: SessionKey, e: SessionError) {
    acts != [] && acts[|acts|-1] == Say(Close(s, e))
  }

  /** What is wrong is said, and only what is wrong. */
  ghost predicate Says(acts: seq<Act>, s: SessionKey, c: Option<SessionError>) {
    if c.Some? then EndsInClose(acts, s, c.value) else Only(acts, NoCloses())
  }

  /** A plan that neither begins with a close nor closes after a leg has been accepted closes nothing. */
  lemma OpensCalmly(acts: seq<Act>, s: SessionKey)
    requires ClosesOwn(acts, s)
    requires acts == [] || (!acts[0].Say? && (acts[0].LegOk? && |acts| == 2 ==> !acts[1].Say?))
    ensures Only(acts, NoCloses())
  {
  }

  lemma PlansSay(cfg: RelayConfig, w: World, x: Stimulus)
    requires Inv(w)
    ensures var s := x.event.session;
            Says(Plan(cfg, w, x.event, x.choice), s, Complaint(AccountIn(w.st, s), w.st, x.event))
  {
    PlansCloseOwn(cfg, w, x);
    match x.event
    case Control(s, ch, m) =>
      if s in w.st.sessions {
        assert SessionOk(w.st.sessions[s]);
        ControlClosesOwn(cfg, w, s, ch, m, x.choice);
        ControlSays(cfg, w, s, ch, m, x.choice);
      }
    case _ =>
  }

  lemma ControlSays(cfg: RelayConfig, w: World, s: SessionKey, ch: Channel, m: ControlMessage, c: Choice)
    requires Inv(w) && s in w.st.sessions && SessionOk(w.st.sessions[s])
    requires ClosesOwn(ControlPlan(cfg, w, s, ch, m, c), s)
    ensures Says(ControlPlan(cfg, w, s, ch, m, c), s, MessageComplaint(AccountOf(w.st.sessions[s]), w.st, s, m))
  {
    if m.Subscribe? || m.PublishNamespace? {
      RequestSays(cfg, w, s, ch, m, c);
    } else if m.Unsubscribe? {
      IndexedIffLive(w, RequestKey(s, m.requestId));
      UnsubscribeSays(w, s, m.requestId, c);
    } else if m.SubscribeOk? {
      OkSays(w, s, m.requestId, m.trackAlias, m.trackExtensions, c);
    } else if m.RequestError? || m.PublishDone? {
      EndingSays(cfg, w, s, ch, m, c);
    }
  }

  lemma RequestSays(cfg: RelayConfig, w: World, s: SessionKey, ch: Channel, m: ControlMessage, c: Choice)
    requires s in w.st.sessions && SessionOk(w.st.sessions[s]) && (m.Subscribe? || m.PublishNamespace?)
    requires ClosesOwn(ControlPlan(cfg, w, s, ch, m, c), s)
    ensures Says(ControlPlan(cfg, w, s, ch, m, c), s, IdComplaint(AccountOf(w.st.sessions[s]), m.requestId))
  {
    if IdComplaint(AccountOf(w.st.sessions[s]), m.requestId).None? {
      OpensCalmly(ControlPlan(cfg, w, s, ch, m, c), s);
    }
  }

  lemma UnsubscribeSays(w: World, s: SessionKey, id: nat, c: Choice)
    requires s in w.st.sessions && ClosesOwn(UnsubscribePlan(w, s, id, c), s)
    ensures Says(UnsubscribePlan(w, s, id, c), s,
                 ViolationUnless(w.st.sessions[s].setupDone && RequestKey(s, id) in w.st.downIndex))
  {
    if w.st.sessions[s].setupDone && RequestKey(s, id) in w.st.downIndex {
      OpensCalmly(UnsubscribePlan(w, s, id, c), s);
    }
  }

  lemma EndingSays(cfg: RelayConfig, w: World, s: SessionKey, ch: Channel, m: ControlMessage, c: Choice)
    requires s in w.st.sessions && (m.RequestError? || m.PublishDone?)
    requires ClosesOwn(ControlPlan(cfg, w, s, ch, m, c), s)
    ensures Says(ControlPlan(cfg, w, s, ch, m, c), s, ViolationUnless(w.st.sessions[s].setupDone))
  {
    if w.st.sessions[s].setupDone {
      OpensCalmly(ControlPlan(cfg, w, s, ch, m, c), s);
    }
  }

  lemma OkSays(w: World, s: SessionKey, r: nat, alias: nat, exts: Extensions, c: Choice)
    requires s in w.st.sessions && ClosesOwn(SubscribeOkPlan(w, s, r, alias, exts, c), s)
    ensures Says(SubscribeOkPlan(w, s, r, alias, exts, c), s,
                 if !w.st.sessions[s].setupDone || !AwaitsAnswer(w.st, s, r) then Some(ProtocolViolation)
                 else if alias in w.st.sessions[s].inbound then Some(DuplicateTrackAlias) else None)
  {
    var acts := SubscribeOkPlan(w, s, r, alias, exts, c);
    if w.st.sessions[s].setupDone && AwaitsAnswer(w.st, s, r) && alias !in w.st.sessions[s].inbound {
      OpensCalmly(acts, s);
    }
  }

  // ---- The CloseSession outputs ----

  function CloseIn(o: Obs): seq<(SessionKey, SessionError)> {
    if o.Tx? && o.output.Close? then [(o.output.session, o.output.error)] else []
  }

  function CloseView(): Obs -> seq<(SessionKey, SessionError)> { (o: Obs) => CloseIn(o) }

  /** Every CloseSession so far, with its error. */
  function Closes(log: seq<Obs>): seq<(SessionKey, SessionError)> { Collect(log, CloseView()) }

  lemma {:induction false} NothingClosed(w: World, acts: seq<Act>)
    requires Only(acts, NoCloses())
    ensures Closes(Exec(w, acts).log) == Closes(w.log)
  {
    if acts != [] {
      var n := |acts| - 1;
      var w1 := Exec(w, acts[..n]);
      NothingClosed(w, acts[..n]);
      assert NoCloses()(acts[n]);
      NoCloseAct(w1.st, acts[n]);
      ViewOfAct(w1, acts[n], CloseView());
    }
  }

  /** A close is the last act. */
  lemma CloseIsLast(acts: seq<Act>, s: SessionKey, e: SessionError)
    requires ClosesOwn(acts, s) && EndsInClose(acts, s, e)
    ensures acts == acts[..|acts|-1] + [Say(Close(s, e))] && Only(acts[..|acts|-1], NoCloses())
  {
  }

  lemma ClosesOfPlan(w: World, ev: Event, acts: seq<Act>, s: SessionKey, c: Option<SessionError>)
    requires ClosesOwn(acts, s) && Says(acts, s, c)
    ensures Closes(Exec(Receive(w, ev), acts).log) == Closes(w.log) + (if c.Some? then [(s, c.value)] else [])
    ensures Refuses(w, Exec(Receive(w, ev), acts)) <==> c.Some?
  {
    CollectSnoc(w.log, Rx(ev), CloseView());
    if c.None? {
      NothingClosed(Receive(w, ev), acts);
      NoCloseStep(w, ev, acts);
    } else {
      CloseIsLast(acts, s, c.value);
      ClosedLast(w, ev, acts[..|acts|-1], s, c.value);
    }
  }

  lemma ClosedLast(w: World, ev: Event, acts: seq<Act>, s: SessionKey, e: SessionError)
    requires Only(acts, NoCloses())
    ensures var w' := Exec(Receive(w, ev), acts + [Say(Close(s, e))]);
            Refuses(w, w') && Closes(w'.log) == Closes(Receive(w, ev).log) + [(s, e)]
  {
    var w1 := Receive(w, ev);
    LogPrefix(w1, acts);
    NothingClosed(w1, acts);
    ExecSnoc(w1, acts, Say(Close(s, e)));
    ViewOfAct(Exec(w1, acts), Say(Close(s, e)), CloseView());
    var log' := Exec(w1, acts + [Say(Close(s, e))]).log;
    assert log'[|log'|-1] == Tx(Close(s, e));
  }

  /** One step closes the session of its event if there is something wrong with that, and nobody otherwise. */
  lemma ClosesOfStep(cfg: RelayConfig, w: World, x: Stimulus)
    requires Inv(w) && TraceInv(w)
    ensures var c := Complaint(AccountIn(w.st, x.event.session), w.st, x.event);
            && Closes(Step(cfg, w, x).log)
               == Closes(w.log) + (if c.Some? then [(x.event.session, c.value)] else [])
            && (Refuses(w, Step(cfg, w, x)) <==> c.Some?)
  {
    var w1 := Receive(w, x.event);
    ReceiveKeeps(w, x.event);
    PlansCloseOwn(cfg, w1, x);
    PlansSay(cfg, w1, x);
    ClosesOfPlan(w, x.event, Plan(cfg, w1, x.event, x.choice), x.event.session,
                 Complaint(AccountIn(w.st, x.event.session), w.st, x.event));
  }
}
