/** What the relay knows of a session is what the events have said: its record is computed here from the events
    of a run alone. */
module RelayHistory {
  import opened MoqTypes
  import opened RelayState
  import opened RelayLog
  import opened RelayActs
  import opened RelayPlan
  import opened RelayInv
  import opened RelayTrace
  import opened RelayLegal
  import opened RelayRuns
  import opened RelayFinality
  import opened RelayTheorems
  import opened RelayMatching
  import opened RelayRefusals

  // ---- What the events say ----

  /** A lookup gives the first varint value under its key. */
  lemma {:induction false} ParameterIsFirst(ps: Parameters, key: nat, n: nat)
    ensures VarintParameter(ps, key) == Some(n)
       <==> exists i :: 0 <= i < |ps| && ps[i] == KeyValuePair(key, Varint(n))
                        && forall j :: 0 <= j < i ==> ps[j].key != key || !ps[j].value.Varint?
  {
    if ps != [] && (ps[0].key != key || !ps[0].value.Varint?) {
      var rest := ps[1..];
      ParameterIsFirst(rest, key, n);
      assert forall i :: 0 <= i < |rest| ==> rest[i] == ps[i + 1];
      if i :| 0 <= i < |ps| && ps[i] == KeyValuePair(key, Varint(n))
              && forall j :: 0 <= j < i ==> ps[j].key != key || !ps[j].value.Varint? {
        assert rest[i - 1] == KeyValuePair(key, Varint(n));
      }
      if i :| 0 <= i < |rest| && rest[i] == KeyValuePair(key, Varint(n))
              && forall j :: 0 <= j < i ==> rest[j].key != key || !rest[j].value.Varint? {
        assert forall j :: 0 < j < i + 1 ==> ps[j] == rest[j - 1];
        assert ps[i + 1] == KeyValuePair(key, Varint(n));
      }
    }
  }

  /** A client begins with 0 and a server with 1 (section 9.1); what is local to the one is the peer's to the other. */
  function NewAccount(cfg: RelayConfig, role: EndpointRole): Account {
    Account(role, false, false, None, if role.Server? then 0 else 1, cfg.initialLocalMax, cfg.initialPeerMax, {}, map[])
  }

  /** The track the relay asked for under an id. */
  function AskedTrack(log: seq<Obs>, x: RequestKey): TrackKey {
    var ms := LegMsgs(log, x);
    if ms != [] && ms[0].Asked? then ms[0].track else TrackKey([], [])
  }

  /** The MAX_REQUEST_ID parameter, if there is one. */
  function LimitFrom(ps: Parameters, otherwise: nat): nat {
    var max := VarintParameter(ps, 2);
    if max.Some? then max.value else otherwise
  }

  /** A message of the session that has been accepted. */
  function AfterMessage(a: Account, log: seq<Obs>, s: SessionKey, m: ControlMessage): Account {
    match m
    case ClientSetup(_) => a.(setUp := true)
    case ServerSetup(ps) => a.(setUp := true, peerLimit := LimitFrom(ps, a.peerLimit))
    case MaxRequestId(n) => a.(peerLimit := n + 1)
    case Goaway(uri) => a.(goaway := true, uri := if uri == [] then None else Some(uri))
    case PublishNamespace(id, ns, _) => a.(next := id + 2, published := a.published + {ns})
    case Subscribe(id, _, _, _) => a.(next := id + 2)
    case SubscribeOk(r, alias, _, _) => a.(bound := a.bound[alias := AskedTrack(log, RequestKey(s, r))])
    case _ => a
  }

  function AfterEvent(cfg: RelayConfig, log: seq<Obs>, ev: Event, refused: bool, a: Option<Account>): Option<Account> {
    match ev
    case SessionOpened(_, role) => Some(NewAccount(cfg, role))
    case SessionClosed(_) => None
    case Control(s, _, m) => if refused || a.None? then a else Some(AfterMessage(a.value, log, s, m))
    case _ => a
  }

  /** What the events of a run say of session s: nothing before it opens and after it closes. */
  ghost function Told(cfg: RelayConfig, run: seq<Stimulus>, s: SessionKey): Option<Account> {
    if run == [] then None else
    var pre, ev := run[..|run|-1], run[|run|-1].event;
    if ev.session != s then Told(cfg, pre, s)
    else AfterEvent(cfg, Reach(cfg, pre).log, ev, Refuses(Reach(cfg, pre), Reach(cfg, run)), Told(cfg, pre, s))
  }

  // ---- Acts that leave the record alone ----

  predicate Touches(a: Act, s: SessionKey) {
    || ((a.Open? || a.Touch? || a.Announce? || a.Depart?) && a.s == s)
    || (a.AddSub? && a.k.session == s)
    || (a.Bind? && a.p == s)
  }

  function Leaves(s: SessionKey): Act -> bool { (a: Act) => !Touches(a, s) }

  lemma AccountStays(w: World, act: Act, s: SessionKey)
    requires Enabled(w, act) && !Touches(act, s)
    ensures AccountIn(Apply(w.st, act), s) == AccountIn(w.st, s)
  {
  }

  lemma {:induction false} AccountStaysRun(w: World, acts: seq<Act>, s: SessionKey)
    requires Legal(w, acts) && Only(acts, Leaves(s))
    ensures AccountIn(Exec(w, acts).st, s) == AccountIn(w.st, s)
  {
    if acts != [] {
      var n := |acts| - 1;
      AccountStaysRun(w, acts[..n], s);
      assert Leaves(s)(acts[n]);
      AccountStays(Exec(w, acts[..n]), acts[n], s);
    }
  }

  // ---- Where a plan writes the record ----

  /** p fails only of acts that write a session's record, or the extensions of a track. */
  ghost predicate FailsOnlyOnRecords(p: Act -> bool) {
    forall a: Act ::
      p(a) || a.Open? || a.Touch? || a.Announce? || a.Depart? || a.AddSub? || a.Bind? || a.SetExtensions?
  }

  /** Or of what is said, other than a close. */
  ghost predicate FailsOnlyOnWords(p: Act -> bool) {
    forall a: Act ::
      p(a) || a.Open? || a.Touch? || a.Announce? || a.Depart? || a.AddSub? || a.Bind? || a.SetExtensions?
      || (a.Say? && !a.out.Close?)
  }

  ghost predicate HoldsOfExtensions(p: Act -> bool) { forall t, exts :: p(SetExtensions(t, exts)) }

  /** After the first act for a message only the binding of an alias writes a record. */
  ghost predicate RestOnly(acts: seq<Act>, s: SessionKey, p: Act -> bool) {
    forall i :: 1 <= i < |acts| ==> p(acts[i]) || (i == 1 && acts[i].Bind? && acts[i].p == s)
  }

  lemma ControlRest(cfg: RelayConfig, w: World, s: SessionKey, ch: Channel, m: ControlMessage, c: Choice,
                    p: Act -> bool)
    requires FailsOnlyOnRecords(p) && (m.SubscribeOk? ==> HoldsOfExtensions(p))
    ensures RestOnly(ControlPlan(cfg, w, s, ch, m, c), s, p)
  {
    if s in w.st.sessions {
      if m.PublishNamespace? {
        OnlyOffers(c.tracks, s, m.trackNamespace, p);
      } else if m.Subscribe? {
        OnlyOpenLegs(c.peers, TrackKey(m.trackNamespace, m.trackName), p);
      } else if m.SubscribeOk? {
        OkRest(w, s, m.requestId, m.trackAlias, m.trackExtensions, c, p);
      } else if m.RequestError? || m.PublishDone? || m.Unsubscribe? {
        EndingOnly(cfg, w, s, ch, m, c, p);
      }
    }
  }

  lemma OkRest(w: World, s: SessionKey, r: nat, alias: nat, exts: Extensions, c: Choice, p: Act -> bool)
    requires s in w.st.sessions && FailsOnlyOnRecords(p) && HoldsOfExtensions(p)
    ensures RestOnly(SubscribeOkPlan(w, s, r, alias, exts, c), s, p)
  {
    if RequestKey(s, r) in w.st.upIndex {
      OnlyGrants(c.subs, w.st.upIndex[RequestKey(s, r)], exts, p);
    }
  }

  /** Messages that end something write no record. */
  lemma EndingOnly(cfg: RelayConfig, w: World, s: SessionKey, ch: Channel, m: ControlMessage, c: Choice, p: Act -> bool)
    requires FailsOnlyOnWords(p) && s in w.st.sessions && (m.RequestError? || m.PublishDone? || m.Unsubscribe?)
    ensures Only(ControlPlan(cfg, w, s, ch, m, c), p)
  {
    var x := RequestKey(s, m.requestId);
    if m.RequestError? && x in w.st.upIndex {
      OnlyEnds(c.subs, w.st.upIndex[x], Refused(m.errorCode, m.retryInterval, m.errorReason), p);
    } else if m.PublishDone? && x in w.st.upIndex {
      OnlyEnds(c.subs, w.st.upIndex[x], Completed(m.statusCode, m.streamCount, m.errorReason), p);
      OnlyEnds(c.late, w.st.upIndex[x], GONE, p);
    } else if m.Unsubscribe? && x in w.st.downIndex {
      OnlyUnsubs(c.peers, w.st.downIndex[x], false, p);
    }
  }

  lemma {:induction false} LeavingRest(st: State, s: SessionKey, order: seq<TrackKey>,
                                       legs: map<TrackKey, seq<SessionKey>>, p: Act -> bool)
    requires FailsOnlyOnWords(p)
    ensures Only(LeaveTracks(st, s, order, legs), p)
  {
    if order != [] {
      var n := |order| - 1;
      LeavingRest(st, s, order[..n], legs, p);
      OnlyUnsubs(if order[n] in legs then legs[order[n]] else [], order[n], true, p);
    }
  }

  // ---- One step ----

  /** Events of other sessions leave the record alone. */
  lemma OthersLeave(cfg: RelayConfig, w: World, x: Stimulus, s: SessionKey)
    requires x.event.session != s
    ensures Only(Plan(cfg, w, x.event, x.choice), Leaves(s))
  {
    match x.event
    case SessionOpened(_, _) =>
    case SessionClosed(q) => LeavingRest(w.st, q, x.choice.tracks, x.choice.legs, Leaves(s));
    case Control(q, ch, m) =>
      ControlRest(cfg, w, q, ch, m, x.choice, Leaves(s));
      HeadLeaves(cfg, w, q, ch, m, x.choice, s);
    case ObjectReceived(q, alias, body) => ObjectLeaves(w, q, alias, body, x.choice);
    case FetchObjectReceived(_) =>
  }

  lemma HeadLeaves(cfg: RelayConfig, w: World, q: SessionKey, ch: Channel, m: ControlMessage, c: Choice, s: SessionKey)
    requires q != s && RestOnly(ControlPlan(cfg, w, q, ch, m, c), q, Leaves(s))
    ensures Only(ControlPlan(cfg, w, q, ch, m, c), Leaves(s))
  {
    var acts := ControlPlan(cfg, w, q, ch, m, c);
    HeadTouchesOwn(cfg, w, q, ch, m, c);
    assert acts != [] ==> Leaves(s)(acts[0]);
  }

  /** The first act writes the record of the message's own session, if any. */
  lemma HeadTouchesOwn(cfg: RelayConfig, w: World, q: SessionKey, ch: Channel, m: ControlMessage, c: Choice)
    ensures var acts := ControlPlan(cfg, w, q, ch, m, c); forall s :: acts != [] && Touches(acts[0], s) ==> s == q
  {
  }

  lemma FirstAct(w: World, acts: seq<Act>, s: SessionKey)
    requires Legal(w, acts) && acts != [] && Only(acts[1..], Leaves(s))
    ensures AccountIn(Exec(w, acts).st, s) == AccountIn(Apply(w.st, acts[0]), s)
  {
    assert acts == [acts[0]] + acts[1..];
    ExecAppend(w, [acts[0]], acts[1..]);
    SingleAct(w, acts[0]);
    AccountStaysRun(ApplyWorld(w, acts[0]), acts[1..], s);
  }

  lemma SecondAct(w: World, acts: seq<Act>, s: SessionKey)
    requires Legal(w, acts) && |acts| >= 2 && !Touches(acts[0], s) && Only(acts[2..], Leaves(s))
    ensures AccountIn(Exec(w, acts).st, s) == AccountIn(Apply(Apply(w.st, acts[0]), acts[1]), s)
    ensures AccountIn(Apply(w.st, acts[0]), s) == AccountIn(w.st, s)
  {
    assert acts == [acts[0]] + acts[1..] && acts[1..][1..] == acts[2..];
    ExecAppend(w, [acts[0]], acts[1..]);
    SingleAct(w, acts[0]);
    AccountStays(w, acts[0], s);
    FirstAct(ApplyWorld(w, acts[0]), acts[1..], s);
  }

  /** A refusal leaves the record as it is. */
  lemma RefusalLeaves(acts: seq<Act>, s: SessionKey, e: SessionError)
    requires ClosesOwn(acts, s) && EndsInClose(acts, s, e)
    ensures Only(acts, Leaves(s))
  {
  }

  /** The first message or act that writes anything writes what the message says. */
  lemma SettingsTold(cfg: RelayConfig, w: World, s: SessionKey, ch: Channel, m: ControlMessage, c: Choice)
    requires s in w.st.sessions && MessageComplaint(AccountOf(w.st.sessions[s]), w.st, s, m).None?
    requires m.ClientSetup? || m.ServerSetup? || m.MaxRequestId? || m.Goaway?
    ensures var acts := ControlPlan(cfg, w, s, ch, m, c);
            && acts != []
            && AccountIn(Apply(w.st, acts[0]), s) == Some(AfterMessage(AccountOf(w.st.sessions[s]), w.log, s, m))
  {
  }

  lemma RequestTold(cfg: RelayConfig, w: World, s: SessionKey, ch: Channel, m: ControlMessage, c: Choice)
    requires s in w.st.sessions && SessionOk(w.st.sessions[s])
    requires (m.PublishNamespace? || m.Subscribe?) && IdComplaint(AccountOf(w.st.sessions[s]), m.requestId).None?
    ensures var acts := ControlPlan(cfg, w, s, ch, m, c);
            && acts != []
            && AccountIn(Apply(w.st, acts[0]), s) == Some(AfterMessage(AccountOf(w.st.sessions[s]), w.log, s, m))
  {
    if m.PublishNamespace? {
      AnnouncedTold(w.st, s, m.trackNamespace);
    } else {
      AddedTold(w.st, RequestKey(s, m.requestId), TrackKey(m.trackNamespace, m.trackName), m.parameters);
    }
  }

  lemma AnnouncedTold(st: State, s: SessionKey, ns: Namespace)
    requires s in st.sessions
    ensures var a := AccountOf(st.sessions[s]);
            AccountIn(Apply(st, Announce(s, ns)), s) == Some(a.(next := a.next + 2, published := a.published + {ns}))
  {
  }

  lemma AddedTold(st: State, k: RequestKey, t: TrackKey, params: Parameters)
    requires k.session in st.sessions
    ensures var a := AccountOf(st.sessions[k.session]);
            AccountIn(Apply(st, AddSub(k, t, params)), k.session) == Some(a.(next := a.next + 2))
  {
  }

  lemma AskedIsIndexed(w: World, x: RequestKey)
    requires Inv(w) && TraceInv(w) && x in w.st.upIndex && x.session in w.st.sessions
    ensures AskedTrack(w.log, x) == w.st.upIndex[x]
  {
    assert LegMsgsFit(w, x, LegMsgs(w.log, x));
  }

  lemma OkTold(w: World, s: SessionKey, r: nat, alias: nat, ps: Parameters, exts: Extensions, c: Choice)
    requires Inv(w) && TraceInv(w) && s in w.st.sessions
    requires MessageComplaint(AccountOf(w.st.sessions[s]), w.st, s, SubscribeOk(r, alias, ps, exts)).None?
    requires Legal(w, SubscribeOkPlan(w, s, r, alias, exts, c))
    ensures AccountIn(Exec(w, SubscribeOkPlan(w, s, r, alias, exts, c)).st, s)
         == Some(AfterMessage(AccountOf(w.st.sessions[s]), w.log, s, SubscribeOk(r, alias, ps, exts)))
  {
    AskedIsIndexed(w, RequestKey(s, r));
    OkBinds(w, s, r, alias, exts, c);
  }

  lemma OkBinds(w: World, s: SessionKey, r: nat, alias: nat, exts: Extensions, c: Choice)
    requires s in w.st.sessions && w.st.sessions[s].setupDone && AwaitsAnswer(w.st, s, r)
    requires alias !in w.st.sessions[s].inbound && Legal(w, SubscribeOkPlan(w, s, r, alias, exts, c))
    ensures AccountIn(Exec(w, SubscribeOkPlan(w, s, r, alias, exts, c)).st, s)
         == Some(AccountOf(w.st.sessions[s]).(
                   bound := w.st.sessions[s].inbound[alias := w.st.upIndex[RequestKey(s, r)]]))
  {
    var acts := SubscribeOkPlan(w, s, r, alias, exts, c);
    OkShape(w, s, r, alias, exts, c);
    SecondAct(w, acts, s);
    BoundTold(Apply(w.st, acts[0]), s, r, alias, w.st.upIndex[RequestKey(s, r)]);
  }

  lemma OkShape(w: World, s: SessionKey, r: nat, alias: nat, exts: Extensions, c: Choice)
    requires s in w.st.sessions && w.st.sessions[s].setupDone && AwaitsAnswer(w.st, s, r)
    requires alias !in w.st.sessions[s].inbound
    ensures var acts, t := SubscribeOkPlan(w, s, r, alias, exts, c), w.st.upIndex[RequestKey(s, r)];
            |acts| >= 2 && acts[0] == LegOk(s, t, alias) && acts[1] == Bind(s, r, alias, t)
            && Only(acts[2..], Leaves(s))
  {
    var acts := SubscribeOkPlan(w, s, r, alias, exts, c);
    OkRest(w, s, r, alias, exts, c, Leaves(s));
    assert forall i :: 0 <= i < |acts[2..]| ==> acts[2..][i] == acts[i + 2];
  }

  lemma BoundTold(st: State, s: SessionKey, r: nat, alias: nat, t: TrackKey)
    requires s in st.sessions
    ensures AccountIn(Apply(st, Bind(s, r, alias, t)), s)
         == Some(AccountOf(st.sessions[s]).(bound := st.sessions[s].inbound[alias := t]))
  {
  }

  /** An accepted message writes what it says. */
  lemma AcceptedTold(cfg: RelayConfig, w: World, s: SessionKey, ch: Channel, m: ControlMessage, c: Choice)
    requires Inv(w) && TraceInv(w) && s in w.st.sessions && SessionOk(w.st.sessions[s])
    requires MessageComplaint(AccountOf(w.st.sessions[s]), w.st, s, m).None?
    requires Legal(w, ControlPlan(cfg, w, s, ch, m, c))
    ensures AccountIn(Exec(w, ControlPlan(cfg, w, s, ch, m, c)).st, s)
         == Some(AfterMessage(AccountOf(w.st.sessions[s]), w.log, s, m))
  {
    var acts := ControlPlan(cfg, w, s, ch, m, c);
    if m.SubscribeOk? {
      OkTold(w, s, m.requestId, m.trackAlias, m.parameters, m.trackExtensions, c);
    } else if Settles(m) {
      ControlRest(cfg, w, s, ch, m, c, Leaves(s));
      HeadTold(cfg, w, s, ch, m, c);
      FirstAct(w, acts, s);
    } else {
      OtherMessages(cfg, w, s, ch, m, c);
      AccountStaysRun(w, acts, s);
    }
  }

  /** Messages that write the record in their first act. */
  predicate Settles(m: ControlMessage) {
    m.ClientSetup? || m.ServerSetup? || m.MaxRequestId? || m.Goaway? || m.PublishNamespace? || m.Subscribe?
  }

  lemma HeadTold(cfg: RelayConfig, w: World, s: SessionKey, ch: Channel, m: ControlMessage, c: Choice)
    requires s in w.st.sessions && SessionOk(w.st.sessions[s]) && Settles(m)
    requires MessageComplaint(AccountOf(w.st.sessions[s]), w.st, s, m).None?
    requires RestOnly(ControlPlan(cfg, w, s, ch, m, c), s, Leaves(s))
    ensures var acts := ControlPlan(cfg, w, s, ch, m, c);
            && acts != [] && Only(acts[1..], Leaves(s))
            && AccountIn(Apply(w.st, acts[0]), s) == Some(AfterMessage(AccountOf(w.st.sessions[s]), w.log, s, m))
  {
    if m.PublishNamespace? || m.Subscribe? {
      RequestTold(cfg, w, s, ch, m, c);
    } else {
      SettingsTold(cfg, w, s, ch, m, c);
    }
    NoBindNext(cfg, w, s, ch, m, c);
  }

  lemma NoBindNext(cfg: RelayConfig, w: World, s: SessionKey, ch: Channel, m: ControlMessage, c: Choice)
    requires s in w.st.sessions && Settles(m)
    ensures var acts := ControlPlan(cfg, w, s, ch, m, c); |acts| > 1 ==> !acts[1].Bind?
  {
    if m.Subscribe? && c.peers != [] {
      OnlyOpenLegs(c.peers, TrackKey(m.trackNamespace, m.trackName), (a: Act) => !a.Bind?);
      var legs := OpenLegs(c.peers, TrackKey(m.trackNamespace, m.trackName));
      assert legs != [] ==> !legs[0].Bind?;
    }
  }

  lemma OtherMessages(cfg: RelayConfig, w: World, s: SessionKey, ch: Channel, m: ControlMessage, c: Choice)
    requires s in w.st.sessions && !Settles(m) && !m.SubscribeOk?
    ensures Only(ControlPlan(cfg, w, s, ch, m, c), Leaves(s))
  {
    if m.RequestError? || m.PublishDone? || m.Unsubscribe? {
      EndingOnly(cfg, w, s, ch, m, c, Leaves(s));
    }
  }

  lemma OwnMessage(cfg: RelayConfig, w: World, w1: World, s: SessionKey, ch: Channel, m: ControlMessage, c: Choice)
    requires Inv(w) && TraceInv(w) && w1 == Receive(w, Control(s, ch, m))
    requires Legal(w1, ControlPlan(cfg, w1, s, ch, m, c))
    ensures var a, bad := AccountIn(w.st, s), Complaint(AccountIn(w.st, s), w.st, Control(s, ch, m));
            AccountIn(Exec(w1, ControlPlan(cfg, w1, s, ch, m, c)).st, s)
            == if bad.Some? || a.None? then a else Some(AfterMessage(a.value, w.log, s, m))
  {
    var acts := ControlPlan(cfg, w1, s, ch, m, c);
    var bad := Complaint(AccountIn(w.st, s), w.st, Control(s, ch, m));
    ReceiveKeeps(w, Control(s, ch, m));
    if bad.Some? {
      PlansCloseOwn(cfg, w1, Stimulus(Control(s, ch, m), c));
      PlansSay(cfg, w1, Stimulus(Control(s, ch, m), c));
      RefusalLeaves(acts, s, bad.value);
      AccountStaysRun(w1, acts, s);
    } else {
      assert SessionOk(w.st.sessions[s]);
      AcceptedTold(cfg, w1, s, ch, m, c);
      SameAsked(w, Control(s, ch, m), s, m);
    }
  }

  /** An event received asks for nothing. */
  lemma SameAsked(w: World, ev: Event, s: SessionKey, m: ControlMessage)
    requires s in w.st.sessions
    ensures var a := AccountOf(w.st.sessions[s]);
            AfterMessage(a, Receive(w, ev).log, s, m) == AfterMessage(a, w.log, s, m)
  {
    if m.SubscribeOk? { ReceiveLegMsgs(w, ev, RequestKey(s, m.requestId)); }
  }

  /** A session's own event writes what it says. */
  lemma OwnStep(cfg: RelayConfig, w: World, x: Stimulus)
    requires ConfigOk(cfg) && Inv(w) && TraceInv(w) && Admissible(w, x)
    ensures var s := x.event.session;
            AccountIn(Step(cfg, w, x).st, s)
            == AfterEvent(cfg, w.log, x.event, Refuses(w, Step(cfg, w, x)), AccountIn(w.st, s))
  {
    PlanLegal(cfg, w, x);
    ClosesOfStep(cfg, w, x);
    match x.event
    case Control(s, ch, m) => OwnMessage(cfg, w, Receive(w, x.event), s, ch, m, x.choice);
    case _ => OwnOther(cfg, Receive(w, x.event), x);
  }

  lemma OwnOther(cfg: RelayConfig, w: World, x: Stimulus)
    requires !x.event.Control? && Legal(w, Plan(cfg, w, x.event, x.choice))
    ensures AccountIn(Exec(w, Plan(cfg, w, x.event, x.choice)).st, x.event.session)
         == match x.event
            case SessionOpened(_, role) => Some(NewAccount(cfg, role))
            case SessionClosed(_) => None
            case _ => AccountIn(w.st, x.event.session)
  {
    if x.event.SessionOpened? {
      SingleAct(w, Open(x.event.session, x.event.role, cfg.initialLocalMax, cfg.initialPeerMax));
    } else if x.event.SessionClosed? {
      ExecSnoc(w, LeaveTracks(w.st, x.event.session, x.choice.tracks, x.choice.legs),
               Depart(x.event.session, HadLeg(w.st, x.event.session)));
    } else if x.event.ObjectReceived? {
      ObjectLeaves(w, x.event.session, x.event.alias, x.event.body, x.choice);
      AccountStaysRun(w, Plan(cfg, w, x.event, x.choice), x.event.session);
    }
  }

  lemma ObjectLeaves(w: World, q: SessionKey, alias: nat, body: ObjectBody, c: Choice)
    ensures forall s :: Only(ObjectPlan(w, q, alias, body, c), Leaves(s))
  {
    if q in w.st.sessions && alias in w.st.sessions[q].inbound {
      forall s ensures Only(ObjectPlan(w, q, alias, body, c), Leaves(s)) {
        OnlyForwards(c.subs, w.st.sessions[q].inbound[alias], body, Leaves(s));
      }
    }
  }

  // ---- Whole runs ----

  /** The relay's record of a session is what the events say: there is one exactly from its opening to its
      closing, and then every field of it is theirs. */
  lemma {:induction false} RecordIsTold(cfg: RelayConfig, run: seq<Stimulus>, s: SessionKey)
    requires ConfigOk(cfg) && ValidRun(cfg, run)
    ensures AccountIn(Reach(cfg, run).st, s) == Told(cfg, run, s)
  {
    if run != [] {
      var pre, x := run[..|run|-1], run[|run|-1];
      Reachable(cfg, pre);
      RecordIsTold(cfg, pre, s);
      RecordStep(cfg, Reach(cfg, pre), x, s);
    }
  }

  lemma RecordStep(cfg: RelayConfig, w: World, x: Stimulus, s: SessionKey)
    requires ConfigOk(cfg) && Inv(w) && TraceInv(w) && Admissible(w, x)
    ensures AccountIn(Step(cfg, w, x).st, s)
         == if x.event.session != s then AccountIn(w.st, s)
            else AfterEvent(cfg, w.log, x.event, Refuses(w, Step(cfg, w, x)), AccountIn(w.st, s))
  {
    if x.event.session == s {
      OwnStep(cfg, w, x);
    } else {
      PlanLegal(cfg, w, x);
      OthersLeave(cfg, Receive(w, x.event), x, s);
      AccountStaysRun(Receive(w, x.event), Plan(cfg, Receive(w, x.event), x.event, x.choice), s);
    }
  }

  /** Every event closes its own session, once and with the error due, if there is something wrong with it in the
      light of the events before, and closes nobody otherwise. */
  lemma ClosesExactly(cfg: RelayConfig, run: seq<Stimulus>, x: Stimulus)
    requires ConfigOk(cfg) && ValidRun(cfg, run + [x])
    ensures var s := x.event.session;
            var bad := Complaint(Told(cfg, run, s), Reach(cfg, run).st, x.event);
            Closes(Reach(cfg, run + [x]).log) == Closes(Reach(cfg, run).log)
            + (if bad.Some? then [(s, bad.value)] else [])
  {
    SplitStep(cfg, run, x);
    Reachable(cfg, run);
    RecordIsTold(cfg, run, x.event.session);
    ClosesOfStep(cfg, Reach(cfg, run), x);
  }

  // ---- The limit in force (section 9.1) ----

  function LimitAfter(cfg: RelayConfig, ev: Event, refused: bool, limit: nat): nat {
    if ev.SessionOpened? then cfg.initialPeerMax
    else if ev.Control? && ev.message.MaxRequestId? then
      (if ev.message.maxRequestId + 1 > limit then ev.message.maxRequestId + 1 else limit)
    else if ev.Control? && ev.message.ServerSetup? && !refused then LimitFrom(ev.message.parameters, limit)
    else limit
  }

  /** The limit on the relay's request ids: what has been configured, then what SERVER_SETUP has announced, and
      then one more than any MAX_REQUEST_ID that raises it. */
  ghost function LimitInForce(cfg: RelayConfig, run: seq<Stimulus>, s: SessionKey): nat {
    if run == [] then 0 else
    var pre, ev := run[..|run|-1], run[|run|-1].event;
    if ev.session != s then LimitInForce(cfg, pre, s)
    else LimitAfter(cfg, ev, Refuses(Reach(cfg, pre), Reach(cfg, run)), LimitInForce(cfg, pre, s))
  }

  lemma AfterLimit(cfg: RelayConfig, log: seq<Obs>, ev: Event, refused: bool, a: Option<Account>, limit: nat)
    requires AfterEvent(cfg, log, ev, refused, a).Some? && (a.Some? ==> a.value.peerLimit == limit)
    requires a.Some? && ev.Control? && ev.message.MaxRequestId? ==> (refused <==> ev.message.maxRequestId + 1 <= limit)
    ensures AfterEvent(cfg, log, ev, refused, a).value.peerLimit == LimitAfter(cfg, ev, refused, limit)
  {
  }

  lemma {:induction false} LimitIsTold(cfg: RelayConfig, run: seq<Stimulus>, s: SessionKey)
    requires ConfigOk(cfg) && ValidRun(cfg, run) && Told(cfg, run, s).Some?
    ensures Told(cfg, run, s).value.peerLimit == LimitInForce(cfg, run, s)
  {
    var pre, x := run[..|run|-1], run[|run|-1];
    if Told(cfg, pre, s).Some? { LimitIsTold(cfg, pre, s); }
    if x.event.session == s {
      MaxIsRefusedIff(cfg, run, s);
      AfterLimit(cfg, Reach(cfg, pre).log, x.event, Refuses(Reach(cfg, pre), Reach(cfg, run)), Told(cfg, pre, s),
                 LimitInForce(cfg, pre, s));
    }
  }

  /** MAX_REQUEST_ID is refused exactly when it does not raise the limit. */
  lemma MaxIsRefusedIff(cfg: RelayConfig, run: seq<Stimulus>, s: SessionKey)
    requires ConfigOk(cfg) && ValidRun(cfg, run) && run != []
    ensures var pre, ev := run[..|run|-1], run[|run|-1].event;
            ev.Control? && ev.session == s && ev.message.MaxRequestId? && Told(cfg, pre, s).Some? ==>
              (Refuses(Reach(cfg, pre), Reach(cfg, run))
               <==> ev.message.maxRequestId + 1 <= Told(cfg, pre, s).value.peerLimit)
  {
    var pre, x := run[..|run|-1], run[|run|-1];
    Reachable(cfg, pre);
    RecordIsTold(cfg, pre, s);
    ClosesOfStep(cfg, Reach(cfg, pre), x);
  }

  /** SUBSCRIBE ids sent to p: consecutive steps of two from 1 if the relay is the server and from 0 if it is the
      client, all below the limit in force. */
  lemma IssuedIdsConsecutive(cfg: RelayConfig, run: seq<Stimulus>, p: SessionKey)
    requires ConfigOk(cfg) && ValidRun(cfg, run) && Told(cfg, run, p).Some?
    ensures var ids, first := IssuedIds(Reach(cfg, run).log, p), if Told(cfg, run, p).value.role.Server? then 1 else 0;
            && (forall i :: 0 <= i < |ids| ==> ids[i] == first + 2 * i && ids[i] < LimitInForce(cfg, run, p))
            && p in Reach(cfg, run).st.sessions
            && Reach(cfg, run).st.sessions[p].localNext == first + 2 * |ids|
            && Reach(cfg, run).st.sessions[p].peerMax == LimitInForce(cfg, run, p)
  {
    RecordIsTold(cfg, run, p);
    LimitIsTold(cfg, run, p);
    IssuedIdsFit(cfg, run, p);
  }

  /** Request ids accepted from s: consecutive steps of two from 0 if the relay is the server and from 1 if it is
      the client, all below the configured limit. */
  lemma AcceptedIdsConsecutive(cfg: RelayConfig, run: seq<Stimulus>, s: SessionKey)
    requires ConfigOk(cfg) && ValidRun(cfg, run) && Told(cfg, run, s).Some?
    ensures var ids, a := AcceptedIds(cfg, run, s), Told(cfg, run, s).value;
            var first := if a.role.Server? then 0 else 1;
            && (forall i :: 0 <= i < |ids| ==> ids[i] == first + 2 * i && ids[i] < cfg.initialLocalMax)
            && a.next == first + 2 * |ids|
  {
    RecordIsTold(cfg, run, s);
    AcceptedIdsFit(cfg, run, s);
    Reachable(cfg, run);
    LocalLimitStays(cfg, run, s);
    assert SessionOk(Reach(cfg, run).st.sessions[s]);
  }

  lemma LocalLimitKept(cfg: RelayConfig, log: seq<Obs>, ev: Event, refused: bool, a: Option<Account>)
    requires AfterEvent(cfg, log, ev, refused, a).Some? && (a.Some? ==> a.value.localLimit == cfg.initialLocalMax)
    ensures AfterEvent(cfg, log, ev, refused, a).value.localLimit == cfg.initialLocalMax
  {
  }

  /** The limit set for the other side is the configured one for good. */
  lemma {:induction false} LocalLimitStays(cfg: RelayConfig, run: seq<Stimulus>, s: SessionKey)
    requires Told(cfg, run, s).Some?
    ensures Told(cfg, run, s).value.localLimit == cfg.initialLocalMax
  {
    var pre, ev := run[..|run|-1], run[|run|-1].event;
    if Told(cfg, pre, s).Some? { LocalLimitStays(cfg, pre, s); }
    if ev.session == s {
      LocalLimitKept(cfg, Reach(cfg, pre).log, ev, Refuses(Reach(cfg, pre), Reach(cfg, run)), Told(cfg, pre, s));
    }
  }
}
