/** What each handler of `relay.rs` does with an event, as a sequence of acts. Wherever the
    source iterates over a hash map the order is a free choice. */
module RelayPlan {
  import opened MoqTypes
  import opened RelayState
  import opened RelayActs

  /** The iteration orders the hash maps happen to have during one event. */
  datatype Choice = Choice(peers: seq<SessionKey>, tracks: seq<TrackKey>, subs: seq<RequestKey>,
                           late: seq<RequestKey>, legs: map<TrackKey, seq<SessionKey>>)

  const NO_PUBLISHER: Bytes := [110, 111, 32, 112, 117, 98, 108, 105, 115, 104, 101, 114, 32, 102, 111, 114, 32,
                                110, 97, 109, 101, 115, 112, 97, 99, 101]
  const PUBLISHER_GONE: Bytes := [112, 117, 98, 108, 105, 115, 104, 101, 114, 32, 100, 111, 110, 101]

  /** How the Pending subscriptions end when the last publisher is done. */
  const GONE: Verdict := Refused(DOES_NOT_EXIST, 0, PUBLISHER_GONE)

  // ---- Sets the handlers iterate over ----

  function PendingSubs(r: TrackRoute): set<RequestKey> {
    set k | k in r.downs && r.downs[k].state.Pending?
  }

  function GrantableSubs(r: TrackRoute): set<RequestKey> {
    set k | k in r.downs && r.downs[k].state.Pending? && r.downs[k].forwardDesired
  }

  function EstablishedSubs(r: TrackRoute): set<RequestKey> {
    set k | k in r.downs && r.downs[k].state.Established?
  }

  function ReadySubs(r: TrackRoute): set<RequestKey> {
    set k | k in r.downs && r.downs[k].state.Established? && r.downs[k].outboundAlias.Some?
  }

  function LiveLegs(r: TrackRoute): set<SessionKey> {
    set p | p in r.ups && Live(r.ups[p].state)
  }

  // ---- Repeated acts ----

  function Grants(order: seq<RequestKey>, t: TrackKey, exts: Extensions): seq<Act> {
    if order == [] then [] else Grants(order[..|order|-1], t, exts) + [Grant(order[|order|-1], t, ControlStream, exts)]
  }

  function Ends(order: seq<RequestKey>, t: TrackKey, verdict: Verdict): seq<Act> {
    if order == [] then [] else
    Ends(order[..|order|-1], t, verdict) + [End(order[|order|-1], t, ControlStream, verdict)]
  }

  function OpenLegs(order: seq<SessionKey>, t: TrackKey): seq<Act> {
    if order == [] then [] else OpenLegs(order[..|order|-1], t) + [OpenLeg(order[|order|-1], t)]
  }

  function Unsubs(order: seq<SessionKey>, t: TrackKey, keepIndex: bool): seq<Act> {
    if order == [] then [] else Unsubs(order[..|order|-1], t, keepIndex) + [Unsub(order[|order|-1], t, keepIndex)]
  }

  function Forwards(order: seq<RequestKey>, t: TrackKey, body: ObjectBody): seq<Act> {
    if order == [] then [] else Forwards(order[..|order|-1], t, body) + [Forward(order[|order|-1], t, body)]
  }

  /** A new publisher is subscribed to the tracks its namespace covers. */
  function OfferTracks(order: seq<TrackKey>, s: SessionKey, ns: Namespace): seq<Act> {
    if order == [] then [] else
    var n := |order| - 1;
    OfferTracks(order[..n], s, ns)
    + (if IsPrefixOf(ns, order[n].namespace) then [OpenLeg(s, order[n])] else [])
  }

  /** Remove s from one track; if nobody is left there, unsubscribe its remaining legs. */
  function LeaveTrack(st: State, s: SessionKey, t: TrackKey, legs: seq<SessionKey>): seq<Act> {
    [Forget(s, t)]
    + (if NoActiveDownstream(ForgetIn(RouteOr(st, t), s)) then Unsubs(legs, t, true) else [])
  }

  function LeaveTracks(st: State, s: SessionKey, order: seq<TrackKey>, legs: map<TrackKey, seq<SessionKey>>): seq<Act> {
    if order == [] then [] else
    var n := |order| - 1;
    LeaveTracks(st, s, order[..n], legs)
    + LeaveTrack(st, s, order[n], if order[n] in legs then legs[order[n]] else [])
  }

  predicate HadLeg(st: State, s: SessionKey) {
    exists t :: t in st.tracks && s in st.tracks[t].ups
  }

  function DropIf(t: TrackKey, dead: bool): seq<Act> {
    if dead then [Drop(t)] else []
  }

  predicate AllDownTerminated(r: TrackRoute) {
    forall k :: k in r.downs ==> r.downs[k].state.Terminated?
  }

  predicate AllLegsTerminated(r: TrackRoute) {
    forall p :: p in r.ups ==> r.ups[p].state.Terminated?
  }

  // ---- Properties of every act of a list ----

  ghost predicate Only(acts: seq<Act>, p: Act -> bool) {
    forall i :: 0 <= i < |acts| ==> p(acts[i])
  }

  lemma {:induction false} OnlyEnds(order: seq<RequestKey>, t: TrackKey, verdict: Verdict, p: Act -> bool)
    requires forall k :: p(End(k, t, ControlStream, verdict))
    ensures Only(Ends(order, t, verdict), p)
  {
    if order != [] { OnlyEnds(order[..|order|-1], t, verdict, p); }
  }

  lemma {:induction false} OnlyGrants(order: seq<RequestKey>, t: TrackKey, exts: Extensions, p: Act -> bool)
    requires forall k :: p(Grant(k, t, ControlStream, exts))
    ensures Only(Grants(order, t, exts), p)
  {
    if order != [] { OnlyGrants(order[..|order|-1], t, exts, p); }
  }

  lemma {:induction false} OnlyForwards(order: seq<RequestKey>, t: TrackKey, body: ObjectBody, p: Act -> bool)
    requires forall k :: p(Forward(k, t, body))
    ensures Only(Forwards(order, t, body), p)
  {
    if order != [] { OnlyForwards(order[..|order|-1], t, body, p); }
  }

  lemma {:induction false} OnlyOpenLegs(order: seq<SessionKey>, t: TrackKey, p: Act -> bool)
    requires forall q :: p(OpenLeg(q, t))
    ensures Only(OpenLegs(order, t), p)
  {
    if order != [] { OnlyOpenLegs(order[..|order|-1], t, p); }
  }

  lemma {:induction false} OnlyUnsubs(order: seq<SessionKey>, t: TrackKey, keepIndex: bool, p: Act -> bool)
    requires forall q :: p(Unsub(q, t, keepIndex))
    ensures Only(Unsubs(order, t, keepIndex), p)
  {
    if order != [] { OnlyUnsubs(order[..|order|-1], t, keepIndex, p); }
  }

  lemma {:induction false} OnlyOffers(order: seq<TrackKey>, s: SessionKey, ns: Namespace, p: Act -> bool)
    requires forall t :: p(OpenLeg(s, t))
    ensures Only(OfferTracks(order, s, ns), p)
  {
    if order != [] { OnlyOffers(order[..|order|-1], s, ns, p); }
  }

  // ---- Handlers ----

  function Violation(s: SessionKey): seq<Act> {
    [Say(Close(s, ProtocolViolation))]
  }

  function ClosePlan(w: World, s: SessionKey, c: Choice): seq<Act> {
    LeaveTracks(w.st, s, c.tracks, c.legs) + [Depart(s, HadLeg(w.st, s))]
  }

  function ObjectPlan(w: World, s: SessionKey, alias: nat, body: ObjectBody, c: Choice): seq<Act> {
    if s !in w.st.sessions || alias !in w.st.sessions[s].inbound then Violation(s)
    else
      var t := w.st.sessions[s].inbound[alias];
      if t !in w.st.tracks then [] else Forwards(c.subs, t, body)
  }

  function ClientSetupPlan(cfg: RelayConfig, s: SessionKey, sess: SessionState, ch: Channel): seq<Act> {
    if !sess.role.Server? || sess.setupDone then Violation(s)
    else
      [Touch(s, sess.(setupDone := true)),
       Say(Send(s, ch, ServerSetup(cfg.serverSetupParameters
                                   + [KeyValuePair(PARAM_MAX_REQUEST_ID, Varint(sess.localMax))])))]
  }

  function ServerSetupPlan(s: SessionKey, sess: SessionState, params: Parameters): seq<Act> {
    if !sess.role.Client? || sess.setupDone then Violation(s)
    else
      var max := VarintParameter(params, PARAM_MAX_REQUEST_ID);
      [Touch(s, sess.(setupDone := true, peerMax := if max.Some? then max.value else sess.peerMax))]
  }

  function MaxRequestIdPlan(s: SessionKey, sess: SessionState, max: nat): seq<Act> {
    if max + 1 <= sess.peerMax then Violation(s) else [Touch(s, sess.(peerMax := max + 1))]
  }

  function GoawayPlan(s: SessionKey, sess: SessionState, uri: Bytes): seq<Act> {
    if sess.goaway then Violation(s)
    else [Touch(s, sess.(goaway := true, goawayUri := if uri == [] then None else Some(uri)))]
  }

  function PublishNamespacePlan(w: World, s: SessionKey, ch: Channel, id: nat, ns: Namespace, c: Choice): seq<Act>
    requires s in w.st.sessions
  {
    var sess := w.st.sessions[s];
    if !sess.setupDone then Violation(s)
    else if PeerIdError(sess, id).Some? then [Say(Close(s, PeerIdError(sess, id).value))]
    else [Announce(s, ns), Say(Send(s, ch, RequestOk(id, [])))] + OfferTracks(c.tracks, s, ns)
  }

  function SubscribePlan(w: World, s: SessionKey, ch: Channel, id: nat, t: TrackKey, params: Parameters, c: Choice)
    : seq<Act>
    requires s in w.st.sessions
  {
    var sess := w.st.sessions[s];
    var k := RequestKey(s, id);
    var route := RouteOr(w.st, t);
    if !sess.setupDone then Violation(s)
    else if PeerIdError(sess, id).Some? then [Say(Close(s, PeerIdError(sess, id).value))]
    else if HasEstablishedUpstream(route) then
      [AddSub(k, t, params), Grant(k, t, ch, if route.extensions.Some? then route.extensions.value else [])]
    else if MatchPublishers(w.st, t.namespace) == {} then
      [AddSub(k, t, params), End(k, t, ch, Refused(DOES_NOT_EXIST, 0, NO_PUBLISHER))]
      + DropIf(t, AllDownTerminated(route) && route.ups == map[])
    else
      [AddSub(k, t, params)] + OpenLegs(c.peers, t)
  }

  function SubscribeOkPlan(w: World, s: SessionKey, r: nat, alias: nat, exts: Extensions, c: Choice): seq<Act>
    requires s in w.st.sessions
  {
    var x := RequestKey(s, r);
    if !w.st.sessions[s].setupDone || x !in w.st.upIndex || !HasLeg(w.st, w.st.upIndex[x], s)
       || !LegOf(w.st, w.st.upIndex[x], s).state.Pending?
    then Violation(s)
    else
      var t := w.st.upIndex[x];
      [LegOk(s, t, alias)]
      + (if alias in w.st.sessions[s].inbound then [Say(Close(s, DuplicateTrackAlias))]
         else [Bind(s, r, alias, t)] + (if exts == [] then [] else [SetExtensions(t, exts)]) + Grants(c.subs, t, exts))
  }

  /** REQUEST_ERROR after the leg has ended: if it was the last one, nobody waits any longer. */
  function RequestErrorTail(route: TrackRoute, t: TrackKey, verdict: Verdict, c: Choice): seq<Act> {
    if !AllUpstreamTerminated(route) then []
    else Ends(c.subs, t, verdict) + DropIf(t, EstablishedSubs(route) == {})
  }

  function RequestErrorPlan(w: World, s: SessionKey, r: nat, verdict: Verdict, c: Choice): seq<Act>
    requires s in w.st.sessions
  {
    var x := RequestKey(s, r);
    if !w.st.sessions[s].setupDone then Violation(s)
    else if x !in w.st.upIndex || w.st.upIndex[x] !in w.st.tracks then []
    else
      var t := w.st.upIndex[x];
      [EndLeg(s, r, t)] + RequestErrorTail(RouteOr(Apply(w.st, EndLeg(s, r, t)), t), t, verdict, c)
  }

  /** PUBLISH_DONE after the leg has ended: established subscriptions end with it. */
  function PublishDoneTail(route: TrackRoute, t: TrackKey, verdict: Verdict, c: Choice): seq<Act> {
    Ends(c.subs, t, verdict)
    + (if AllUpstreamTerminated(route) then Ends(c.late, t, GONE) else [])
    + DropIf(t, AllLegsTerminated(route) && (AllUpstreamTerminated(route) || PendingSubs(route) == {}))
  }

  function PublishDonePlan(w: World, s: SessionKey, r: nat, verdict: Verdict, c: Choice): seq<Act>
    requires s in w.st.sessions
  {
    var x := RequestKey(s, r);
    if !w.st.sessions[s].setupDone then Violation(s)
    else if x !in w.st.upIndex || w.st.upIndex[x] !in w.st.tracks then []
    else
      var t := w.st.upIndex[x];
      [EndLeg(s, r, t)] + PublishDoneTail(RouteOr(Apply(w.st, EndLeg(s, r, t)), t), t, verdict, c)
  }

  function UnsubscribePlan(w: World, s: SessionKey, id: nat, c: Choice): seq<Act>
    requires s in w.st.sessions
  {
    var k := RequestKey(s, id);
    if !w.st.sessions[s].setupDone || k !in w.st.downIndex then Violation(s)
    else if w.st.downIndex[k] !in w.st.tracks then []
    else
      var t := w.st.downIndex[k];
      var gone := End(k, t, ControlStream, Withdrawn);
      if NoActiveDownstream(RouteOr(Apply(w.st, gone), t))
      then [gone] + Unsubs(c.peers, t, false) + [Drop(t)]
      else [gone]
  }

  function ControlPlan(cfg: RelayConfig, w: World, s: SessionKey, ch: Channel, m: ControlMessage, c: Choice): seq<Act> {
    if s !in w.st.sessions then Violation(s)
    else
      var sess := w.st.sessions[s];
      match m
      case ClientSetup(_) => ClientSetupPlan(cfg, s, sess, ch)
      case ServerSetup(params) => ServerSetupPlan(s, sess, params)
      case MaxRequestId(max) => MaxRequestIdPlan(s, sess, max)
      case RequestsBlocked(_) => []
      case Goaway(uri) => GoawayPlan(s, sess, uri)
      case PublishNamespace(id, ns, _) => PublishNamespacePlan(w, s, ch, id, ns, c)
      case Subscribe(id, ns, name, params) => SubscribePlan(w, s, ch, id, TrackKey(ns, name), params, c)
      case SubscribeOk(r, alias, _, exts) => SubscribeOkPlan(w, s, r, alias, exts, c)
      case RequestError(r, code, retry, reason) => RequestErrorPlan(w, s, r, Refused(code, retry, reason), c)
      case Unsubscribe(id) => UnsubscribePlan(w, s, id, c)
      case PublishDone(r, status, count, reason) => PublishDonePlan(w, s, r, Completed(status, count, reason), c)
      case _ => if sess.setupDone then [] else Violation(s)
  }

  function Plan(cfg: RelayConfig, w: World, ev: Event, c: Choice): seq<Act> {
    match ev
    case SessionOpened(s, role) => [Open(s, role, cfg.initialLocalMax, cfg.initialPeerMax)]
    case SessionClosed(s) => ClosePlan(w, s, c)
    case Control(s, ch, m) => ControlPlan(cfg, w, s, ch, m, c)
    case ObjectReceived(s, alias, body) => ObjectPlan(w, s, alias, body, c)
    case FetchObjectReceived(_) => []
  }

  /** The chosen orders really enumerate what the handler iterates over. */
  ghost predicate Fair(st: State, ev: Event, c: Choice) {
    match ev
    case SessionClosed(s) =>
      && IsOrder(c.tracks, st.tracks.Keys)
      && forall t :: t in st.tracks ==> t in c.legs && IsOrder(c.legs[t], LiveLegs(ForgetIn(st.tracks[t], s)))
    case ObjectReceived(s, alias, body) =>
      s in st.sessions && alias in st.sessions[s].inbound ==>
        IsOrder(c.subs, ReadySubs(RouteOr(st, st.sessions[s].inbound[alias])))
    case Control(s, ch, m) => FairControl(st, s, m, c)
    case _ => true
  }

  ghost predicate FairControl(st: State, s: SessionKey, m: ControlMessage, c: Choice) {
    match m
    case PublishNamespace(_, _, _) => IsOrder(c.tracks, st.tracks.Keys)
    case Subscribe(_, ns, _, _) => IsOrder(c.peers, MatchPublishers(st, ns))
    case SubscribeOk(r, _, _, _) =>
      RequestKey(s, r) in st.upIndex ==> IsOrder(c.subs, GrantableSubs(RouteOr(st, st.upIndex[RequestKey(s, r)])))
    case RequestError(r, _, _, _) =>
      RequestKey(s, r) in st.upIndex ==> IsOrder(c.subs, PendingSubs(RouteOr(st, st.upIndex[RequestKey(s, r)])))
    case PublishDone(r, _, _, _) =>
      RequestKey(s, r) in st.upIndex ==>
        var route := RouteOr(st, st.upIndex[RequestKey(s, r)]);
        IsOrder(c.subs, EstablishedSubs(route)) && IsOrder(c.late, PendingSubs(route))
    case Unsubscribe(id) =>
      RequestKey(s, id) in st.downIndex ==>
        IsOrder(c.peers, LiveLegs(RouteOr(st, st.downIndex[RequestKey(s, id)])))
    case _ => true
  }
}
