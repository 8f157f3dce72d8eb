/** The relay's data: sessions, track routes and the five coupled maps, plus the pure
    parts of `session.rs`, `route.rs` and `types.rs`. */
module RelayState {
  import opened MoqTypes

  /** Any type with equality identifies a session; nothing else is known of it. */
  type SessionKey(==, !new)

  datatype EndpointRole = Client | Server

  datatype SessionError = ProtocolViolation | InvalidRequestId | DuplicateTrackAlias | TooManyRequests

  datatype Channel = ControlStream | BidiStream(id: nat)

  datatype TrackKey = TrackKey(namespace: Namespace, name: Bytes)

  /** A request of one session: names a downstream subscription, and keys both request indexes. */
  datatype RequestKey = RequestKey(session: SessionKey, id: nat)

  datatype SubState = Pending | Established | Terminated

  datatype Downstream = Downstream(state: SubState, parameters: Parameters, forwardDesired: bool,
                                   outboundAlias: Option<nat>)

  datatype Leg = Leg(requestId: nat, state: SubState, inboundAlias: Option<nat>, forwardCurrent: bool)

  datatype TrackRoute = TrackRoute(downs: map<RequestKey, Downstream>, ups: map<SessionKey, Leg>,
                                   extensions: Option<Extensions>)

  datatype SessionState = SessionState(
    role: EndpointRole, setupDone: bool, goaway: bool, goawayUri: Option<Bytes>,
    peerNext: nat, localNext: nat, localMax: nat, peerMax: nat, nextOutbound: nat,
    published: set<Namespace>, inbound: map<nat, TrackKey>)

  datatype RelayConfig = RelayConfig(serverSetupParameters: Parameters, initialLocalMax: nat, initialPeerMax: nat)

  datatype State = State(
    sessions: map<SessionKey, SessionState>,
    publishers: map<Namespace, set<SessionKey>>,
    tracks: map<TrackKey, TrackRoute>,
    upIndex: map<RequestKey, TrackKey>,
    downIndex: map<RequestKey, TrackKey>)

  /** Every property of an object except the track alias. */
  datatype ObjectBody = ObjectBody(subgroup: Option<nat>, location: Location, datagram: bool,
                                   priority: Option<nat>, status: nat, extensions: Extensions, payload: Bytes)

  datatype Event =
    | SessionOpened(session: SessionKey, role: EndpointRole)
    | SessionClosed(session: SessionKey)
    | Control(session: SessionKey, channel: Channel, message: ControlMessage)
    | ObjectReceived(session: SessionKey, alias: nat, body: ObjectBody)
    | FetchObjectReceived(session: SessionKey)

  datatype Output =
    | Send(session: SessionKey, channel: Channel, message: ControlMessage)
    | Close(session: SessionKey, error: SessionError)
    | SendObject(session: SessionKey, alias: nat, body: ObjectBody)

  const PARAM_MAX_REQUEST_ID: nat := 0x02
  const DOES_NOT_EXIST: nat := 0x10

  /** Bound on request-id limits: configured limits must not exceed it, and wire limits cannot. */
  const ID_LIMIT: nat := MAX_VARINT + 1

  const EMPTY_STATE := State(map[], map[], map[], map[], map[])

  const EMPTY_ROUTE := TrackRoute(map[], map[], None)

  // ---- EndpointRole ----

  function LocalFirst(role: EndpointRole): nat {
    match role case Client => 0 case Server => 1
  }

  function PeerFirst(role: EndpointRole): nat {
    match role case Client => 1 case Server => 0
  }

  predicate ValidPeerParity(role: EndpointRole, id: nat) {
    id % 2 == (match role case Client => 1 case Server => 0)
  }

  // ---- Session ----

  function NewSession(role: EndpointRole, localMax: nat, peerMax: nat): SessionState {
    SessionState(role, false, false, None, PeerFirst(role), LocalFirst(role), localMax, peerMax, 1, {}, map[])
  }

  /** What is wrong with a new request id from the peer, if anything. */
  function PeerIdError(s: SessionState, id: nat): Option<SessionError> {
    if !ValidPeerParity(s.role, id) then Some(InvalidRequestId)
    else if id != s.peerNext then Some(InvalidRequestId)
    else if id >= s.localMax then Some(TooManyRequests)
    else None
  }

  predicate CanAllocate(s: SessionState) { s.localNext < s.peerMax }

  // ---- TrackRoute ----

  /** A leg whose publisher has accepted. */
  function Answered(leg: Leg, alias: nat): Leg {
    leg.(state := Established, inboundAlias := Some(alias), forwardCurrent := true)
  }

  predicate Live(state: SubState) { state.Pending? || state.Established? }

  predicate AllUpstreamTerminated(r: TrackRoute) {
    r.ups != map[] && forall p :: p in r.ups ==> r.ups[p].state.Terminated?
  }

  predicate NoActiveDownstream(r: TrackRoute) {
    forall k :: k in r.downs ==> !Live(r.downs[k].state)
  }

  predicate HasEstablishedUpstream(r: TrackRoute) {
    exists p :: p in r.ups && r.ups[p].state.Established?
  }

  // ---- Lookups ----

  predicate HasSub(st: State, t: TrackKey, k: RequestKey) {
    t in st.tracks && k in st.tracks[t].downs
  }

  function Sub(st: State, t: TrackKey, k: RequestKey): Downstream
    requires HasSub(st, t, k)
  {
    st.tracks[t].downs[k]
  }

  predicate HasLeg(st: State, t: TrackKey, p: SessionKey) {
    t in st.tracks && p in st.tracks[t].ups
  }

  function LegOf(st: State, t: TrackKey, p: SessionKey): Leg
    requires HasLeg(st, t, p)
  {
    st.tracks[t].ups[p]
  }

  function RouteOr(st: State, t: TrackKey): TrackRoute {
    if t in st.tracks then st.tracks[t] else EMPTY_ROUTE
  }

  function PublishersOf(st: State, ns: Namespace): set<SessionKey> {
    if ns in st.publishers then st.publishers[ns] else {}
  }

  // ---- Namespace matching ----

  predicate IsPrefixOf(a: Namespace, b: Namespace) {
    |a| <= |b| && forall i :: 0 <= i < |a| ==> a[i] == b[i]
  }

  /** Sessions registered under one of the first n non-empty prefixes of ns. */
  function MatchUpTo(st: State, ns: Namespace, n: nat): set<SessionKey>
    requires n <= |ns|
  {
    if n == 0 then {} else MatchUpTo(st, ns, n - 1) + PublishersOf(st, ns[..n])
  }

  function MatchPublishers(st: State, ns: Namespace): set<SessionKey> {
    MatchUpTo(st, ns, |ns|)
  }

  // ---- Iteration order ----

  /** A hash map is iterated in some order: each key once. */
  ghost predicate IsOrder<T(!new)>(order: seq<T>, keys: set<T>) {
    && (forall i, j :: 0 <= i < j < |order| ==> order[i] != order[j])
    && (forall x :: x in order <==> x in keys)
  }

  /** First value of a varint parameter with the given key. */
  function VarintParameter(ps: Parameters, key: nat): Option<nat> {
    if ps == [] then None
    else if ps[0].key == key && ps[0].value.Varint? then Some(ps[0].value.number)
    else VarintParameter(ps[1..], key)
  }
}
