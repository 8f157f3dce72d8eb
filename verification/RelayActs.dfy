/** Every handler of the relay is a sequence of elementary acts. An act changes the maps in one
    place and sends at most one output, so invariants are proved act by act. */
module RelayActs {
  import opened MoqTypes
  import opened RelayState
  import opened RelayLog

  /** The relay, the session keys used so far, and everything received and sent so far. */
  datatype World = World(st: State, used: set<SessionKey>, log: seq<Obs>)

  /** How a downstream subscription ends. */
  datatype Verdict =
    | Withdrawn
    | Refused(errorCode: nat, retryInterval: nat, reason: Bytes)
    | Completed(statusCode: nat, streamCount: nat, reason: Bytes)

  datatype Act =
    | Open(s: SessionKey, role: EndpointRole, localMax: nat, peerMax: nat)
    | Touch(s: SessionKey, sess: SessionState)
    | Say(out: Output)
    | Announce(s: SessionKey, ns: Namespace)
    | AddSub(k: RequestKey, t: TrackKey, params: Parameters)
    | Grant(k: RequestKey, t: TrackKey, channel: Channel, exts: Extensions)
    | End(k: RequestKey, t: TrackKey, channel: Channel, verdict: Verdict)
    | OpenLeg(p: SessionKey, t: TrackKey)
    | LegOk(p: SessionKey, t: TrackKey, alias: nat)
    | Bind(p: SessionKey, r: nat, alias: nat, t: TrackKey)
    | SetExtensions(t: TrackKey, exts: Extensions)
    | EndLeg(p: SessionKey, r: nat, t: TrackKey)
    | Unsub(p: SessionKey, t: TrackKey, keepIndex: bool)
    | Drop(t: TrackKey)
    | Forward(k: RequestKey, t: TrackKey, body: ObjectBody)
    | Forget(s: SessionKey, t: TrackKey)
    | Depart(s: SessionKey, hadLeg: bool)

  // ---- Building blocks ----

  function PutDown(st: State, t: TrackKey, k: RequestKey, d: Downstream): State
    requires t in st.tracks
  {
    st.(tracks := st.tracks[t := st.tracks[t].(downs := st.tracks[t].downs[k := d])])
  }

  function PutLeg(st: State, t: TrackKey, p: SessionKey, leg: Leg): State
    requires t in st.tracks
  {
    st.(tracks := st.tracks[t := st.tracks[t].(ups := st.tracks[t].ups[p := leg])])
  }

  function PutSession(st: State, s: SessionKey, sess: SessionState): State {
    st.(sessions := st.sessions[s := sess])
  }

  /** An upstream SUBSCRIBE can go to p: open, within its limit, no leg yet, somebody interested. */
  predicate CanOpenLeg(st: State, p: SessionKey, t: TrackKey) {
    && t in st.tracks
    && p in st.sessions
    && p !in st.tracks[t].ups
    && !NoActiveDownstream(st.tracks[t])
    && CanAllocate(st.sessions[p])
  }

  function ForgetIn(r: TrackRoute, s: SessionKey): TrackRoute {
    r.(downs := map k | k in r.downs && k.session != s :: r.downs[k], ups := r.ups - {s})
  }

  function WithoutPublisher(pubs: map<Namespace, set<SessionKey>>, s: SessionKey, nss: set<Namespace>)
    : map<Namespace, set<SessionKey>>
  {
    map ns | ns in pubs && !(ns in nss && pubs[ns] - {s} == {}) ::
      if ns in nss then pubs[ns] - {s} else pubs[ns]
  }

  function PublishedBy(st: State, s: SessionKey): set<Namespace> {
    if s in st.sessions then st.sessions[s].published else {}
  }

  function WithoutRequestsOf(index: map<RequestKey, TrackKey>, s: SessionKey): map<RequestKey, TrackKey> {
    map x | x in index && x.session != s :: index[x]
  }

  function NonEmptyRoutes(tracks: map<TrackKey, TrackRoute>): map<TrackKey, TrackRoute> {
    map t | t in tracks && !(tracks[t].downs == map[] && tracks[t].ups == map[]) :: tracks[t]
  }

  // ---- When an act may happen ----

  predicate VerdictFits(state: SubState, v: Verdict) {
    match v
    case Withdrawn => true
    case Refused(_, _, _) => state.Pending?
    case Completed(_, _, _) => state.Established?
  }

  /** Outputs that answer a session without touching any subscription. */
  predicate Harmless(st: State, o: Output) {
    || o.Close?
    || (o.Send? && o.session in st.sessions && (o.message.ServerSetup? || o.message.RequestOk?))
  }

  /** Set-up, GOAWAY and MAX_REQUEST_ID leave counters, aliases and namespaces alone. */
  predicate Calm(old_: SessionState, new_: SessionState) {
    && new_.role == old_.role && new_.peerNext == old_.peerNext && new_.localNext == old_.localNext
    && new_.localMax == old_.localMax && new_.nextOutbound == old_.nextOutbound
    && new_.published == old_.published && new_.inbound == old_.inbound
    && new_.peerMax <= ID_LIMIT
    && (old_.setupDone ==> new_.setupDone && old_.peerMax <= new_.peerMax)
  }

  ghost predicate Enabled(w: World, act: Act) {
    var st := w.st;
    match act
    case Open(s, role, localMax, peerMax) => s !in w.used && localMax <= ID_LIMIT && peerMax <= ID_LIMIT
    case Touch(s, sess) => s in st.sessions && Calm(st.sessions[s], sess)
    case Say(out) => Harmless(st, out)
    case Announce(s, ns) => s in st.sessions && st.sessions[s].setupDone
        && st.sessions[s].peerNext < st.sessions[s].localMax
    case AddSub(k, t, params) =>
      && k.session in st.sessions && st.sessions[k.session].setupDone
      && k.id == st.sessions[k.session].peerNext < st.sessions[k.session].localMax
    case Grant(k, t, channel, exts) =>
      && HasSub(st, t, k) && Sub(st, t, k).state.Pending? && k.session in st.sessions
      && HasEstablishedUpstream(st.tracks[t])
    case End(k, t, channel, verdict) =>
      && HasSub(st, t, k) && Live(Sub(st, t, k).state) && VerdictFits(Sub(st, t, k).state, verdict)
    case OpenLeg(p, t) => p in st.sessions ==> st.sessions[p].setupDone
    case LegOk(p, t, alias) => HasLeg(st, t, p) && LegOf(st, t, p).state.Pending? && TrackAnswered(w.log, t)
    case Bind(p, r, alias, t) =>
      && p in st.sessions && alias !in st.sessions[p].inbound
      && RequestKey(p, r) in st.upIndex && st.upIndex[RequestKey(p, r)] == t
      && AnsweredWith(w.log, p, r, alias, t)
    case SetExtensions(t, exts) => t in st.tracks
    case EndLeg(p, r, t) => t in st.tracks && RequestKey(p, r) in st.upIndex && st.upIndex[RequestKey(p, r)] == t
    case Unsub(p, t, keepIndex) =>
      HasLeg(st, t, p) && Live(LegOf(st, t, p).state) && NoActiveDownstream(st.tracks[t])
    case Drop(t) =>
      && t in st.tracks && NoActiveDownstream(st.tracks[t])
      && forall p :: p in st.tracks[t].ups ==> st.tracks[t].ups[p].state.Terminated?
    case Forward(k, t, body) =>
      HasSub(st, t, k) && Sub(st, t, k).state.Established? && Sub(st, t, k).outboundAlias.Some?
    case Forget(s, t) => t in st.tracks
    case Depart(s, hadLeg) =>
      && (forall t :: !HasLeg(st, t, s))
      && (forall t, k :: HasSub(st, t, k) ==> k.session != s)
  }

  // ---- What an act does ----

  function Apply(st: State, act: Act): State {
    match act
    case Open(s, role, localMax, peerMax) => PutSession(st, s, NewSession(role, localMax, peerMax))
    case Touch(s, sess) => PutSession(st, s, sess)
    case Say(out) => st
    case Announce(s, ns) =>
      if s !in st.sessions then st else
      var sess := st.sessions[s];
      PutSession(st, s, sess.(peerNext := sess.peerNext + 2, published := sess.published + {ns}))
        .(publishers := st.publishers[ns := PublishersOf(st, ns) + {s}])
    case AddSub(k, t, params) =>
      if k.session !in st.sessions then st else
      var sess := st.sessions[k.session];
      var st1 := PutSession(st, k.session, sess.(peerNext := sess.peerNext + 2))
                   .(downIndex := st.downIndex[k := t], tracks := st.tracks[t := RouteOr(st, t)]);
      PutDown(st1, t, k, Downstream(Pending, params, true, None))
    case Grant(k, t, channel, exts) =>
      if !HasSub(st, t, k) || k.session !in st.sessions then st else
      var sess := st.sessions[k.session];
      PutDown(PutSession(st, k.session, sess.(nextOutbound := sess.nextOutbound + 1)), t, k,
              Sub(st, t, k).(state := Established, forwardDesired := false, outboundAlias := Some(sess.nextOutbound)))
    case End(k, t, channel, verdict) =>
      if !HasSub(st, t, k) then st else
      PutDown(st, t, k, Sub(st, t, k).(state := Terminated)).(downIndex := st.downIndex - {k})
    case OpenLeg(p, t) =>
      if !CanOpenLeg(st, p, t) then st else
      var sess := st.sessions[p];
      PutLeg(PutSession(st, p, sess.(localNext := sess.localNext + 2)), t, p,
             Leg(sess.localNext, Pending, None, false))
        .(upIndex := st.upIndex[RequestKey(p, sess.localNext) := t])
    case LegOk(p, t, alias) =>
      if !HasLeg(st, t, p) then st else
      PutLeg(st, t, p, Answered(LegOf(st, t, p), alias))
    case Bind(p, r, alias, t) =>
      if p !in st.sessions then st else
      PutSession(st, p, st.sessions[p].(inbound := st.sessions[p].inbound[alias := t]))
    case SetExtensions(t, exts) =>
      if t !in st.tracks then st else st.(tracks := st.tracks[t := st.tracks[t].(extensions := Some(exts))])
    case EndLeg(p, r, t) =>
      var st1 := if HasLeg(st, t, p) then PutLeg(st, t, p, LegOf(st, t, p).(state := Terminated)) else st;
      st1.(upIndex := st.upIndex - {RequestKey(p, r)})
    case Unsub(p, t, keepIndex) =>
      if !HasLeg(st, t, p) then st else
      PutLeg(st, t, p, LegOf(st, t, p).(state := Terminated))
        .(upIndex := if keepIndex then st.upIndex else st.upIndex - {RequestKey(p, LegOf(st, t, p).requestId)})
    case Drop(t) => st.(tracks := st.tracks - {t})
    case Forward(k, t, body) => st
    case Forget(s, t) =>
      if t !in st.tracks then st else
      st.(tracks := st.tracks[t := ForgetIn(st.tracks[t], s)],
          downIndex := st.downIndex - (set k | k in st.tracks[t].downs && k.session == s))
    case Depart(s, hadLeg) =>
      State(st.sessions - {s}, WithoutPublisher(st.publishers, s, PublishedBy(st, s)), NonEmptyRoutes(st.tracks),
            if hadLeg then WithoutRequestsOf(st.upIndex, s) else st.upIndex, st.downIndex)
  }

  function VerdictMessage(id: nat, v: Verdict): ControlMessage
    requires !v.Withdrawn?
  {
    match v
    case Refused(code, retry, reason) => RequestError(id, code, retry, reason)
    case Completed(status, count, reason) => PublishDone(id, status, count, reason)
  }

  /** What an act sends: nothing or one output. */
  function Emit(st: State, act: Act): seq<Output> {
    match act
    case Say(out) => [out]
    case Grant(k, t, channel, exts) =>
      if k.session !in st.sessions then [] else
      [Send(k.session, channel, SubscribeOk(k.id, st.sessions[k.session].nextOutbound, [], exts))]
    case End(k, t, channel, verdict) =>
      if verdict.Withdrawn? then [] else [Send(k.session, channel, VerdictMessage(k.id, verdict))]
    case OpenLeg(p, t) =>
      if !CanOpenLeg(st, p, t) then [] else
      [Send(p, ControlStream, Subscribe(st.sessions[p].localNext, t.namespace, t.name, []))]
    case Unsub(p, t, keepIndex) =>
      if !HasLeg(st, t, p) then [] else [Send(p, ControlStream, Unsubscribe(LegOf(st, t, p).requestId))]
    case Forward(k, t, body) =>
      if !HasSub(st, t, k) || Sub(st, t, k).outboundAlias.None? then [] else
      [SendObject(k.session, Sub(st, t, k).outboundAlias.value, body)]
    case _ => []
  }

  function ApplyWorld(w: World, act: Act): World {
    World(Apply(w.st, act), if act.Open? then w.used + {act.s} else w.used, w.log + Sent(Emit(w.st, act)))
  }

  // ---- Sequences of acts ----

  function Exec(w: World, acts: seq<Act>): World {
    if acts == [] then w else ApplyWorld(Exec(w, acts[..|acts|-1]), acts[|acts|-1])
  }

  ghost predicate Legal(w: World, acts: seq<Act>) {
    acts == [] || (Legal(w, acts[..|acts|-1]) && Enabled(Exec(w, acts[..|acts|-1]), acts[|acts|-1]))
  }

  lemma ExecSnoc(w: World, acts: seq<Act>, act: Act)
    ensures Exec(w, acts + [act]) == ApplyWorld(Exec(w, acts), act)
    ensures Legal(w, acts + [act]) <==> Legal(w, acts) && Enabled(Exec(w, acts), act)
  {
    assert (acts + [act])[..|acts|] == acts;
  }

  lemma {:induction false} ExecAppend(w: World, xs: seq<Act>, ys: seq<Act>)
    ensures Exec(w, xs + ys) == Exec(Exec(w, xs), ys)
    ensures Legal(w, xs + ys) <==> Legal(w, xs) && Legal(Exec(w, xs), ys)
    decreases |ys|
  {
    if ys == [] {
      assert xs + ys == xs;
    } else {
      var n := |ys| - 1;
      assert (xs + ys)[..|xs + ys| - 1] == xs + ys[..n];
      assert (xs + ys)[|xs + ys| - 1] == ys[n];
      ExecAppend(w, xs, ys[..n]);
    }
  }
}
