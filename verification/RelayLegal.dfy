/** Every handler's plan consists of enabled acts, whatever order its hash maps iterate in. */
module RelayLegal {
  import opened MoqTypes
  import opened RelayState
  import opened RelayActs
  import opened RelayPlan

  // ---- Closed forms of the repeated acts ----

  function ToSet<T>(xs: seq<T>): set<T> { set x | x in xs }

  function EndedRoute(r: TrackRoute, ks: set<RequestKey>): TrackRoute {
    r.(downs := map k | k in r.downs :: if k in ks then r.downs[k].(state := Terminated) else r.downs[k])
  }

  /** Track t after all subscriptions in ks have ended. */
  function EndAll(st: State, t: TrackKey, ks: set<RequestKey>): State
    requires t in st.tracks
  {
    st.(tracks := st.tracks[t := EndedRoute(st.tracks[t], ks)], downIndex := st.downIndex - ks)
  }

  function StoppedRoute(r: TrackRoute, ps: set<SessionKey>): TrackRoute {
    r.(ups := map p | p in r.ups :: if p in ps then r.ups[p].(state := Terminated) else r.ups[p])
  }

  function LegKeys(ups: map<SessionKey, Leg>, ps: set<SessionKey>): set<RequestKey> {
    set p | p in ps && p in ups :: RequestKey(p, ups[p].requestId)
  }

  /** Track t after UNSUBSCRIBE has gone to all publishers in ps. */
  function StopAll(st: State, t: TrackKey, ps: set<SessionKey>, keepIndex: bool): State
    requires t in st.tracks
  {
    var ups := st.tracks[t].ups;
    st.(tracks := st.tracks[t := StoppedRoute(st.tracks[t], ps)],
        upIndex := if keepIndex then st.upIndex
                   else st.upIndex - LegKeys(ups, ps))
  }

  lemma SingleAct(w: World, act: Act)
    ensures Exec(w, [act]) == ApplyWorld(w, act)
    ensures Legal(w, [act]) <==> Enabled(w, act)
  {
    ExecSnoc(w, [], act);
    assert [] + [act] == [act];
  }

  lemma LegalFirst(w: World, act: Act, rest: seq<Act>)
    requires Enabled(w, act) && Legal(ApplyWorld(w, act), rest)
    ensures Legal(w, [act] + rest)
  {
    SingleAct(w, act);
    ExecAppend(w, [act], rest);
  }

  ghost predicate Distinct<T(!new)>(order: seq<T>) {
    forall i, j :: 0 <= i < j < |order| ==> order[i] != order[j]
  }

  lemma EndAllNone(st: State, t: TrackKey)
    requires t in st.tracks
    ensures EndAll(st, t, {}) == st
  {
    assert EndedRoute(st.tracks[t], {}).downs == st.tracks[t].downs;
    assert st.tracks[t := st.tracks[t]] == st.tracks;
  }

  lemma EndAllStep(st: State, t: TrackKey, ks: set<RequestKey>, k: RequestKey, ch: Channel, verdict: Verdict)
    requires HasSub(st, t, k)
    ensures Apply(EndAll(st, t, ks), End(k, t, ch, verdict)) == EndAll(st, t, ks + {k})
  {
    var st1 := EndAll(st, t, ks);
    assert HasSub(st1, t, k);
    var r1 := st1.tracks[t].(downs := st1.tracks[t].downs[k := Sub(st1, t, k).(state := Terminated)]);
    assert r1.downs == EndedRoute(st.tracks[t], ks + {k}).downs;
    assert st1.tracks[t := r1] == st.tracks[t := r1];
    assert st1.downIndex - {k} == st.downIndex - (ks + {k});
  }

  lemma StopAllNone(st: State, t: TrackKey, keepIndex: bool)
    requires t in st.tracks
    ensures StopAll(st, t, {}, keepIndex) == st
  {
    assert StoppedRoute(st.tracks[t], {}).ups == st.tracks[t].ups;
    assert st.tracks[t := st.tracks[t]] == st.tracks;
    assert LegKeys(st.tracks[t].ups, {}) == {};
  }

  lemma StopAllStep(st: State, t: TrackKey, ps: set<SessionKey>, p: SessionKey, keepIndex: bool)
    requires HasLeg(st, t, p)
    ensures Apply(StopAll(st, t, ps, keepIndex), Unsub(p, t, keepIndex)) == StopAll(st, t, ps + {p}, keepIndex)
  {
    var st1 := StopAll(st, t, ps, keepIndex);
    assert HasLeg(st1, t, p) && LegOf(st1, t, p).requestId == LegOf(st, t, p).requestId;
    var r1 := st1.tracks[t].(ups := st1.tracks[t].ups[p := LegOf(st1, t, p).(state := Terminated)]);
    assert r1.ups == StoppedRoute(st.tracks[t], ps + {p}).ups;
    assert st1.tracks[t := r1] == st.tracks[t := r1];
    var ups := st.tracks[t].ups;
    assert LegKeys(ups, ps + {p}) == LegKeys(ups, ps) + {RequestKey(p, ups[p].requestId)};
  }

  lemma {:induction false} EndsEffect(w: World, order: seq<RequestKey>, t: TrackKey, verdict: Verdict)
    requires Distinct(order)
    requires t in w.st.tracks
    requires forall k :: k in order ==>
               HasSub(w.st, t, k) && Live(Sub(w.st, t, k).state) && VerdictFits(Sub(w.st, t, k).state, verdict)
    ensures Legal(w, Ends(order, t, verdict))
    ensures Exec(w, Ends(order, t, verdict)).st == EndAll(w.st, t, ToSet(order))
    ensures Exec(w, Ends(order, t, verdict)).used == w.used
  {
    if order == [] {
      assert ToSet(order) == {};
      EndAllNone(w.st, t);
    } else {
      var n := |order| - 1;
      var k := order[n];
      var last := End(k, t, ControlStream, verdict);
      EndsEffect(w, order[..n], t, verdict);
      ExecSnoc(w, Ends(order[..n], t, verdict), last);
      assert ToSet(order) == ToSet(order[..n]) + {k};
      assert HasSub(w.st, t, k) && k !in ToSet(order[..n]);
      EndAllStep(w.st, t, ToSet(order[..n]), k, ControlStream, verdict);
      var st1 := EndAll(w.st, t, ToSet(order[..n]));
      assert HasSub(st1, t, k) && Sub(st1, t, k) == Sub(w.st, t, k);
    }
  }

  lemma SetOfSnoc<T(!new)>(order: seq<T>)
    requires Distinct(order) && order != []
    ensures ToSet(order) == ToSet(order[..|order|-1]) + {order[|order|-1]}
    ensures order[|order|-1] !in ToSet(order[..|order|-1]) && Distinct(order[..|order|-1])
    ensures forall x :: x in order[..|order|-1] ==> x in order
  {
  }

  lemma {:induction false} UnsubsEffect(w: World, order: seq<SessionKey>, t: TrackKey, keepIndex: bool)
    requires Distinct(order)
    requires t in w.st.tracks && NoActiveDownstream(w.st.tracks[t])
    requires forall p :: p in order ==> HasLeg(w.st, t, p) && Live(LegOf(w.st, t, p).state)
    ensures Legal(w, Unsubs(order, t, keepIndex))
    ensures Exec(w, Unsubs(order, t, keepIndex)).st == StopAll(w.st, t, ToSet(order), keepIndex)
    ensures Exec(w, Unsubs(order, t, keepIndex)).used == w.used
  {
    if order == [] {
      assert ToSet(order) == {};
      StopAllNone(w.st, t, keepIndex);
    } else {
      var pre, p := order[..|order|-1], order[|order|-1];
      SetOfSnoc(order);
      UnsubsEffect(w, pre, t, keepIndex);
      assert p in order;
      OneMoreUnsub(w, Exec(w, Unsubs(pre, t, keepIndex)), t, ToSet(pre), p, keepIndex);
      ExecSnoc(w, Unsubs(pre, t, keepIndex), Unsub(p, t, keepIndex));
    }
  }

  lemma OneMoreUnsub(w: World, w1: World, t: TrackKey, ps: set<SessionKey>, p: SessionKey, keepIndex: bool)
    requires HasLeg(w.st, t, p) && Live(LegOf(w.st, t, p).state) && p !in ps && NoActiveDownstream(w.st.tracks[t])
    requires w1.st == StopAll(w.st, t, ps, keepIndex)
    ensures Enabled(w1, Unsub(p, t, keepIndex))
    ensures ApplyWorld(w1, Unsub(p, t, keepIndex)).st == StopAll(w.st, t, ps + {p}, keepIndex)
    ensures ApplyWorld(w1, Unsub(p, t, keepIndex)).used == w1.used
  {
    StopAllStep(w.st, t, ps, p, keepIndex);
    assert HasLeg(w1.st, t, p) && LegOf(w1.st, t, p) == LegOf(w.st, t, p);
  }

  // ---- Grants, forwards and new legs ----

  /** Subscriptions ks have become Established; the others are as they were. */
  ghost predicate GrantedDowns(old_: map<RequestKey, Downstream>, new_: map<RequestKey, Downstream>,
                               ks: set<RequestKey>) {
    && new_.Keys == old_.Keys
    && (forall k :: k in old_ ==> if k in ks then new_[k].state.Established? else new_[k] == old_[k])
  }

  /** Only the sessions' counters and the subscriptions ks of track t have changed. */
  ghost predicate Granted(st: State, st': State, t: TrackKey, ks: set<RequestKey>)
    requires t in st.tracks
  {
    && t in st'.tracks
    && st' == st.(sessions := st'.sessions, tracks := st.tracks[t := st.tracks[t].(downs := st'.tracks[t].downs)])
    && st'.sessions.Keys == st.sessions.Keys
    && GrantedDowns(st.tracks[t].downs, st'.tracks[t].downs, ks)
  }

  lemma GrantStep(st: State, st1: State, t: TrackKey, ks: set<RequestKey>, k: RequestKey, exts: Extensions)
    requires t in st.tracks && Granted(st, st1, t, ks)
    requires k in st.tracks[t].downs && k !in ks && k.session in st.sessions
    ensures HasSub(st1, t, k) && Sub(st1, t, k) == Sub(st, t, k)
    ensures Granted(st, Apply(st1, Grant(k, t, ControlStream, exts)), t, ks + {k})
  {
    var st2 := Apply(st1, Grant(k, t, ControlStream, exts));
    assert st1.tracks[t := st2.tracks[t]] == st.tracks[t := st2.tracks[t]];
  }

  lemma {:induction false} GrantsEffect(w: World, order: seq<RequestKey>, t: TrackKey, exts: Extensions)
    requires Distinct(order)
    requires t in w.st.tracks && HasEstablishedUpstream(w.st.tracks[t])
    requires forall k :: k in order ==>
               HasSub(w.st, t, k) && Sub(w.st, t, k).state.Pending? && k.session in w.st.sessions
    ensures Legal(w, Grants(order, t, exts))
    ensures Granted(w.st, Exec(w, Grants(order, t, exts)).st, t, ToSet(order))
  {
    if order == [] {
      assert w.st.tracks[t := w.st.tracks[t]] == w.st.tracks;
    } else {
      var n := |order| - 1;
      var k := order[n];
      var last := Grant(k, t, ControlStream, exts);
      GrantsEffect(w, order[..n], t, exts);
      ExecSnoc(w, Grants(order[..n], t, exts), last);
      assert ToSet(order) == ToSet(order[..n]) + {k};
      assert HasSub(w.st, t, k) && k !in ToSet(order[..n]);
      GrantStep(w.st, Exec(w, Grants(order[..n], t, exts)).st, t, ToSet(order[..n]), k, exts);
    }
  }

  /** Forwarding may happen to whoever is Established, and changes no map. */
  lemma ForwardKeeps(w: World, k: RequestKey, t: TrackKey, body: ObjectBody)
    requires HasSub(w.st, t, k) && Sub(w.st, t, k).state.Established? && Sub(w.st, t, k).outboundAlias.Some?
    ensures Enabled(w, Forward(k, t, body)) && ApplyWorld(w, Forward(k, t, body)).st == w.st
  {
  }

  lemma {:induction false} ForwardsLegal(w: World, order: seq<RequestKey>, t: TrackKey, body: ObjectBody)
    requires forall k :: k in order ==>
               HasSub(w.st, t, k) && Sub(w.st, t, k).state.Established? && Sub(w.st, t, k).outboundAlias.Some?
    ensures Legal(w, Forwards(order, t, body))
    ensures Exec(w, Forwards(order, t, body)).st == w.st
  {
    if order != [] {
      var n := |order| - 1;
      ForwardsLegal(w, order[..n], t, body);
      ExecSnoc(w, Forwards(order[..n], t, body), Forward(order[n], t, body));
      assert order[n] in order;
      ForwardKeeps(Exec(w, Forwards(order[..n], t, body)), order[n], t, body);
    }
  }

  /** Opening legs leaves set-up, publishers and subscriptions alone. */
  predicate SameButLegs(st: State, st': State) {
    && st'.publishers == st.publishers && st'.downIndex == st.downIndex
    && st'.sessions.Keys == st.sessions.Keys
    && (forall s :: s in st.sessions ==>
          st'.sessions[s].setupDone == st.sessions[s].setupDone)
    && st'.tracks.Keys == st.tracks.Keys
    && (forall t :: t in st.tracks ==> st'.tracks[t].downs == st.tracks[t].downs)
  }

  lemma OpenLegStep(st: State, p: SessionKey, t: TrackKey)
    ensures SameButLegs(st, Apply(st, OpenLeg(p, t)))
  {
  }

  lemma {:induction false} OpenLegsLegal(w: World, order: seq<SessionKey>, t: TrackKey)
    requires forall p :: p in order && p in w.st.sessions ==> w.st.sessions[p].setupDone
    ensures Legal(w, OpenLegs(order, t))
    ensures SameButLegs(w.st, Exec(w, OpenLegs(order, t)).st)
  {
    if order != [] {
      var n := |order| - 1;
      OpenLegsLegal(w, order[..n], t);
      ExecSnoc(w, OpenLegs(order[..n], t), OpenLeg(order[n], t));
      OpenLegStep(Exec(w, OpenLegs(order[..n], t)).st, order[n], t);
    }
  }

  lemma {:induction false} OfferTracksLegal(w: World, order: seq<TrackKey>, s: SessionKey, ns: Namespace)
    requires s in w.st.sessions && w.st.sessions[s].setupDone
    ensures Legal(w, OfferTracks(order, s, ns))
    ensures SameButLegs(w.st, Exec(w, OfferTracks(order, s, ns)).st)
  {
    if order != [] {
      var n := |order| - 1;
      OfferTracksLegal(w, order[..n], s, ns);
      if IsPrefixOf(ns, order[n].namespace) {
        ExecSnoc(w, OfferTracks(order[..n], s, ns), OpenLeg(s, order[n]));
        OpenLegStep(Exec(w, OfferTracks(order[..n], s, ns)).st, s, order[n]);
      } else {
        assert OfferTracks(order, s, ns) == OfferTracks(order[..n], s, ns);
      }
    }
  }

  // ---- Closing a session ----

  /** A track without s; if nobody is left on it, without live legs either. */
  function LeftRoute(r: TrackRoute, s: SessionKey): TrackRoute {
    var f := ForgetIn(r, s);
    if NoActiveDownstream(f) then StoppedRoute(f, LiveLegs(f)) else f
  }

  /** Requests of s recorded in one of the tracks ts. */
  function KeysOf(tracks: map<TrackKey, TrackRoute>, s: SessionKey, ts: set<TrackKey>): set<RequestKey> {
    set t, k | t in ts && t in tracks && k in tracks[t].downs && k.session == s :: k
  }

  /** The maps after s has left the tracks ts. */
  function LeaveAll(st: State, s: SessionKey, ts: set<TrackKey>): State {
    st.(tracks := map t | t in st.tracks :: if t in ts then LeftRoute(st.tracks[t], s) else st.tracks[t],
        downIndex := st.downIndex - KeysOf(st.tracks, s, ts))
  }

  /** The maps after SessionClosed(s). */
  function Closed(st: State, s: SessionKey): State {
    var left := LeaveAll(st, s, st.tracks.Keys);
    State(st.sessions - {s}, WithoutPublisher(st.publishers, s, PublishedBy(st, s)), NonEmptyRoutes(left.tracks),
          if HadLeg(st, s) then WithoutRequestsOf(st.upIndex, s) else st.upIndex, left.downIndex)
  }

  lemma LeaveAllNone(st: State, s: SessionKey)
    ensures LeaveAll(st, s, {}) == st
  {
    assert LeaveAll(st, s, {}).tracks == st.tracks;
    assert KeysOf(st.tracks, s, {}) == {};
  }

  /** One more track left: Forget, then StopAll if nobody remains. */
  /** Forget writes one route, and takes its requests of s out of the index. */
  lemma ForgetIs(st: State, s: SessionKey, t: TrackKey)
    requires t in st.tracks
    ensures Apply(st, Forget(s, t))
         == st.(tracks := st.tracks[t := ForgetIn(st.tracks[t], s)],
                downIndex := st.downIndex - (set k | k in st.tracks[t].downs && k.session == s))
  {
  }

  lemma LeaveAllStep(st: State, s: SessionKey, ts: set<TrackKey>, t: TrackKey)
    requires t in st.tracks && t !in ts
    ensures var f := Apply(LeaveAll(st, s, ts), Forget(s, t));
            && t in f.tracks && f.tracks[t] == ForgetIn(st.tracks[t], s)
            && LeaveAll(st, s, ts + {t})
               == if NoActiveDownstream(f.tracks[t]) then StopAll(f, t, LiveLegs(f.tracks[t]), true) else f
  {
    var st1 := LeaveAll(st, s, ts);
    assert st1.tracks[t] == st.tracks[t];
    var f := Apply(st1, Forget(s, t));
    ForgetIs(st1, s, t);
    assert KeysOf(st.tracks, s, ts + {t})
        == KeysOf(st.tracks, s, ts) + (set k | k in st.tracks[t].downs && k.session == s);
    assert f.downIndex == LeaveAll(st, s, ts + {t}).downIndex;
    assert LeaveAll(st, s, ts + {t}).tracks == f.tracks[t := LeftRoute(st.tracks[t], s)];
  }

  lemma LeaveTrackEffect(w: World, st: State, s: SessionKey, t: TrackKey, ts: set<TrackKey>, legs: seq<SessionKey>)
    requires t in st.tracks && t !in ts
    requires w.st == LeaveAll(st, s, ts)
    requires IsOrder(legs, LiveLegs(ForgetIn(st.tracks[t], s)))
    ensures Legal(w, LeaveTrack(st, s, t, legs))
    ensures Exec(w, LeaveTrack(st, s, t, legs)).st == LeaveAll(st, s, ts + {t})
    ensures Exec(w, LeaveTrack(st, s, t, legs)).used == w.used
  {
    LeaveAllStep(st, s, ts, t);
    SingleAct(w, Forget(s, t));
    var w1 := ApplyWorld(w, Forget(s, t));
    if NoActiveDownstream(ForgetIn(st.tracks[t], s)) {
      UnsubsEffect(w1, legs, t, true);
      ExecAppend(w, [Forget(s, t)], Unsubs(legs, t, true));
      assert ToSet(legs) == LiveLegs(w1.st.tracks[t]);
    } else {
      assert LeaveTrack(st, s, t, legs) == [Forget(s, t)];
    }
  }

  lemma {:induction false} LeaveTracksEffect(w: World, s: SessionKey, order: seq<TrackKey>,
                                             legs: map<TrackKey, seq<SessionKey>>)
    requires Distinct(order)
    requires forall t :: t in order ==>
               t in w.st.tracks && t in legs && IsOrder(legs[t], LiveLegs(ForgetIn(w.st.tracks[t], s)))
    ensures Legal(w, LeaveTracks(w.st, s, order, legs))
    ensures Exec(w, LeaveTracks(w.st, s, order, legs)).st == LeaveAll(w.st, s, ToSet(order))
    ensures Exec(w, LeaveTracks(w.st, s, order, legs)).used == w.used
  {
    if order == [] {
      assert ToSet(order) == {};
      LeaveAllNone(w.st, s);
    } else {
      var n := |order| - 1;
      var t := order[n];
      LeaveTracksEffect(w, s, order[..n], legs);
      assert ToSet(order) == ToSet(order[..n]) + {t};
      var w1 := Exec(w, LeaveTracks(w.st, s, order[..n], legs));
      LeaveTrackEffect(w1, w.st, s, t, ToSet(order[..n]), legs[t]);
      ExecAppend(w, LeaveTracks(w.st, s, order[..n], legs), LeaveTrack(w.st, s, t, legs[t]));
    }
  }

  lemma DepartEnabled(w: World, st: State, s: SessionKey, hadLeg: bool)
    requires w.st == LeaveAll(st, s, st.tracks.Keys)
    ensures Enabled(w, Depart(s, hadLeg))
  {
    forall t ensures !HasLeg(w.st, t, s) { }
    forall t, k | HasSub(w.st, t, k) ensures k.session != s { }
  }

  /** SessionClosed is legal and leads to the closed form above, whatever the iteration orders. */
  lemma ClosePlanEffect(w: World, s: SessionKey, c: Choice)
    requires Fair(w.st, SessionClosed(s), c)
    ensures Legal(w, ClosePlan(w, s, c))
    ensures Exec(w, ClosePlan(w, s, c)).st == Closed(w.st, s)
  {
    LeaveTracksEffect(w, s, c.tracks, c.legs);
    assert ToSet(c.tracks) == w.st.tracks.Keys;
    var acts := LeaveTracks(w.st, s, c.tracks, c.legs);
    DepartEnabled(Exec(w, acts), w.st, s, HadLeg(w.st, s));
    ExecSnoc(w, acts, Depart(s, HadLeg(w.st, s)));
    ClosedIs(w.st, s);
  }

  lemma ClosedIs(st: State, s: SessionKey)
    ensures Apply(LeaveAll(st, s, st.tracks.Keys), Depart(s, HadLeg(st, s))) == Closed(st, s)
  {
  }
}
