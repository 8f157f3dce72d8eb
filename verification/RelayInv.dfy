/** What holds of the relay's maps in every reachable state, and that every act keeps it. */
module RelayInv {
  import opened RelayState
  import opened RelayActs

  /** Request ids stay on their side's parity and within the limits; nothing happens before set-up. */
  predicate SessionOk(s: SessionState) {
    && s.localNext % 2 == LocalFirst(s.role) && s.peerNext % 2 == PeerFirst(s.role)
    && s.localMax <= ID_LIMIT && s.peerMax <= ID_LIMIT
    && s.localNext <= ID_LIMIT + 1 && s.peerNext <= ID_LIMIT + 1
    && s.nextOutbound >= 1
    && (s.localNext > LocalFirst(s.role) ==> s.localNext < s.peerMax + 2)
    && (s.peerNext > PeerFirst(s.role) ==> s.peerNext < s.localMax + 2)
    && (!s.setupDone ==> s.localNext == LocalFirst(s.role) && s.peerNext == PeerFirst(s.role) && s.published == {})
  }

  ghost predicate SessInv(st: State) {
    forall s :: s in st.sessions ==> SessionOk(st.sessions[s])
  }

  /** `publishers` is the exact inverse of the sessions' published namespaces, with no empty set. */
  ghost predicate PubInv(st: State) {
    && (forall ns :: ns in st.publishers ==> st.publishers[ns] != {})
    && (forall ns, s :: ns in st.publishers && s in st.publishers[ns] ==>
          s in st.sessions && ns in st.sessions[s].published)
    && (forall s, ns :: s in st.sessions && ns in st.sessions[s].published ==>
          ns in st.publishers && s in st.publishers[ns])
  }

  predicate SubOk(st: State, t: TrackKey, k: RequestKey)
    requires HasSub(st, t, k)
  {
    var d := Sub(st, t, k);
    && k.session in st.sessions
    && st.sessions[k.session].setupDone
    && k.id < st.sessions[k.session].peerNext
    && (Live(d.state) ==> k in st.downIndex && st.downIndex[k] == t)
    && (d.state.Pending? ==> d.forwardDesired && d.outboundAlias.None?)
    && (d.state.Established? ==>
          d.outboundAlias.Some? && 1 <= d.outboundAlias.value < st.sessions[k.session].nextOutbound)
  }

  /** A subscription is on one track only. */
  ghost predicate SubsUnique(st: State) {
    forall t1, t2, k :: HasSub(st, t1, k) && HasSub(st, t2, k) ==> t1 == t2
  }

  /** The downstream index is exactly the live subscriptions, each with its track. */
  ghost predicate DownInv(st: State) {
    && SubsUnique(st)
    && (forall t, k :: HasSub(st, t, k) ==> SubOk(st, t, k))
    && (forall k :: k in st.downIndex ==> HasSub(st, st.downIndex[k], k) && Live(Sub(st, st.downIndex[k], k).state))
  }

  predicate LegIsOk(st: State, t: TrackKey, p: SessionKey)
    requires HasLeg(st, t, p)
  {
    var leg := LegOf(st, t, p);
    && p in st.sessions
    && st.sessions[p].setupDone
    && leg.requestId < st.sessions[p].localNext
    && (Live(leg.state) ==> RequestKey(p, leg.requestId) in st.upIndex && st.upIndex[RequestKey(p, leg.requestId)] == t)
  }

  /** Live legs are indexed under their own id; ids in the index have been issued. */
  ghost predicate UpInv(st: State) {
    && (forall t, p :: HasLeg(st, t, p) ==> LegIsOk(st, t, p))
    && (forall x :: x in st.upIndex && x.session in st.sessions ==>
          st.sessions[x.session].setupDone && x.id < st.sessions[x.session].localNext)
    && (forall t1, t2, p :: HasLeg(st, t1, p) && HasLeg(st, t2, p) && t1 != t2 ==>
          LegOf(st, t1, p).requestId != LegOf(st, t2, p).requestId)
  }

  ghost predicate StateInv(st: State) {
    SessInv(st) && PubInv(st) && DownInv(st) && UpInv(st)
  }

  ghost predicate Inv(w: World) {
    && StateInv(w.st)
    && w.st.sessions.Keys <= w.used
    && forall x :: x in w.st.upIndex ==> x.session in w.used
  }

  // ---- Frames: acts that leave subscriptions, or legs, alone ----

  predicate Grows(a: SessionState, b: SessionState) {
    && (a.setupDone ==> b.setupDone)
    && a.peerNext <= b.peerNext && a.localNext <= b.localNext && a.nextOutbound <= b.nextOutbound
  }

  ghost predicate SubsFramed(st: State, st': State) {
    && st'.downIndex == st.downIndex
    && (forall t, k :: HasSub(st', t, k) ==>
          HasSub(st, t, k) && Sub(st', t, k) == Sub(st, t, k)
          && (k.session in st.sessions ==>
                k.session in st'.sessions && Grows(st.sessions[k.session], st'.sessions[k.session])))
    && (forall t, k :: HasSub(st, t, k) && Live(Sub(st, t, k).state) ==> HasSub(st', t, k))
  }

  ghost predicate LegsFramed(st: State, st': State) {
    && (forall t, p :: HasLeg(st', t, p) ==>
          HasLeg(st, t, p) && LegOf(st', t, p) == LegOf(st, t, p)
          && (p in st.sessions ==> p in st'.sessions && Grows(st.sessions[p], st'.sessions[p])))
    && (forall x :: x in st'.upIndex ==>
          x in st.upIndex && st'.upIndex[x] == st.upIndex[x]
          && (x.session in st'.sessions ==>
                x.session in st.sessions && Grows(st.sessions[x.session], st'.sessions[x.session])))
    && (forall x, t :: x in st.upIndex && x !in st'.upIndex ==> !HasLeg(st', t, x.session))
  }

  predicate LeavesSubs(act: Act) {
    !(act.AddSub? || act.Grant? || act.End? || act.Forget?)
  }

  predicate LeavesLegs(act: Act) {
    !(act.OpenLeg? || act.LegOk? || act.EndLeg? || act.Unsub?)
  }

  predicate SessionAct(act: Act) {
    act.Open? || act.Touch? || act.Say? || act.Announce? || act.Bind?
  }

  predicate ShrinksRoutes(act: Act) {
    act.Drop? || act.Depart?
  }

  lemma SubsFrame(w: World, act: Act)
    requires Inv(w) && Enabled(w, act) && LeavesSubs(act)
    ensures SubsFramed(w.st, Apply(w.st, act))
  {
    if SessionAct(act) {
      SubsFrameSession(w, act);
    } else if ShrinksRoutes(act) {
      SubsFrameShrinking(w, act);
    } else if act.OpenLeg? {
      SubsFrameOpenLeg(w, act);
    } else {
      SubsFrameSame(w, act);
    }
  }

  lemma SubsFrameSession(w: World, act: Act)
    requires Inv(w) && Enabled(w, act) && SessionAct(act)
    ensures SubsFramed(w.st, Apply(w.st, act))
  {
  }

  lemma SubsFrameOpenLeg(w: World, act: Act)
    requires Inv(w) && Enabled(w, act) && act.OpenLeg?
    ensures SubsFramed(w.st, Apply(w.st, act))
  {
    var st, st' := w.st, Apply(w.st, act);
    assert st'.tracks.Keys == st.tracks.Keys;
    assert forall t :: t in st.tracks ==> st'.tracks[t].downs == st.tracks[t].downs;
    assert forall s :: s in st.sessions ==> s in st'.sessions && Grows(st.sessions[s], st'.sessions[s]);
  }

  lemma SubsFrameSame(w: World, act: Act)
    requires Inv(w) && Enabled(w, act) && LeavesSubs(act) && !ShrinksRoutes(act) && !SessionAct(act) && !act.OpenLeg?
    ensures SubsFramed(w.st, Apply(w.st, act))
  {
    var st, st' := w.st, Apply(w.st, act);
    forall t, k | HasSub(st', t, k)
      ensures HasSub(st, t, k) && Sub(st', t, k) == Sub(st, t, k)
      ensures k.session in st.sessions ==>
                k.session in st'.sessions && Grows(st.sessions[k.session], st'.sessions[k.session])
    {
    }
    forall t, k | HasSub(st, t, k)
      ensures HasSub(st', t, k)
    {
    }
  }

  lemma SubsFrameShrinking(w: World, act: Act)
    requires Inv(w) && Enabled(w, act) && ShrinksRoutes(act)
    ensures SubsFramed(w.st, Apply(w.st, act))
  {
    var st, st' := w.st, Apply(w.st, act);
    forall t, k | HasSub(st', t, k)
      ensures HasSub(st, t, k) && Sub(st', t, k) == Sub(st, t, k)
      ensures k.session in st.sessions ==>
                k.session in st'.sessions && Grows(st.sessions[k.session], st'.sessions[k.session])
    {
      assert HasSub(st, t, k);
    }
  }

  lemma LegsFrame(w: World, act: Act)
    requires Inv(w) && Enabled(w, act) && LeavesLegs(act)
    ensures LegsFramed(w.st, Apply(w.st, act))
  {
    if SessionAct(act) {
      LegsFrameSession(w, act);
    } else if act.Depart? {
      LegsFrameDepart(w, act);
    } else if RouteAct(act) {
      LegsFrameShrinking(w, act);
    } else if act.AddSub? || act.Grant? {
      LegsFrameSubscriber(w, act);
    } else {
      LegsFrameSame(w, act);
    }
  }

  predicate RouteAct(act: Act) {
    act.SetExtensions? || act.Drop? || act.Forget? || act.Depart?
  }

  lemma LegsFrameSession(w: World, act: Act)
    requires Inv(w) && Enabled(w, act) && SessionAct(act)
    ensures LegsFramed(w.st, Apply(w.st, act))
  {
  }

  lemma LegsFrameSubscriber(w: World, act: Act)
    requires Inv(w) && Enabled(w, act) && (act.AddSub? || act.Grant?)
    ensures LegsFramed(w.st, Apply(w.st, act))
  {
  }

  lemma LegsFrameSame(w: World, act: Act)
    requires Inv(w) && Enabled(w, act) && LeavesLegs(act) && !RouteAct(act) && !SessionAct(act)
             && !act.AddSub? && !act.Grant?
    ensures LegsFramed(w.st, Apply(w.st, act))
  {
  }

  lemma LegsFrameDepart(w: World, act: Act)
    requires Inv(w) && Enabled(w, act) && act.Depart?
    ensures LegsFramed(w.st, Apply(w.st, act))
  {
    var st, st' := w.st, Apply(w.st, act);
    forall t, p | HasLeg(st', t, p)
      ensures HasLeg(st, t, p) && LegOf(st', t, p) == LegOf(st, t, p) && p != act.s
    {
      assert HasLeg(st, t, p);
    }
    forall x, t | x in st.upIndex && x !in st'.upIndex
      ensures !HasLeg(st', t, x.session)
    {
      assert !HasLeg(st, t, act.s);
    }
  }

  lemma LegsFrameShrinking(w: World, act: Act)
    requires Inv(w) && Enabled(w, act) && RouteAct(act) && !act.Depart?
    ensures LegsFramed(w.st, Apply(w.st, act))
  {
  }

  lemma DownInvFramed(st: State, st': State)
    requires DownInv(st) && SubsFramed(st, st')
    ensures DownInv(st')
  {
    assert SubsUnique(st') by {
      forall t1, t2, k | HasSub(st', t1, k) && HasSub(st', t2, k) ensures t1 == t2 {
        assert HasSub(st, t1, k) && HasSub(st, t2, k);
      }
    }
    forall t, k | HasSub(st', t, k)
      ensures SubOk(st', t, k)
    {
      assert HasSub(st, t, k) && SubOk(st, t, k);
    }
    forall k | k in st'.downIndex
      ensures HasSub(st', st'.downIndex[k], k) && Live(Sub(st', st'.downIndex[k], k).state)
    {
      assert HasSub(st, st.downIndex[k], k) && Live(Sub(st, st.downIndex[k], k).state);
    }
  }

  lemma UpInvFramed(st: State, st': State)
    requires UpInv(st) && LegsFramed(st, st')
    ensures UpInv(st')
  {
    forall t, p | HasLeg(st', t, p)
      ensures LegIsOk(st', t, p)
    {
      assert HasLeg(st, t, p) && LegIsOk(st, t, p);
    }
    forall t1, t2, p | HasLeg(st', t1, p) && HasLeg(st', t2, p) && t1 != t2
      ensures LegOf(st', t1, p).requestId != LegOf(st', t2, p).requestId
    {
      assert HasLeg(st, t1, p) && HasLeg(st, t2, p);
    }
  }

  // ---- Each invariant is kept ----

  lemma SessInvKept(w: World, act: Act)
    requires Inv(w) && Enabled(w, act)
    ensures SessInv(Apply(w.st, act))
  {
    if SessionAct(act) {
      SessInvKeptBySession(w, act);
    } else {
      SessInvKeptByRoute(w, act);
    }
  }

  lemma SessInvKeptBySession(w: World, act: Act)
    requires Inv(w) && Enabled(w, act) && SessionAct(act)
    ensures SessInv(Apply(w.st, act))
  {
  }

  lemma SessInvKeptByRoute(w: World, act: Act)
    requires Inv(w) && Enabled(w, act) && !SessionAct(act)
    ensures SessInv(Apply(w.st, act))
  {
  }

  lemma PubInvKept(w: World, act: Act)
    requires Inv(w) && Enabled(w, act)
    ensures PubInv(Apply(w.st, act))
  {
    if SessionAct(act) {
      PubInvKeptBySession(w, act);
    } else if act.Depart? {
      PubInvKeptByDepart(w, act);
    } else {
      PubInvKeptByRoute(w, act);
    }
  }

  lemma PubInvKeptBySession(w: World, act: Act)
    requires Inv(w) && Enabled(w, act) && SessionAct(act)
    ensures PubInv(Apply(w.st, act))
  {
  }

  lemma PubInvKeptByDepart(w: World, act: Act)
    requires Inv(w) && Enabled(w, act) && act.Depart?
    ensures PubInv(Apply(w.st, act))
  {
  }

  /** Acts on routes leave who publishes what alone. */
  lemma PublishersStay(w: World, act: Act)
    requires Enabled(w, act) && !SessionAct(act) && !act.Depart?
    ensures Apply(w.st, act).publishers == w.st.publishers && Apply(w.st, act).sessions.Keys == w.st.sessions.Keys
    ensures forall s :: s in w.st.sessions ==> Apply(w.st, act).sessions[s].published == w.st.sessions[s].published
  {
  }

  lemma PubInvKeptByRoute(w: World, act: Act)
    requires Inv(w) && Enabled(w, act) && !SessionAct(act) && !act.Depart?
    ensures PubInv(Apply(w.st, act))
  {
    PublishersStay(w, act);
    SamePublishers(w.st, Apply(w.st, act));
  }

  lemma SamePublishers(st: State, st': State)
    requires PubInv(st) && st'.publishers == st.publishers && st'.sessions.Keys == st.sessions.Keys
    requires forall s :: s in st.sessions ==> st'.sessions[s].published == st.sessions[s].published
    ensures PubInv(st')
  {
  }

  /** Only AddSub records a subscription. */
  lemma NoNewSub(w: World, act: Act, t: TrackKey, k: RequestKey)
    requires HasSub(Apply(w.st, act), t, k)
    ensures HasSub(w.st, t, k) || (act.AddSub? && act.t == t && act.k == k)
  {
  }

  lemma SubsUniqueKept(w: World, act: Act)
    requires Inv(w) && Enabled(w, act)
    ensures SubsUnique(Apply(w.st, act))
  {
    forall t1, t2, k | HasSub(Apply(w.st, act), t1, k) && HasSub(Apply(w.st, act), t2, k)
      ensures t1 == t2
    {
      NoNewSub(w, act, t1, k);
      NoNewSub(w, act, t2, k);
      assert HasSub(w.st, t1, k) ==> SubOk(w.st, t1, k);
      assert HasSub(w.st, t2, k) ==> SubOk(w.st, t2, k);
    }
  }

  lemma DownInvKeptAddSub(w: World, act: Act)
    requires Inv(w) && Enabled(w, act) && act.AddSub?
    ensures DownInv(Apply(w.st, act))
  {
    var st, st' := w.st, Apply(w.st, act);
    SubsUniqueKept(w, act);
    forall t, k | HasSub(st', t, k)
      ensures SubOk(st', t, k)
    {
      assert HasSub(st, t, k) ==> SubOk(st, t, k);
    }
    forall k | k in st'.downIndex
      ensures HasSub(st', st'.downIndex[k], k) && Live(Sub(st', st'.downIndex[k], k).state)
    {
      assert k in st.downIndex ==> HasSub(st, st.downIndex[k], k);
    }
  }

  lemma DownInvKeptGrant(w: World, act: Act)
    requires Inv(w) && Enabled(w, act) && act.Grant?
    ensures DownInv(Apply(w.st, act))
  {
    var st, st' := w.st, Apply(w.st, act);
    SubsUniqueKept(w, act);
    forall t, k | HasSub(st', t, k)
      ensures SubOk(st', t, k)
    {
      assert HasSub(st, t, k) ==> SubOk(st, t, k);
    }
    forall k | k in st'.downIndex
      ensures HasSub(st', st'.downIndex[k], k) && Live(Sub(st', st'.downIndex[k], k).state)
    {
      assert k in st.downIndex ==> HasSub(st, st.downIndex[k], k);
    }
  }

  /** Ending leaves the sessions, and every subscription but the one it ends, alone. */
  lemma EndFrame(st: State, act: Act, t: TrackKey, k: RequestKey)
    requires act.End? && HasSub(st, act.t, act.k) && HasSub(Apply(st, act), t, k)
    ensures HasSub(st, t, k) && Apply(st, act).sessions == st.sessions
    ensures Apply(st, act).downIndex == st.downIndex - {act.k}
    ensures if (t, k) == (act.t, act.k) then Sub(Apply(st, act), t, k).state.Terminated?
            else Sub(Apply(st, act), t, k) == Sub(st, t, k)
  {
  }

  lemma SubsOkAfterEnd(w: World, act: Act, t: TrackKey, k: RequestKey)
    requires Inv(w) && Enabled(w, act) && act.End? && HasSub(Apply(w.st, act), t, k)
    ensures SubOk(Apply(w.st, act), t, k)
  {
    EndFrame(w.st, act, t, k);
    assert SubOk(w.st, t, k);
  }

  lemma DownInvKeptEnd(w: World, act: Act)
    requires Inv(w) && Enabled(w, act) && act.End?
    ensures DownInv(Apply(w.st, act))
  {
    var st, st' := w.st, Apply(w.st, act);
    SubsUniqueKept(w, act);
    forall t, k | HasSub(st', t, k)
      ensures SubOk(st', t, k)
    {
      SubsOkAfterEnd(w, act, t, k);
    }
    forall k | k in st'.downIndex
      ensures HasSub(st', st'.downIndex[k], k) && Live(Sub(st', st'.downIndex[k], k).state)
    {
      assert k in st.downIndex ==> HasSub(st, st.downIndex[k], k);
    }
  }

  lemma DownInvKeptForget(w: World, act: Act)
    requires Inv(w) && Enabled(w, act) && act.Forget?
    ensures DownInv(Apply(w.st, act))
  {
    var st, st' := w.st, Apply(w.st, act);
    SubsUniqueKept(w, act);
    forall t, k | HasSub(st', t, k)
      ensures SubOk(st', t, k)
    {
      assert HasSub(st, t, k) ==> SubOk(st, t, k);
      assert !HasSub(st, act.t, k) || t == act.t;
    }
    forall k | k in st'.downIndex
      ensures HasSub(st', st'.downIndex[k], k) && Live(Sub(st', st'.downIndex[k], k).state)
    {
      assert k in st.downIndex ==> HasSub(st, st.downIndex[k], k);
    }
  }

  lemma LegOkAfterOpenLeg(w: World, act: Act, t: TrackKey, p: SessionKey)
    requires Inv(w) && Enabled(w, act) && act.OpenLeg? && HasLeg(Apply(w.st, act), t, p)
    ensures LegIsOk(Apply(w.st, act), t, p)
  {
    assert HasLeg(w.st, t, p) ==> LegIsOk(w.st, t, p);
  }

  lemma UpInvKeptOpenLeg(w: World, act: Act)
    requires Inv(w) && Enabled(w, act) && act.OpenLeg?
    ensures UpInv(Apply(w.st, act))
  {
    var st, st' := w.st, Apply(w.st, act);
    forall t, p | HasLeg(st', t, p)
      ensures LegIsOk(st', t, p)
    {
      LegOkAfterOpenLeg(w, act, t, p);
    }
    forall t1, t2, p | HasLeg(st', t1, p) && HasLeg(st', t2, p) && t1 != t2
      ensures LegOf(st', t1, p).requestId != LegOf(st', t2, p).requestId
    {
      assert HasLeg(st, t1, p) ==> LegIsOk(st, t1, p);
      assert HasLeg(st, t2, p) ==> LegIsOk(st, t2, p);
    }
  }

  lemma UpInvKeptLegOk(w: World, act: Act)
    requires Inv(w) && Enabled(w, act) && act.LegOk?
    ensures UpInv(Apply(w.st, act))
  {
    var st, st' := w.st, Apply(w.st, act);
    forall t, p | HasLeg(st', t, p)
      ensures LegIsOk(st', t, p)
    {
      assert HasLeg(st, t, p) ==> LegIsOk(st, t, p);
    }
    forall t1, t2, p | HasLeg(st', t1, p) && HasLeg(st', t2, p) && t1 != t2
      ensures LegOf(st', t1, p).requestId != LegOf(st', t2, p).requestId
    {
      assert HasLeg(st, t1, p) ==> LegIsOk(st, t1, p);
      assert HasLeg(st, t2, p) ==> LegIsOk(st, t2, p);
    }
  }

  lemma UpInvKeptEndLeg(w: World, act: Act)
    requires Inv(w) && Enabled(w, act) && act.EndLeg?
    ensures UpInv(Apply(w.st, act))
  {
    var st, st' := w.st, Apply(w.st, act);
    forall t, p | HasLeg(st', t, p)
      ensures LegIsOk(st', t, p)
    {
      assert HasLeg(st, t, p) ==> LegIsOk(st, t, p);
    }
    forall t1, t2, p | HasLeg(st', t1, p) && HasLeg(st', t2, p) && t1 != t2
      ensures LegOf(st', t1, p).requestId != LegOf(st', t2, p).requestId
    {
      assert HasLeg(st, t1, p) ==> LegIsOk(st, t1, p);
      assert HasLeg(st, t2, p) ==> LegIsOk(st, t2, p);
    }
  }

  lemma UpInvKeptUnsub(w: World, act: Act)
    requires Inv(w) && Enabled(w, act) && act.Unsub?
    ensures UpInv(Apply(w.st, act))
  {
    var st, st' := w.st, Apply(w.st, act);
    forall t, p | HasLeg(st', t, p)
      ensures LegIsOk(st', t, p)
    {
      assert HasLeg(st, t, p) ==> LegIsOk(st, t, p);
    }
    forall t1, t2, p | HasLeg(st', t1, p) && HasLeg(st', t2, p) && t1 != t2
      ensures LegOf(st', t1, p).requestId != LegOf(st', t2, p).requestId
    {
      assert HasLeg(st, t1, p) ==> LegIsOk(st, t1, p);
      assert HasLeg(st, t2, p) ==> LegIsOk(st, t2, p);
    }
  }

  lemma DownInvKept(w: World, act: Act)
    requires Inv(w) && Enabled(w, act)
    ensures DownInv(Apply(w.st, act))
  {
    if act.AddSub? {
      DownInvKeptAddSub(w, act);
    } else if act.Grant? {
      DownInvKeptGrant(w, act);
    } else if act.End? {
      DownInvKeptEnd(w, act);
    } else if act.Forget? {
      DownInvKeptForget(w, act);
    } else {
      SubsFrame(w, act);
      DownInvFramed(w.st, Apply(w.st, act));
    }
  }

  lemma UpInvKept(w: World, act: Act)
    requires Inv(w) && Enabled(w, act)
    ensures UpInv(Apply(w.st, act))
  {
    if act.OpenLeg? {
      UpInvKeptOpenLeg(w, act);
    } else if act.LegOk? {
      UpInvKeptLegOk(w, act);
    } else if act.EndLeg? {
      UpInvKeptEndLeg(w, act);
    } else if act.Unsub? {
      UpInvKeptUnsub(w, act);
    } else {
      LegsFrame(w, act);
      UpInvFramed(w.st, Apply(w.st, act));
    }
  }

  lemma KeysKept(w: World, act: Act)
    requires Inv(w) && Enabled(w, act)
    ensures Apply(w.st, act).sessions.Keys <= ApplyWorld(w, act).used
    ensures forall x :: x in Apply(w.st, act).upIndex ==> x.session in w.used
  {
  }

  /** Every enabled act keeps the invariant. */
  lemma InvKept(w: World, act: Act)
    requires Inv(w) && Enabled(w, act)
    ensures Inv(ApplyWorld(w, act))
  {
    SessInvKept(w, act);
    PubInvKept(w, act);
    DownInvKept(w, act);
    UpInvKept(w, act);
    KeysKept(w, act);
  }

  lemma {:induction false} InvRun(w: World, acts: seq<Act>)
    requires Inv(w) && Legal(w, acts)
    ensures Inv(Exec(w, acts))
  {
    if acts != [] {
      var n := |acts| - 1;
      InvRun(w, acts[..n]);
      InvKept(Exec(w, acts[..n]), acts[n]);
    }
  }
}
