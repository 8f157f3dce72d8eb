/** Invariants that tie the relay's maps to its history, and that every act keeps them. */
module RelayTrace {
  import opened MoqTypes
  import opened RelayState
  import opened RelayLog
  import opened RelayActs
  import opened RelayInv

  /** The peer has not used this id yet. */
  predicate Unused(w: World, k: RequestKey) {
    k.session !in w.used || (k.session in w.st.sessions && k.id >= w.st.sessions[k.session].peerNext)
  }

  /** The relay has not issued this id yet. */
  predicate Unissued(w: World, x: RequestKey) {
    x.session !in w.used || (x.session in w.st.sessions && x.id >= w.st.sessions[x.session].localNext)
  }

  /** The replies rs a subscription has had fit its state in the maps. */
  ghost predicate RepliesFit(w: World, k: RequestKey, rs: seq<Reply>)
    requires DownInv(w.st)
  {
    && ReplyGrammar(rs)
    && (Unused(w, k) ==> rs == [])
    && (k in w.st.downIndex ==>
          var d := Sub(w.st, w.st.downIndex[k], k);
          (d.state.Pending? ==> rs == []) && (d.state.Established? ==> rs == [Accepted(d.outboundAlias.value)]))
  }

  /** The leg of track t held by x's session is live and has id x. */
  predicate LiveLegAt(st: State, t: TrackKey, x: RequestKey) {
    HasLeg(st, t, x.session) && LegOf(st, t, x.session).requestId == x.id && Live(LegOf(st, t, x.session).state)
  }

  /** The messages ms sent about one upstream id fit the leg that holds it. */
  ghost predicate LegMsgsFit(w: World, x: RequestKey, ms: seq<LegMsg>) {
    && LegGrammar(ms)
    && (Unissued(w, x) ==> ms == [])
    && (x in w.st.upIndex && x.session in w.st.sessions ==> Asked(w.st.upIndex[x]) in ms)
    && (forall t :: LiveLegAt(w.st, t, x) ==> ms == [Asked(t)])
  }

  /** SUBSCRIBE ids issued to p: consecutive steps of two from the role's first id, within the limit. */
  ghost predicate IssuedFit(w: World, p: SessionKey, ids: seq<nat>) {
    && (p !in w.used ==> ids == [])
    && (p in w.st.sessions ==>
          var sess := w.st.sessions[p];
          && LocalFirst(sess.role) + 2 * |ids| == sess.localNext
          && forall i :: 0 <= i < |ids| ==> ids[i] == LocalFirst(sess.role) + 2 * i)
  }

  /** Aliases announced to s: 1, 2, 3, ... up to the next free one. */
  ghost predicate AliasesFit(w: World, s: SessionKey, as_: seq<nat>) {
    && (s !in w.used ==> as_ == [])
    && (s in w.st.sessions ==>
          1 + |as_| == w.st.sessions[s].nextOutbound && forall i :: 0 <= i < |as_| ==> as_[i] == i + 1)
  }

  /** No alias of a session is announced for two of its subscriptions. */
  ghost predicate AliasesApart(w: World) {
    && (forall k, a: nat :: Accepted(a) in Replies(w.log, k) && k.session in w.st.sessions ==>
          a < w.st.sessions[k.session].nextOutbound)
    && (forall s, id1, id2, a: nat ::
          Accepted(a) in Replies(w.log, RequestKey(s, id1)) && Accepted(a) in Replies(w.log, RequestKey(s, id2)) ==>
          id1 == id2)
  }

  /** No object travels under an alias that has not been announced. */
  ghost predicate ObjectsAnnounced(log: seq<Obs>) {
    forall i :: 0 <= i < |log| && log[i].Tx? && log[i].output.SendObject? ==>
      log[i].output.alias in Aliases(log[..i], log[i].output.session)
  }

  /** Every inbound alias was announced by its session in answer to a SUBSCRIBE for its track. */
  ghost predicate BindingsOk(w: World) {
    forall p, a :: p in w.st.sessions && a in w.st.sessions[p].inbound ==>
      BoundByAnswer(w.log, p, a, w.st.sessions[p].inbound[a])
  }

  /** Established legs were answered. */
  ghost predicate OriginsOk(w: World) {
    forall t, p :: HasLeg(w.st, t, p) && LegOf(w.st, t, p).state.Established? ==> TrackAnswered(w.log, t)
  }

  ghost predicate TraceInv(w: World)
    requires Inv(w)
  {
    && OriginsOk(w)
    && (forall k :: RepliesFit(w, k, Replies(w.log, k)))
    && (forall x :: LegMsgsFit(w, x, LegMsgs(w.log, x)))
    && (forall p :: IssuedFit(w, p, IssuedIds(w.log, p)))
    && (forall s :: AliasesFit(w, s, Aliases(w.log, s)))
    && AliasesApart(w)
    && ObjectsAnnounced(w.log)
    && BindingsOk(w)
  }

  /** How one act extends a view. */
  lemma ViewOfAct<T>(w: World, act: Act, view: Obs -> seq<T>)
    ensures var out := Emit(w.st, act);
            Collect(ApplyWorld(w, act).log, view)
            == Collect(w.log, view) + (if out == [] then [] else view(Tx(out[0])))
  {
    var out := Emit(w.st, act);
    if out == [] {
      assert w.log + Sent(out) == w.log;
    } else {
      assert Sent(out) == [Tx(out[0])];
      CollectSnoc(w.log, Tx(out[0]), view);
    }
  }

  // ---- What an act adds to each view ----

  function NewReply(st: State, act: Act, k: RequestKey): seq<Reply> {
    if act.Grant? && act.k == k && k.session in st.sessions then [Accepted(st.sessions[k.session].nextOutbound)]
    else if act.End? && act.k == k && act.verdict.Refused? then [Failed]
    else if act.End? && act.k == k && act.verdict.Completed? then [Done]
    else []
  }

  function NewLegMsg(st: State, act: Act, x: RequestKey): seq<LegMsg> {
    if act.OpenLeg? && act.p == x.session && CanOpenLeg(st, act.p, act.t) && st.sessions[act.p].localNext == x.id
    then [Asked(act.t)]
    else if act.Unsub? && act.p == x.session && HasLeg(st, act.t, act.p) && LegOf(st, act.t, act.p).requestId == x.id
    then [Withdrew]
    else []
  }

  lemma ReplyOfAct(st: State, act: Act, k: RequestKey)
    requires act.Say? ==> Harmless(st, act.out)
    ensures var out := Emit(st, act); (if out == [] then [] else ReplyIn(Tx(out[0]), k)) == NewReply(st, act, k)
  {
  }

  lemma LegMsgOfAct(st: State, act: Act, x: RequestKey)
    requires act.Say? ==> Harmless(st, act.out)
    ensures var out := Emit(st, act); (if out == [] then [] else LegMsgIn(Tx(out[0]), x)) == NewLegMsg(st, act, x)
  {
  }

  lemma RepliesGrow(w: World, act: Act, k: RequestKey)
    requires act.Say? ==> Harmless(w.st, act.out)
    ensures Replies(ApplyWorld(w, act).log, k) == Replies(w.log, k) + NewReply(w.st, act, k)
  {
    ViewOfAct(w, act, ReplyView(k));
    ReplyOfAct(w.st, act, k);
  }

  lemma LegMsgsGrow(w: World, act: Act, x: RequestKey)
    requires act.Say? ==> Harmless(w.st, act.out)
    ensures LegMsgs(ApplyWorld(w, act).log, x) == LegMsgs(w.log, x) + NewLegMsg(w.st, act, x)
  {
    ViewOfAct(w, act, LegView(x));
    LegMsgOfAct(w.st, act, x);
  }

  lemma UnusedShrinks(w: World, act: Act, k: RequestKey)
    requires Inv(w) && Enabled(w, act)
    ensures Unused(ApplyWorld(w, act), k) ==> Unused(w, k)
  {
  }

  lemma UnissuedShrinks(w: World, act: Act, x: RequestKey)
    requires Inv(w) && Enabled(w, act)
    ensures Unissued(ApplyWorld(w, act), x) ==> Unissued(w, x)
  {
  }

  lemma RepliesFitFramed(w: World, w': World, k: RequestKey, rs: seq<Reply>)
    requires Inv(w) && Inv(w') && RepliesFit(w, k, rs)
    requires SubsFramed(w.st, w'.st)
    requires Unused(w', k) ==> Unused(w, k)
    ensures RepliesFit(w', k, rs)
  {
    RepliesFitAlike(w, w', k, rs);
  }

  lemma RepliesFitKeptAddSub(w: World, act: Act, k: RequestKey, rs: seq<Reply>)
    requires Inv(w) && Enabled(w, act) && act.AddSub? && Inv(ApplyWorld(w, act)) && RepliesFit(w, k, rs)
    ensures RepliesFit(ApplyWorld(w, act), k, rs + NewReply(w.st, act, k))
  {
    assert rs + [] == rs;
    UnusedShrinks(w, act, k);
    if k in w.st.downIndex {
      assert HasSub(w.st, w.st.downIndex[k], k) && SubOk(w.st, w.st.downIndex[k], k);
    }
  }

  lemma RepliesFitKeptGrant(w: World, act: Act, k: RequestKey, rs: seq<Reply>)
    requires Inv(w) && Enabled(w, act) && act.Grant? && Inv(ApplyWorld(w, act)) && RepliesFit(w, k, rs)
    ensures RepliesFit(ApplyWorld(w, act), k, rs + NewReply(w.st, act, k))
  {
    if k == act.k {
      GrantedReply(w, act, rs);
    } else {
      GrantedOther(w, act, k, rs);
    }
  }

  /** The others hear nothing. */
  lemma GrantedOther(w: World, act: Act, k: RequestKey, rs: seq<Reply>)
    requires Inv(w) && Enabled(w, act) && act.Grant? && Inv(ApplyWorld(w, act)) && RepliesFit(w, k, rs) && k != act.k
    ensures RepliesFit(ApplyWorld(w, act), k, rs + NewReply(w.st, act, k))
  {
    UnusedShrinks(w, act, k);
    GrantedSub(w.st, act);
    RepliesFitAlike(w, ApplyWorld(w, act), k, rs);
    assert rs + [] == rs;
  }

  /** Replies fit as long as their own subscription is the same. */
  lemma RepliesFitAlike(w: World, w': World, k: RequestKey, rs: seq<Reply>)
    requires DownInv(w.st) && DownInv(w'.st) && RepliesFit(w, k, rs) && (Unused(w', k) ==> Unused(w, k))
    requires w'.st.downIndex == w.st.downIndex
    requires forall t :: HasSub(w'.st, t, k) ==> HasSub(w.st, t, k) && Sub(w'.st, t, k) == Sub(w.st, t, k)
    ensures RepliesFit(w', k, rs)
  {
    if k in w'.st.downIndex { assert HasSub(w'.st, w'.st.downIndex[k], k); }
  }

  /** The one whose turn it is hears its first reply. */
  lemma GrantedReply(w: World, act: Act, rs: seq<Reply>)
    requires Inv(w) && Enabled(w, act) && act.Grant? && Inv(ApplyWorld(w, act)) && RepliesFit(w, act.k, rs)
    ensures RepliesFit(ApplyWorld(w, act), act.k, rs + NewReply(w.st, act, act.k))
  {
    UnusedShrinks(w, act, act.k);
    assert SubOk(w.st, act.t, act.k);
    GrantedSub(w.st, act);
    assert rs == [];
  }

  /** Granting changes one subscription and no entry of the downstream index. */
  lemma GrantedSub(st: State, act: Act)
    requires act.Grant? && HasSub(st, act.t, act.k) && act.k.session in st.sessions
    ensures var st' := Apply(st, act);
            && st'.downIndex == st.downIndex
            && HasSub(st', act.t, act.k) && Sub(st', act.t, act.k).state.Established?
            && Sub(st', act.t, act.k).outboundAlias == Some(st.sessions[act.k.session].nextOutbound)
            && (forall t, j :: HasSub(st', t, j) && (t, j) != (act.t, act.k) ==>
                  HasSub(st, t, j) && Sub(st', t, j) == Sub(st, t, j))
  {
  }

  lemma RepliesFitKeptEnd(w: World, act: Act, k: RequestKey, rs: seq<Reply>)
    requires Inv(w) && Enabled(w, act) && act.End? && Inv(ApplyWorld(w, act)) && RepliesFit(w, k, rs)
    ensures RepliesFit(ApplyWorld(w, act), k, rs + NewReply(w.st, act, k))
  {
    assert rs + [] == rs;
    UnusedShrinks(w, act, k);
    assert SubOk(w.st, act.t, act.k);
  }

  lemma RepliesFitKeptForget(w: World, act: Act, k: RequestKey, rs: seq<Reply>)
    requires Inv(w) && Enabled(w, act) && act.Forget? && Inv(ApplyWorld(w, act)) && RepliesFit(w, k, rs)
    ensures RepliesFit(ApplyWorld(w, act), k, rs + NewReply(w.st, act, k))
  {
    assert rs + [] == rs;
    UnusedShrinks(w, act, k);
    if k in w.st.downIndex {
      assert HasSub(w.st, w.st.downIndex[k], k);
    }
  }

  lemma RepliesFitKept(w: World, act: Act, k: RequestKey, rs: seq<Reply>)
    requires Inv(w) && Enabled(w, act) && Inv(ApplyWorld(w, act)) && RepliesFit(w, k, rs)
    ensures RepliesFit(ApplyWorld(w, act), k, rs + NewReply(w.st, act, k))
  {
    if act.AddSub? {
      RepliesFitKeptAddSub(w, act, k, rs);
    } else if act.Grant? {
      RepliesFitKeptGrant(w, act, k, rs);
    } else if act.End? {
      RepliesFitKeptEnd(w, act, k, rs);
    } else if act.Forget? {
      RepliesFitKeptForget(w, act, k, rs);
    } else {
      RepliesFitKeptOther(w, act, k, rs);
    }
  }

  lemma RepliesFitKeptOther(w: World, act: Act, k: RequestKey, rs: seq<Reply>)
    requires Inv(w) && Enabled(w, act) && Inv(ApplyWorld(w, act)) && RepliesFit(w, k, rs) && LeavesSubs(act)
    ensures RepliesFit(ApplyWorld(w, act), k, rs + NewReply(w.st, act, k))
  {
    SubsFrame(w, act);
    UnusedShrinks(w, act, k);
    RepliesFitFramed(w, ApplyWorld(w, act), k, rs);
    assert rs + [] == rs;
  }

  lemma LegMsgsFitFramed(w: World, w': World, x: RequestKey, ms: seq<LegMsg>)
    requires Inv(w) && Inv(w') && LegMsgsFit(w, x, ms)
    requires LegsFramed(w.st, w'.st)
    requires Unissued(w', x) ==> Unissued(w, x)
    ensures LegMsgsFit(w', x, ms)
  {
    forall t | LiveLegAt(w'.st, t, x)
      ensures ms == [Asked(t)]
    {
      assert HasLeg(w'.st, t, x.session);
      assert LiveLegAt(w.st, t, x);
    }
  }

  lemma LegMsgsFitKeptOpenLeg(w: World, act: Act, x: RequestKey, ms: seq<LegMsg>)
    requires Inv(w) && Enabled(w, act) && act.OpenLeg? && Inv(ApplyWorld(w, act)) && LegMsgsFit(w, x, ms)
    ensures LegMsgsFit(ApplyWorld(w, act), x, ms + NewLegMsg(w.st, act, x))
  {
    var st, st' := w.st, Apply(w.st, act);
    assert ms + [] == ms;
    UnissuedShrinks(w, act, x);
    forall t | LiveLegAt(st', t, x)
      ensures ms + NewLegMsg(st, act, x) == [Asked(t)]
    {
      assert HasLeg(st', t, x.session);
      assert LiveLegAt(st, t, x) || t == act.t;
    }
  }

  lemma LegMsgsFitKeptLegOk(w: World, act: Act, x: RequestKey, ms: seq<LegMsg>)
    requires Inv(w) && Enabled(w, act) && act.LegOk? && Inv(ApplyWorld(w, act)) && LegMsgsFit(w, x, ms)
    ensures LegMsgsFit(ApplyWorld(w, act), x, ms + NewLegMsg(w.st, act, x))
  {
    var st, st' := w.st, Apply(w.st, act);
    assert ms + [] == ms;
    UnissuedShrinks(w, act, x);
    forall t | LiveLegAt(st', t, x)
      ensures ms + NewLegMsg(st, act, x) == [Asked(t)]
    {
      assert HasLeg(st', t, x.session);
      assert LiveLegAt(st, t, x);
    }
  }

  lemma LegMsgsFitKeptEndLeg(w: World, act: Act, x: RequestKey, ms: seq<LegMsg>)
    requires Inv(w) && Enabled(w, act) && act.EndLeg? && Inv(ApplyWorld(w, act)) && LegMsgsFit(w, x, ms)
    ensures LegMsgsFit(ApplyWorld(w, act), x, ms + NewLegMsg(w.st, act, x))
  {
    var st, st' := w.st, Apply(w.st, act);
    assert ms + [] == ms;
    UnissuedShrinks(w, act, x);
    forall t | LiveLegAt(st', t, x)
      ensures ms + NewLegMsg(st, act, x) == [Asked(t)]
    {
      assert HasLeg(st', t, x.session);
      assert LiveLegAt(st, t, x);
    }
  }

  lemma LegMsgsFitKeptUnsub(w: World, act: Act, x: RequestKey, ms: seq<LegMsg>)
    requires Inv(w) && Enabled(w, act) && act.Unsub? && Inv(ApplyWorld(w, act)) && LegMsgsFit(w, x, ms)
    ensures LegMsgsFit(ApplyWorld(w, act), x, ms + NewLegMsg(w.st, act, x))
  {
    var st, st' := w.st, Apply(w.st, act);
    assert ms + [] == ms;
    UnissuedShrinks(w, act, x);
    assert LegIsOk(w.st, act.t, act.p);
    forall t | LiveLegAt(st', t, x)
      ensures ms + NewLegMsg(st, act, x) == [Asked(t)]
    {
      assert HasLeg(st', t, x.session);
      assert LiveLegAt(st, t, x);
    }
  }

  lemma LegMsgsFitKept(w: World, act: Act, x: RequestKey, ms: seq<LegMsg>)
    requires Inv(w) && Enabled(w, act) && Inv(ApplyWorld(w, act)) && LegMsgsFit(w, x, ms)
    ensures LegMsgsFit(ApplyWorld(w, act), x, ms + NewLegMsg(w.st, act, x))
  {
    if act.OpenLeg? {
      LegMsgsFitKeptOpenLeg(w, act, x, ms);
    } else if act.LegOk? {
      LegMsgsFitKeptLegOk(w, act, x, ms);
    } else if act.EndLeg? {
      LegMsgsFitKeptEndLeg(w, act, x, ms);
    } else if act.Unsub? {
      LegMsgsFitKeptUnsub(w, act, x, ms);
    } else {
      LegMsgsFitKeptOther(w, act, x, ms);
    }
  }

  lemma LegMsgsFitKeptOther(w: World, act: Act, x: RequestKey, ms: seq<LegMsg>)
    requires Inv(w) && Enabled(w, act) && Inv(ApplyWorld(w, act)) && LegMsgsFit(w, x, ms) && LeavesLegs(act)
    ensures LegMsgsFit(ApplyWorld(w, act), x, ms + NewLegMsg(w.st, act, x))
  {
    LegsFrame(w, act);
    UnissuedShrinks(w, act, x);
    LegMsgsFitFramed(w, ApplyWorld(w, act), x, ms);
    assert ms + [] == ms;
  }

  function NewIssued(st: State, act: Act, p: SessionKey): seq<nat> {
    if act.OpenLeg? && act.p == p && CanOpenLeg(st, p, act.t) then [st.sessions[p].localNext] else []
  }

  function NewAlias(st: State, act: Act, s: SessionKey): seq<nat> {
    if act.Grant? && act.k.session == s && s in st.sessions then [st.sessions[s].nextOutbound] else []
  }

  lemma IssuedOfAct(st: State, act: Act, p: SessionKey)
    requires act.Say? ==> Harmless(st, act.out)
    ensures var out := Emit(st, act); (if out == [] then [] else IssuedIn(Tx(out[0]), p)) == NewIssued(st, act, p)
  {
  }

  lemma AliasOfAct(st: State, act: Act, s: SessionKey)
    requires act.Say? ==> Harmless(st, act.out)
    ensures var out := Emit(st, act); (if out == [] then [] else AliasIn(Tx(out[0]), s)) == NewAlias(st, act, s)
  {
  }

  lemma IssuedGrow(w: World, act: Act, p: SessionKey)
    requires act.Say? ==> Harmless(w.st, act.out)
    ensures IssuedIds(ApplyWorld(w, act).log, p) == IssuedIds(w.log, p) + NewIssued(w.st, act, p)
  {
    ViewOfAct(w, act, IssuedView(p));
    IssuedOfAct(w.st, act, p);
  }

  lemma AliasesGrow(w: World, act: Act, s: SessionKey)
    requires act.Say? ==> Harmless(w.st, act.out)
    ensures Aliases(ApplyWorld(w, act).log, s) == Aliases(w.log, s) + NewAlias(w.st, act, s)
  {
    ViewOfAct(w, act, AliasView(s));
    AliasOfAct(w.st, act, s);
  }

  lemma IssuedFitKept(w: World, act: Act, p: SessionKey, ids: seq<nat>)
    requires Inv(w) && Enabled(w, act) && IssuedFit(w, p, ids)
    ensures IssuedFit(ApplyWorld(w, act), p, ids + NewIssued(w.st, act, p))
  {
    if act.OpenLeg? {
      IssuedFitKeptOpenLeg(w, act, p, ids);
    } else {
      assert ids + [] == ids;
      LocalNextStays(w, act, p);
    }
  }

  lemma IssuedFitKeptOpenLeg(w: World, act: Act, p: SessionKey, ids: seq<nat>)
    requires Inv(w) && Enabled(w, act) && act.OpenLeg? && IssuedFit(w, p, ids)
    ensures IssuedFit(ApplyWorld(w, act), p, ids + NewIssued(w.st, act, p))
  {
    assert ids + [] == ids;
  }

  /** Only a new leg takes an id. */
  lemma LocalNextStays(w: World, act: Act, p: SessionKey)
    requires Inv(w) && Enabled(w, act) && !act.OpenLeg?
    ensures p in Apply(w.st, act).sessions && p in w.st.sessions ==>
              && Apply(w.st, act).sessions[p].localNext == w.st.sessions[p].localNext
              && Apply(w.st, act).sessions[p].role == w.st.sessions[p].role
    ensures p in Apply(w.st, act).sessions && p !in w.st.sessions ==>
              act.Open? && act.s == p && Apply(w.st, act).sessions[p].localNext
              == LocalFirst(Apply(w.st, act).sessions[p].role)
  {
  }

  lemma AliasesFitKept(w: World, act: Act, s: SessionKey, as_: seq<nat>)
    requires Inv(w) && Enabled(w, act) && AliasesFit(w, s, as_)
    ensures AliasesFit(ApplyWorld(w, act), s, as_ + NewAlias(w.st, act, s))
  {
    assert as_ + [] == as_;
    NextOutboundIs(w, act, s);
  }

  /** Only a grant moves the next alias on, and only opening makes a session. */
  lemma NextOutboundIs(w: World, act: Act, s: SessionKey)
    requires Enabled(w, act) && w.st.sessions.Keys <= w.used
    ensures s !in ApplyWorld(w, act).used ==> NewAlias(w.st, act, s) == [] && s !in w.used
    ensures s in Apply(w.st, act).sessions && s in w.st.sessions && !(act.Open? && act.s == s) ==>
              Apply(w.st, act).sessions[s].nextOutbound == w.st.sessions[s].nextOutbound + |NewAlias(w.st, act, s)|
    ensures s in Apply(w.st, act).sessions && (s !in w.st.sessions || (act.Open? && act.s == s)) ==>
              s !in w.used && NewAlias(w.st, act, s) == [] && Apply(w.st, act).sessions[s].nextOutbound == 1
  {
  }

  lemma NextOutboundGrows(w: World, act: Act, s: SessionKey)
    requires Inv(w) && Enabled(w, act) && s in Apply(w.st, act).sessions
    ensures s !in w.used || (s in w.st.sessions
                             && w.st.sessions[s].nextOutbound <= Apply(w.st, act).sessions[s].nextOutbound)
    ensures act.Grant? && s == act.k.session ==>
              Apply(w.st, act).sessions[s].nextOutbound == w.st.sessions[s].nextOutbound + 1
  {
  }

  /** An accepted alias was accepted before, or is the one granted now: the session's next. */
  predicate GrantedNow(st: State, act: Act, k: RequestKey, a: nat) {
    act.Grant? && act.k == k && k.session in st.sessions && a == st.sessions[k.session].nextOutbound
  }

  lemma AcceptedSource(w: World, act: Act, k: RequestKey, a: nat)
    requires Enabled(w, act) && Accepted(a) in Replies(ApplyWorld(w, act).log, k)
    ensures Accepted(a) in Replies(w.log, k) || GrantedNow(w.st, act, k, a)
  {
    RepliesGrow(w, act, k);
  }

  lemma AliasStaysLow(w: World, act: Act, k: RequestKey, a: nat)
    requires Inv(w) && AliasesApart(w) && RepliesFit(w, k, Replies(w.log, k)) && Enabled(w, act)
    requires Accepted(a) in Replies(ApplyWorld(w, act).log, k) && k.session in Apply(w.st, act).sessions
    ensures a < Apply(w.st, act).sessions[k.session].nextOutbound
  {
    AcceptedSource(w, act, k, a);
    NextOutboundGrows(w, act, k.session);
  }

  lemma AliasStaysApart(w: World, act: Act, s: SessionKey, id1: nat, id2: nat, a: nat)
    requires Inv(w) && AliasesApart(w) && Enabled(w, act)
    requires Accepted(a) in Replies(ApplyWorld(w, act).log, RequestKey(s, id1))
    requires Accepted(a) in Replies(ApplyWorld(w, act).log, RequestKey(s, id2))
    ensures id1 == id2
  {
    AcceptedSource(w, act, RequestKey(s, id1), a);
    AcceptedSource(w, act, RequestKey(s, id2), a);
  }

  lemma AliasesApartKept(w: World, act: Act)
    requires Inv(w) && TraceInv(w) && Enabled(w, act)
    ensures AliasesApart(ApplyWorld(w, act))
  {
    var w' := ApplyWorld(w, act);
    forall k, a: nat | Accepted(a) in Replies(w'.log, k) && k.session in w'.st.sessions
      ensures a < w'.st.sessions[k.session].nextOutbound
    {
      AliasStaysLow(w, act, k, a);
    }
    forall s, id1, id2, a: nat
      | Accepted(a) in Replies(w'.log, RequestKey(s, id1)) && Accepted(a) in Replies(w'.log, RequestKey(s, id2))
      ensures id1 == id2
    {
      AliasStaysApart(w, act, s, id1, id2, a);
    }
  }

  lemma ObjectsAnnouncedKept(w: World, act: Act)
    requires Inv(w) && TraceInv(w) && Enabled(w, act)
    ensures ObjectsAnnounced(ApplyWorld(w, act).log)
  {
    var log' := ApplyWorld(w, act).log;
    forall i | 0 <= i < |log'| && log'[i].Tx? && log'[i].output.SendObject?
      ensures log'[i].output.alias in Aliases(log'[..i], log'[i].output.session)
    {
      if i < |w.log| {
        assert log'[..i] == w.log[..i];
      } else {
        assert log'[..i] == w.log;
        ForwardedIsAnnounced(w, act);
      }
    }
  }

  lemma ForwardedIsAnnounced(w: World, act: Act)
    requires Inv(w) && TraceInv(w) && Enabled(w, act)
    ensures forall o :: o in Emit(w.st, act) && o.SendObject? ==> o.alias in Aliases(w.log, o.session)
  {
    if act.Forward? {
      var s := act.k.session;
      assert SubOk(w.st, act.t, act.k);
      assert AliasesFit(w, s, Aliases(w.log, s));
      var alias := Sub(w.st, act.t, act.k).outboundAlias.value;
      assert Aliases(w.log, s)[alias - 1] == alias;
    }
  }

  lemma BindingSource(w: World, act: Act, p: SessionKey, a: nat)
    requires Enabled(w, act) && p in Apply(w.st, act).sessions && a in Apply(w.st, act).sessions[p].inbound
    ensures var t := Apply(w.st, act).sessions[p].inbound[a];
            || NewBinding(act, p, a, t)
            || (p in w.st.sessions && a in w.st.sessions[p].inbound && w.st.sessions[p].inbound[a] == t)
  {
  }

  lemma BindingsKept(w: World, act: Act)
    requires Inv(w) && TraceInv(w) && Enabled(w, act)
    ensures BindingsOk(ApplyWorld(w, act))
  {
    var w' := ApplyWorld(w, act);
    forall p, a | p in w'.st.sessions && a in w'.st.sessions[p].inbound
      ensures BoundByAnswer(w'.log, p, a, w'.st.sessions[p].inbound[a])
    {
      BindingKeptAnswered(w, act, p, a);
    }
  }

  lemma BindingKeptAnswered(w: World, act: Act, p: SessionKey, a: nat)
    requires BindingsOk(w) && Enabled(w, act)
    requires p in Apply(w.st, act).sessions && a in Apply(w.st, act).sessions[p].inbound
    ensures BoundByAnswer(ApplyWorld(w, act).log, p, a, Apply(w.st, act).sessions[p].inbound[a])
  {
    var t := Apply(w.st, act).sessions[p].inbound[a];
    BindingSource(w, act, p, a);
    if NewBinding(act, p, a, t) {
      assert AnsweredWith(w.log, p, act.r, a, t);
    }
    AnswerLasts(w.log, Sent(Emit(w.st, act)), p, a, t);
  }

  lemma EstablishedSource(st: State, act: Act, t: TrackKey, p: SessionKey)
    requires HasLeg(Apply(st, act), t, p) && LegOf(Apply(st, act), t, p).state.Established?
    ensures (HasLeg(st, t, p) && LegOf(st, t, p).state.Established?) || (act.LegOk? && act.t == t)
  {
  }

  lemma OriginsKept(w: World, act: Act)
    requires Inv(w) && TraceInv(w) && Enabled(w, act) && Inv(ApplyWorld(w, act))
    ensures OriginsOk(ApplyWorld(w, act))
  {
    var w' := ApplyWorld(w, act);
    var more := Sent(Emit(w.st, act));
    forall t, p | HasLeg(w'.st, t, p) && LegOf(w'.st, t, p).state.Established?
      ensures TrackAnswered(w'.log, t)
    {
      EstablishedSource(w.st, act, t, p);
      TrackAnsweredGrows(w.log, more, t);
    }
  }

  predicate NewBinding(act: Act, p: SessionKey, alias: nat, t: TrackKey) {
    act.Bind? && act.p == p && act.alias == alias && act.t == t
  }

  /** Every enabled act keeps the whole invariant. */
  lemma TraceInvKept(w: World, act: Act)
    requires Inv(w) && TraceInv(w) && Enabled(w, act)
    ensures Inv(ApplyWorld(w, act)) && TraceInv(ApplyWorld(w, act))
  {
    InvKept(w, act);
    var w' := ApplyWorld(w, act);
    forall k ensures RepliesFit(w', k, Replies(w'.log, k)) {
      RepliesGrow(w, act, k);
      RepliesFitKept(w, act, k, Replies(w.log, k));
    }
    forall x ensures LegMsgsFit(w', x, LegMsgs(w'.log, x)) {
      LegMsgsGrow(w, act, x);
      LegMsgsFitKept(w, act, x, LegMsgs(w.log, x));
    }
    forall p ensures IssuedFit(w', p, IssuedIds(w'.log, p)) && AliasesFit(w', p, Aliases(w'.log, p)) {
      IssuedGrow(w, act, p);
      IssuedFitKept(w, act, p, IssuedIds(w.log, p));
      AliasesGrow(w, act, p);
      AliasesFitKept(w, act, p, Aliases(w.log, p));
    }
    AliasesApartKept(w, act);
    ObjectsAnnouncedKept(w, act);
    BindingsKept(w, act);
    OriginsKept(w, act);
  }

  lemma {:induction false} TraceInvRun(w: World, acts: seq<Act>)
    requires Inv(w) && TraceInv(w) && Legal(w, acts)
    ensures Inv(Exec(w, acts)) && TraceInv(Exec(w, acts))
  {
    if acts != [] {
      var n := |acts| - 1;
      TraceInvRun(w, acts[..n]);
      TraceInvKept(Exec(w, acts[..n]), acts[n]);
    }
  }

  function Receive(w: World, ev: Event): World { w.(log := w.log + [Rx(ev)]) }

  /** Receiving an event changes no view. */
  lemma ReceiveReplies(w: World, ev: Event, k: RequestKey)
    ensures Replies(Receive(w, ev).log, k) == Replies(w.log, k)
  {
    CollectSnoc(w.log, Rx(ev), ReplyView(k));
  }

  lemma ReceiveLegMsgs(w: World, ev: Event, x: RequestKey)
    ensures LegMsgs(Receive(w, ev).log, x) == LegMsgs(w.log, x)
  {
    CollectSnoc(w.log, Rx(ev), LegView(x));
  }

  lemma ReceiveCounters(w: World, ev: Event, s: SessionKey)
    ensures IssuedIds(Receive(w, ev).log, s) == IssuedIds(w.log, s)
    ensures Aliases(Receive(w, ev).log, s) == Aliases(w.log, s)
  {
    CollectSnoc(w.log, Rx(ev), IssuedView(s));
    CollectSnoc(w.log, Rx(ev), AliasView(s));
  }

  lemma ReceiveDelivered(w: World, ev: Event, s: SessionKey, alias: nat)
    ensures Delivered(Receive(w, ev).log, s, alias) == Delivered(w.log, s, alias)
  {
    CollectSnoc(w.log, Rx(ev), ObjectView(s, alias));
  }

  lemma ReceiveKeepsViews(w: World, ev: Event)
    requires Inv(w) && TraceInv(w)
    ensures forall k :: RepliesFit(Receive(w, ev), k, Replies(Receive(w, ev).log, k))
    ensures forall x :: LegMsgsFit(Receive(w, ev), x, LegMsgs(Receive(w, ev).log, x))
    ensures forall p :: IssuedFit(Receive(w, ev), p, IssuedIds(Receive(w, ev).log, p))
    ensures forall s :: AliasesFit(Receive(w, ev), s, Aliases(Receive(w, ev).log, s))
  {
    var w' := Receive(w, ev);
    forall k ensures RepliesFit(w', k, Replies(w'.log, k)) {
      ReceiveReplies(w, ev, k);
      assert RepliesFit(w, k, Replies(w.log, k));
    }
    forall x ensures LegMsgsFit(w', x, LegMsgs(w'.log, x)) {
      ReceiveLegMsgs(w, ev, x);
      assert LegMsgsFit(w, x, LegMsgs(w.log, x));
    }
    forall p ensures IssuedFit(w', p, IssuedIds(w'.log, p)) && AliasesFit(w', p, Aliases(w'.log, p)) {
      ReceiveCounters(w, ev, p);
      assert IssuedFit(w, p, IssuedIds(w.log, p)) && AliasesFit(w, p, Aliases(w.log, p));
    }
  }

  lemma ReceiveKeepsAliasesApart(w: World, ev: Event)
    requires AliasesApart(w)
    ensures AliasesApart(Receive(w, ev))
  {
    forall k ensures Replies(Receive(w, ev).log, k) == Replies(w.log, k) { ReceiveReplies(w, ev, k); }
  }

  lemma ReceiveKeepsHistory(w: World, ev: Event)
    requires Inv(w) && TraceInv(w)
    ensures ObjectsAnnounced(Receive(w, ev).log)
    ensures BindingsOk(Receive(w, ev)) && OriginsOk(Receive(w, ev))
  {
    var w' := Receive(w, ev);
    forall i | 0 <= i < |w'.log| && w'.log[i].Tx? && w'.log[i].output.SendObject?
      ensures w'.log[i].output.alias in Aliases(w'.log[..i], w'.log[i].output.session)
    {
      assert w'.log[..i] == w.log[..i];
    }
    forall t, p | HasLeg(w'.st, t, p) && LegOf(w'.st, t, p).state.Established? ensures TrackAnswered(w'.log, t) {
      TrackAnsweredGrows(w.log, [Rx(ev)], t);
    }
    forall p, a | p in w'.st.sessions && a in w'.st.sessions[p].inbound
      ensures BoundByAnswer(w'.log, p, a, w'.st.sessions[p].inbound[a])
    {
      AnswerLasts(w.log, [Rx(ev)], p, a, w.st.sessions[p].inbound[a]);
    }
  }

  lemma ReceiveKeeps(w: World, ev: Event)
    requires Inv(w) && TraceInv(w)
    ensures Inv(Receive(w, ev)) && TraceInv(Receive(w, ev))
  {
    ReceiveKeepsViews(w, ev);
    ReceiveKeepsAliasesApart(w, ev);
    ReceiveKeepsHistory(w, ev);
  }
}
