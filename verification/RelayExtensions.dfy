/** Track extensions: a subscriber is told those its publisher announced last. */
module RelayExtensions {
  import opened MoqTypes
  import opened RelayState
  import opened RelayLog
  import opened RelayActs
  import opened RelayPlan
  import opened RelayInv
  import opened RelayTrace
  import opened RelayLegal
  import opened RelayRuns
  import opened RelayFinality
  import opened RelayRefusals
  import opened RelayHistory

  /** The event is a SUBSCRIBE_OK with extensions, in answer to what the relay asked for under that id. */
  predicate Extends(log: seq<Obs>, ev: Event, t: TrackKey) {
    && ev.Control? && ev.message.SubscribeOk? && ev.message.trackExtensions != []
    && AskedTrack(log, RequestKey(ev.session, ev.message.requestId)) == t
  }

  /** The extensions of the last accepted SUBSCRIBE_OK for t that has any, since t has had its route. */
  ghost function LatestExtensions(cfg: RelayConfig, run: seq<Stimulus>, t: TrackKey): Extensions {
    if run == [] || t !in Reach(cfg, run).st.tracks then [] else
    var pre, ev := run[..|run|-1], run[|run|-1].event;
    if Extends(Reach(cfg, pre).log, ev, t) && !Refuses(Reach(cfg, pre), Reach(cfg, run))
    then ev.message.trackExtensions
    else LatestExtensions(cfg, pre, t)
  }

  function ExtensionsIn(st: State, t: TrackKey): Extensions {
    if t in st.tracks && st.tracks[t].extensions.Some? then st.tracks[t].extensions.value else []
  }

  // ---- Acts ----

  function Plain(t: TrackKey): Act -> bool { (a: Act) => !a.AddSub? && !(a.SetExtensions? && a.t == t) }

  lemma ExtensionsStay(st: State, act: Act, t: TrackKey)
    requires !(act.SetExtensions? && act.t == t) && t in Apply(st, act).tracks
    ensures ExtensionsIn(Apply(st, act), t) == ExtensionsIn(st, t)
    ensures !act.AddSub? ==> t in st.tracks
  {
  }

  lemma {:induction false} ExtensionsStayRun(w: World, acts: seq<Act>, t: TrackKey)
    requires Only(acts, Plain(t)) && t in Exec(w, acts).st.tracks
    ensures t in w.st.tracks && ExtensionsIn(Exec(w, acts).st, t) == ExtensionsIn(w.st, t)
  {
    if acts != [] {
      var n := |acts| - 1;
      assert Plain(t)(acts[n]);
      ExtensionsStay(Exec(w, acts[..n]).st, acts[n], t);
      ExtensionsStayRun(w, acts[..n], t);
    }
  }

  /** A subscriber may be recorded first. */
  lemma ExtensionsAfterHead(w: World, acts: seq<Act>, t: TrackKey)
    requires acts != [] && Only(acts[1..], Plain(t)) && t in Exec(w, acts).st.tracks
    requires !(acts[0].SetExtensions? && acts[0].t == t)
    ensures ExtensionsIn(Exec(w, acts).st, t) == ExtensionsIn(w.st, t)
  {
    assert acts == [acts[0]] + acts[1..];
    ExecAppend(w, [acts[0]], acts[1..]);
    SingleAct(w, acts[0]);
    ExtensionsStayRun(ApplyWorld(w, acts[0]), acts[1..], t);
    ExtensionsStay(w.st, acts[0], t);
  }

  // ---- SUBSCRIBE_OK ----

  /** What is set comes before the grants, which keep it. */
  lemma SetThenKept(w: World, head: seq<Act>, t: TrackKey, exts: Extensions, tail: seq<Act>)
    requires Only(tail, Plain(t)) && t in Exec(w, head + [SetExtensions(t, exts)] + tail).st.tracks
    ensures ExtensionsIn(Exec(w, head + [SetExtensions(t, exts)] + tail).st, t) == exts
  {
    ExecAppend(w, head + [SetExtensions(t, exts)], tail);
    ExecSnoc(w, head, SetExtensions(t, exts));
    ExtensionsStayRun(Exec(w, head + [SetExtensions(t, exts)]), tail, t);
  }

  lemma OkSets(w: World, s: SessionKey, r: nat, alias: nat, exts: Extensions, c: Choice, t: TrackKey)
    requires s in w.st.sessions && t in Exec(w, SubscribeOkPlan(w, s, r, alias, exts, c)).st.tracks
    requires w.st.sessions[s].setupDone && AwaitsAnswer(w.st, s, r) && alias !in w.st.sessions[s].inbound
    requires exts != [] && w.st.upIndex[RequestKey(s, r)] == t
    ensures ExtensionsIn(Exec(w, SubscribeOkPlan(w, s, r, alias, exts, c)).st, t) == exts
  {
    var head := [LegOk(s, t, alias), Bind(s, r, alias, t)];
    OnlyGrants(c.subs, t, exts, Plain(t));
    assert SubscribeOkPlan(w, s, r, alias, exts, c) == head + [SetExtensions(t, exts)] + Grants(c.subs, t, exts);
    SetThenKept(w, head, t, exts, Grants(c.subs, t, exts));
  }

  lemma OkExtensions(w: World, s: SessionKey, r: nat, alias: nat, exts: Extensions, c: Choice, t: TrackKey)
    requires s in w.st.sessions && t in Exec(w, SubscribeOkPlan(w, s, r, alias, exts, c)).st.tracks
    requires w.st.sessions[s].setupDone && AwaitsAnswer(w.st, s, r) && alias !in w.st.sessions[s].inbound
    ensures ExtensionsIn(Exec(w, SubscribeOkPlan(w, s, r, alias, exts, c)).st, t)
         == if exts != [] && w.st.upIndex[RequestKey(s, r)] == t then exts else ExtensionsIn(w.st, t)
  {
    if exts != [] && w.st.upIndex[RequestKey(s, r)] == t {
      OkSets(w, s, r, alias, exts, c, t);
    } else {
      OnlyGrants(c.subs, w.st.upIndex[RequestKey(s, r)], exts, Plain(t));
      ExtensionsStayRun(w, SubscribeOkPlan(w, s, r, alias, exts, c), t);
    }
  }

  // ---- One step ----

  /** Other events set no extensions, and record a subscriber first if at all. */
  lemma PlansPlain(cfg: RelayConfig, w: World, x: Stimulus, t: TrackKey)
    requires !(x.event.Control? && x.event.message.SubscribeOk?)
    ensures var acts := Plan(cfg, w, x.event, x.choice);
            acts == [] || (Only(acts[1..], Plain(t)) && !(acts[0].SetExtensions? && acts[0].t == t))
  {
    match x.event
    case SessionOpened(_, _) =>
    case SessionClosed(q) =>
      LeavingRest(w.st, q, x.choice.tracks, x.choice.legs, Plain(t));
      assert Only(Plan(cfg, w, x.event, x.choice), Plain(t));
    case Control(q, ch, m) =>
      ControlRest(cfg, w, q, ch, m, x.choice, Plain(t));
      HeadSetsNothing(cfg, w, q, ch, m, x.choice);
    case ObjectReceived(q, alias, body) =>
      if q in w.st.sessions && alias in w.st.sessions[q].inbound {
        OnlyForwards(x.choice.subs, w.st.sessions[q].inbound[alias], body, Plain(t));
      }
    case FetchObjectReceived(_) =>
  }

  lemma HeadSetsNothing(cfg: RelayConfig, w: World, q: SessionKey, ch: Channel, m: ControlMessage, c: Choice)
    requires !m.SubscribeOk?
    ensures var acts := ControlPlan(cfg, w, q, ch, m, c); acts == [] || !acts[0].SetExtensions?
  {
  }

  lemma ExtensionsStep(cfg: RelayConfig, w: World, x: Stimulus, t: TrackKey)
    requires ConfigOk(cfg) && Inv(w) && TraceInv(w) && Admissible(w, x) && t in Step(cfg, w, x).st.tracks
    ensures ExtensionsIn(Step(cfg, w, x).st, t)
         == if Extends(w.log, x.event, t) && !Refuses(w, Step(cfg, w, x)) then x.event.message.trackExtensions
            else ExtensionsIn(w.st, t)
  {
    var w1 := Receive(w, x.event);
    var acts := Plan(cfg, w1, x.event, x.choice);
    ClosesOfStep(cfg, w, x);
    ReceiveKeeps(w, x.event);
    if x.event.Control? && x.event.message.SubscribeOk? {
      OkStep(cfg, w, x, x.event.session, x.event.channel, x.event.message, t);
    } else {
      PlansPlain(cfg, w1, x, t);
      if acts != [] { ExtensionsAfterHead(w1, acts, t); }
    }
  }

  lemma OkStep(cfg: RelayConfig, w: World, x: Stimulus, s: SessionKey, ch: Channel, m: ControlMessage, t: TrackKey)
    requires Inv(w) && TraceInv(w) && x.event == Control(s, ch, m) && m.SubscribeOk?
    requires t in Step(cfg, w, x).st.tracks
    ensures ExtensionsIn(Step(cfg, w, x).st, t)
         == if Extends(w.log, x.event, t) && Complaint(AccountIn(w.st, s), w.st, x.event).None? then m.trackExtensions
            else ExtensionsIn(w.st, t)
  {
    var w1 := Receive(w, x.event);
    var bad := Complaint(AccountIn(w.st, s), w.st, x.event);
    if bad.Some? {
      ReceiveKeeps(w, x.event);
      PlansCloseOwn(cfg, w1, x);
      PlansSay(cfg, w1, x);
      RefusalPlain(Plan(cfg, w1, x.event, x.choice), s, bad.value, t);
      ExtensionsStayRun(w1, Plan(cfg, w1, x.event, x.choice), t);
    } else {
      AskedIsIndexed(w, RequestKey(s, m.requestId));
      OkExtensions(w1, s, m.requestId, m.trackAlias, m.trackExtensions, x.choice, t);
    }
  }

  lemma RefusalPlain(acts: seq<Act>, s: SessionKey, e: SessionError, t: TrackKey)
    requires ClosesOwn(acts, s) && EndsInClose(acts, s, e)
    ensures Only(acts, Plain(t))
  {
  }

  // ---- Whole runs ----

  /** What is stored with a track is what its publishers announced last. */
  lemma {:induction false} ExtensionsAreLatest(cfg: RelayConfig, run: seq<Stimulus>, t: TrackKey)
    requires ConfigOk(cfg) && ValidRun(cfg, run)
    ensures ExtensionsIn(Reach(cfg, run).st, t) == LatestExtensions(cfg, run, t)
  {
    if run != [] && t in Reach(cfg, run).st.tracks {
      var pre, x := run[..|run|-1], run[|run|-1];
      Reachable(cfg, pre);
      ExtensionsAreLatest(cfg, pre, t);
      ExtensionsStep(cfg, Reach(cfg, pre), x, t);
    }
  }
}
