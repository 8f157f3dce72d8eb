/** Two runs with a second publisher: one leaves the second's leg live for nobody, the other leaves a
    subscriber Established with no Established leg. */
module RelayTwoPublishers {
  import opened MoqTypes
  import opened RelayState
  import opened RelayActs
  import opened RelayPlan
  import opened RelayTrace
  import opened RelayLegal
  import opened RelayHandlers
  import opened RelayRuns
  import opened RelayStale
  import opened RelayWaitingRun
  import opened RelayUnfed
  import opened RelayLingering

  /** x is served by p; then q comes and announces the same namespace. */
  function Prelude(p: SessionKey, x: SessionKey, q: SessionKey): seq<Stimulus> {
    StaleRun(p, x)[..6] + [FirstAnswer(p, x)] + [Plain(SessionOpened(q, Server))]
    + [Plain(Says(q, ClientSetup([])))] + [Announcement(q)]
  }

  function Announcement(q: SessionKey): Stimulus {
    Stimulus(Says(q, PublishNamespace(0, NS, [])), Choice([], [T], [], [], map[]))
  }

  function Completion(p: SessionKey, x: SessionKey): Stimulus {
    Stimulus(Says(p, PublishDone(1, 0, 0, [])), Choice([], [], [RequestKey(x, 0)], [], map[]))
  }

  function Departure(p: SessionKey, q: SessionKey): Stimulus {
    Stimulus(SessionClosed(p), Choice([], [T], [], [], map[T := [q]]))
  }

  /** x is Established on the one track, and so is p's leg. */
  predicate ServedByP(st: State, p: SessionKey, x: SessionKey) {
    && st.tracks.Keys == {T} && st.tracks[T].downs.Keys == {RequestKey(x, 0)}
    && st.tracks[T].downs[RequestKey(x, 0)].state.Established?
    && p in st.tracks[T].ups && st.tracks[T].ups[p].state.Established?
    && p in st.sessions && RequestKey(p, 1) in st.upIndex && st.upIndex[RequestKey(p, 1)] == T
  }

  lemma FirstServed(w: World, p: SessionKey, x: SessionKey)
    requires p != x && w.st == After(p, x, 6)
    ensures var w' := Exec(w, Plan(CFG, w, FirstAnswer(p, x).event, FirstAnswer(p, x).choice));
            ServedByP(w'.st, p, x) && w'.st.tracks[T].ups.Keys == {p} && w'.used == w.used
  {
    var ok, bind := LegOk(p, T, ALIAS), Bind(p, 1, ALIAS, T);
    var grant := Grant(RequestKey(x, 0), T, ControlStream, []);
    FirstPlan(w, p, x);
    TwoActs(w, ok, bind);
    ExecSnoc(w, [ok, bind], grant);
    ServedState(w.st, p, x);
  }

  lemma ServedState(st: State, p: SessionKey, x: SessionKey)
    requires p != x && st == After(p, x, 6)
    ensures var st1 := Apply(st, LegOk(p, T, ALIAS));
            var st2 := Apply(st1, Bind(p, 1, ALIAS, T));
            var st3 := Apply(st2, Grant(RequestKey(x, 0), T, ControlStream, []));
            ServedByP(st3, p, x) && st3.tracks[T].ups.Keys == {p}
  {
    var st1 := Apply(st, LegOk(p, T, ALIAS));
    assert st1.tracks.Keys == {T} && st1.tracks[T].ups.Keys == {p} && st1.tracks[T].downs == st.tracks[T].downs;
    BoundState(st1, p);
    GrantedState(Apply(st1, Bind(p, 1, ALIAS, T)), p, x);
  }

  lemma BoundState(st: State, p: SessionKey)
    requires p in st.sessions
    ensures var st' := Apply(st, Bind(p, 1, ALIAS, T));
            st'.tracks == st.tracks && st'.sessions.Keys == st.sessions.Keys && st'.upIndex == st.upIndex
  {
  }

  lemma GrantedState(st: State, p: SessionKey, x: SessionKey)
    requires st.tracks.Keys == {T} && st.tracks[T].downs.Keys == {RequestKey(x, 0)} && x in st.sessions
    requires st.tracks[T].ups.Keys == {p} && st.tracks[T].ups[p].state.Established?
    requires p in st.sessions && RequestKey(p, 1) in st.upIndex && st.upIndex[RequestKey(p, 1)] == T
    ensures var st' := Apply(st, Grant(RequestKey(x, 0), T, ControlStream, []));
            ServedByP(st', p, x) && st'.tracks[T].ups.Keys == {p}
  {
    var st' := Apply(st, Grant(RequestKey(x, 0), T, ControlStream, []));
    assert st'.tracks.Keys == {T} && st'.tracks[T].ups == st.tracks[T].ups;
  }

  /** A session opens and sets up: the tracks stay. */
  lemma Opened(w: World, p: SessionKey, x: SessionKey, q: SessionKey)
    requires ServedByP(w.st, p, x) && w.st.tracks[T].ups.Keys == {p} && q != p
    ensures var w' := Exec(w, Plan(CFG, w, SessionOpened(q, Server), Choice([], [], [], [], map[])));
            && ServedByP(w'.st, p, x) && w'.st.tracks[T].ups.Keys == {p}
            && q in w'.st.sessions && w'.st.sessions[q] == FRESH
  {
    SingleAct(w, Open(q, Server, 100, 100));
  }

  lemma SetUp(w: World, p: SessionKey, x: SessionKey, q: SessionKey)
    requires ServedByP(w.st, p, x) && w.st.tracks[T].ups.Keys == {p} && q != p
    requires q in w.st.sessions && w.st.sessions[q] == FRESH
    ensures var w' := Exec(w, Plan(CFG, w, Says(q, ClientSetup([])), Choice([], [], [], [], map[])));
            && ServedByP(w'.st, p, x) && w'.st.tracks[T].ups.Keys == {p}
            && q in w'.st.sessions && w'.st.sessions[q] == READY
  {
    var acts := Plan(CFG, w, Says(q, ClientSetup([])), Choice([], [], [], [], map[]));
    assert acts == [acts[0], acts[1]];
    TwoActs(w, acts[0], acts[1]);
  }

  lemma AnnouncementPlan(w: World, q: SessionKey)
    requires q in w.st.sessions && w.st.sessions[q] == READY
    ensures Plan(CFG, w, Announcement(q).event, Announcement(q).choice)
         == [Announce(q, NS), Say(Send(q, ControlStream, RequestOk(0, [])))] + [OpenLeg(q, T)]
  {
    assert [T][..0] == [];
    assert OfferTracks([], q, NS) == [];
    assert OfferTracks([T], q, NS) == [OpenLeg(q, T)];
  }

  lemma SecondAsked(w: World, p: SessionKey, x: SessionKey, q: SessionKey)
    requires ServedByP(w.st, p, x) && w.st.tracks[T].ups.Keys == {p} && q != p
    requires q in w.st.sessions && w.st.sessions[q] == READY
    ensures Fair(w.st, Announcement(q).event, Announcement(q).choice)
    ensures TwoLegs(Exec(w, Plan(CFG, w, Announcement(q).event, Announcement(q).choice)).st, p, x, q)
  {
    AnnouncementPlan(w, q);
    var a, b := Announce(q, NS), Say(Send(q, ControlStream, RequestOk(0, [])));
    TwoActs(w, a, b);
    ExecSnoc(w, [a, b], OpenLeg(q, T));
    SecondLegState(w.st, Apply(w.st, a), p, x, q);
  }

  lemma SecondLegState(st: State, st1: State, p: SessionKey, x: SessionKey, q: SessionKey)
    requires ServedByP(st, p, x) && st.tracks[T].ups.Keys == {p} && q != p
    requires q in st.sessions && st.sessions[q] == READY && st1 == Apply(st, Announce(q, NS))
    ensures TwoLegs(Apply(st1, OpenLeg(q, T)), p, x, q)
  {
    assert st1.tracks == st.tracks && CanAllocate(st1.sessions[q]);
    assert RequestKey(x, 0) in st1.tracks[T].downs && Live(st1.tracks[T].downs[RequestKey(x, 0)].state);
    assert CanOpenLeg(st1, q, T);
  }

  /** q has been asked for the track, too. */
  predicate TwoLegs(st: State, p: SessionKey, x: SessionKey, q: SessionKey) {
    ServedByP(st, p, x) && st.tracks[T].ups.Keys == {p, q} && st.tracks[T].ups[q].state.Pending?
  }

  lemma PreludeEnds(p: SessionKey, x: SessionKey, q: SessionKey)
    requires p != x && q != p && q != x
    ensures ValidRun(CFG, Prelude(p, x, q)) && TwoLegs(Reach(CFG, Prelude(p, x, q)).st, p, x, q)
  {
    Arrive(p, x, 6);
    AfterSix(StaleRun(p, x)[..6], FirstAnswer(p, x), p, x, q);
  }

  lemma AfterSix(run6: seq<Stimulus>, a: Stimulus, p: SessionKey, x: SessionKey, q: SessionKey)
    requires p != x && q != p && q != x && a == FirstAnswer(p, x)
    requires ValidRun(CFG, run6) && Reach(CFG, run6).st == After(p, x, 6) && Reach(CFG, run6).used == {p, x}
    ensures var run := run6 + [a] + [Plain(SessionOpened(q, Server))] + [Plain(Says(q, ClientSetup([])))]
            + [Announcement(q)];
            ValidRun(CFG, run) && TwoLegs(Reach(CFG, run).st, p, x, q)
  {
    var b, c, d := Plain(SessionOpened(q, Server)), Plain(Says(q, ClientSetup([]))), Announcement(q);
    FirstAnswered(Receive(Reach(CFG, run6), a.event), p, x);
    FirstServed(Receive(Reach(CFG, run6), a.event), p, x);
    Extend(run6, a);
    Opened(Receive(Reach(CFG, run6 + [a]), b.event), p, x, q);
    Extend(run6 + [a], b);
    SetUp(Receive(Reach(CFG, run6 + [a] + [b]), c.event), p, x, q);
    Extend(run6 + [a] + [b], c);
    SecondAsked(Receive(Reach(CFG, run6 + [a] + [b] + [c]), d.event), p, x, q);
    Extend(run6 + [a] + [b] + [c], d);
  }

  lemma Completes(st: State, p: SessionKey, x: SessionKey, q: SessionKey)
    requires TwoLegs(st, p, x, q) && p != q
    ensures Fair(st, Completion(p, x).event, Completion(p, x).choice) && Idles(st, Completion(p, x).event, T)
  {
    assert EstablishedSubs(st.tracks[T]) == {RequestKey(x, 0)};
    assert PendingSubs(st.tracks[T]) == {};
    assert q in st.tracks[T].ups;
  }

  /** Eleven events leave q's leg live with nobody subscribed: p completes the track for the only subscriber. */
  lemma LingeringReached(p: SessionKey, x: SessionKey, q: SessionKey)
    requires p != x && q != p && q != x
    ensures var run := Prelude(p, x, q) + [Completion(p, x)];
            ValidRun(CFG, run) && Lingering(Reach(CFG, run).st, T)
  {
    PreludeEnds(p, x, q);
    var run := Prelude(p, x, q);
    Completes(Reach(CFG, run).st, p, x, q);
    Extend(run, Completion(p, x));
    LingeringIff(CFG, run, Completion(p, x), T);
  }

  lemma Departs(st: State, p: SessionKey, x: SessionKey, q: SessionKey)
    requires TwoLegs(st, p, x, q) && p != q && p != x
    ensures Fair(st, Departure(p, q).event, Departure(p, q).choice) && Unfeeds(st, Departure(p, q).event, T)
  {
    assert LiveLegs(ForgetIn(st.tracks[T], p)) == {q};
    assert RequestKey(x, 0) in EstablishedSubs(ForgetIn(st.tracks[T], p));
  }

  /** Eleven events leave x Established and only a Pending leg: p closes before q has answered. */
  lemma UnfedReached(p: SessionKey, x: SessionKey, q: SessionKey)
    requires p != x && q != p && q != x
    ensures var run := Prelude(p, x, q) + [Departure(p, q)];
            ValidRun(CFG, run) && Unfed(Reach(CFG, run).st, T)
  {
    PreludeEnds(p, x, q);
    var run := Prelude(p, x, q);
    Departs(Reach(CFG, run).st, p, x, q);
    Extend(run, Departure(p, q));
    UnfedIff(CFG, run, Departure(p, q), T);
  }
}
