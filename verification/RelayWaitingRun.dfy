/** A run of the relay that leaves a subscription Pending behind an Established leg: the publisher
    answers for a second track under the alias of its first. */
module RelayWaitingRun {
  import opened MoqTypes
  import opened RelayState
  import opened RelayActs
  import opened RelayPlan
  import opened RelayTrace
  import opened RelayHandlers
  import opened RelayRuns
  import opened RelayTheorems
  import opened RelayStale
  import opened RelayWaiting

  const SECOND: TrackKey := TrackKey(NS, [3])
  const ALIAS: nat := 7

  /** The first track is served under the alias, the second answered under the same. */
  function ReusingRun(p: SessionKey, x: SessionKey): seq<Stimulus> {
    StaleRun(p, x)[..6] + [FirstAnswer(p, x), SecondRequest(p, x), SecondAnswer(p, x)]
  }

  function FirstAnswer(p: SessionKey, x: SessionKey): Stimulus {
    Stimulus(Says(p, SubscribeOk(1, ALIAS, [], [])), Choice([], [], [RequestKey(x, 0)], [], map[]))
  }

  function SecondRequest(p: SessionKey, x: SessionKey): Stimulus {
    Stimulus(Says(x, Subscribe(2, NS, [3], [])), Choice([p], [], [], [], map[]))
  }

  function SecondAnswer(p: SessionKey, x: SessionKey): Stimulus {
    Stimulus(Says(p, SubscribeOk(3, ALIAS, [], [])), Choice([], [], [RequestKey(x, 2)], [], map[]))
  }

  /** The alias is bound, and x may subscribe to a second track of p. */
  predicate AliasBound(st: State, p: SessionKey, x: SessionKey) {
    && p in st.sessions && st.sessions[p] == Publisher(2, 3).(inbound := map[ALIAS := T])
    && x in st.sessions && x != p
    && st.sessions[x].setupDone && st.sessions[x].role.Server? && st.sessions[x].peerNext == 2
         && st.sessions[x].localMax == 100
    && PublishersOf(st, NS) == {p}
    && SECOND !in st.tracks
  }

  /** x waits for p's answer about the second track. */
  predicate AnswerDue(st: State, p: SessionKey, x: SessionKey) {
    && BeginsWait(st, SecondAnswer(p, x).event, SECOND, RequestKey(x, 2), p)
    && GrantableSubs(st.tracks[SECOND]) == {RequestKey(x, 2)}
    && st.upIndex[RequestKey(p, 3)] == SECOND
  }

  lemma FirstAnswered(w: World, p: SessionKey, x: SessionKey)
    requires p != x && w.st == After(p, x, 6)
    ensures Fair(w.st, FirstAnswer(p, x).event, FirstAnswer(p, x).choice)
    ensures AliasBound(Exec(w, Plan(CFG, w, FirstAnswer(p, x).event, FirstAnswer(p, x).choice)).st, p, x)
  {
    var ok, bind := LegOk(p, T, ALIAS), Bind(p, 1, ALIAS, T);
    var grant := Grant(RequestKey(x, 0), T, ControlStream, []);
    FirstPlan(w, p, x);
    TwoActs(w, ok, bind);
    ExecSnoc(w, [ok, bind], grant);
    FirstBound(w.st, p, x);
    FirstOrder(w.st, p, x);
  }

  lemma FirstPlan(w: World, p: SessionKey, x: SessionKey)
    requires p != x && w.st == After(p, x, 6)
    ensures Plan(CFG, w, FirstAnswer(p, x).event, FirstAnswer(p, x).choice)
         == [LegOk(p, T, ALIAS), Bind(p, 1, ALIAS, T)] + [Grant(RequestKey(x, 0), T, ControlStream, [])]
  {
    assert [RequestKey(x, 0)][..0] == [];
    assert Grants([], T, []) == [];
    assert Grants([RequestKey(x, 0)], T, []) == [Grant(RequestKey(x, 0), T, ControlStream, [])];
  }

  lemma FirstBound(st: State, p: SessionKey, x: SessionKey)
    requires p != x && st == After(p, x, 6)
    ensures var st2 := Apply(Apply(st, LegOk(p, T, ALIAS)), Bind(p, 1, ALIAS, T));
            AliasBound(Apply(st2, Grant(RequestKey(x, 0), T, ControlStream, [])), p, x)
  {
    assert map[][ALIAS := T] == map[ALIAS := T];
  }

  lemma FirstOrder(st: State, p: SessionKey, x: SessionKey)
    requires p != x && st == After(p, x, 6)
    ensures IsOrder([RequestKey(x, 0)], GrantableSubs(st.tracks[T]))
  {
    assert GrantableSubs(st.tracks[T]) == {RequestKey(x, 0)};
  }

  lemma SecondRequested(w: World, p: SessionKey, x: SessionKey)
    requires AliasBound(w.st, p, x)
    ensures Fair(w.st, SecondRequest(p, x).event, SecondRequest(p, x).choice)
    ensures AnswerDue(Exec(w, Plan(CFG, w, SecondRequest(p, x).event, SecondRequest(p, x).choice)).st, p, x)
  {
    var k := RequestKey(x, 2);
    var add, open := AddSub(k, SECOND, []), OpenLeg(p, SECOND);
    MatchedNS(w.st);
    assert [p][..0] == [];
    assert OpenLegs([], SECOND) == [];
    assert OpenLegs([p], SECOND) == [open];
    var acts := Plan(CFG, w, SecondRequest(p, x).event, SecondRequest(p, x).choice);
    assert acts == [add] + [open] == [add, open];
    TwoActs(w, add, open);
    SecondLeg(w.st, p, x);
  }

  lemma SecondLeg(st: State, p: SessionKey, x: SessionKey)
    requires AliasBound(st, p, x)
    ensures AnswerDue(Apply(Apply(st, AddSub(RequestKey(x, 2), SECOND, [])), OpenLeg(p, SECOND)), p, x)
  {
    var k := RequestKey(x, 2);
    var st1 := Apply(st, AddSub(k, SECOND, []));
    assert st1.tracks[SECOND].downs == map[k := WAITING];
    assert k in st1.tracks[SECOND].downs && Live(st1.tracks[SECOND].downs[k].state);
    assert CanOpenLeg(st1, p, SECOND);
  }

  lemma Extend(run: seq<Stimulus>, y: Stimulus)
    requires ValidRun(CFG, run) && Admissible(Reach(CFG, run), y)
    ensures ValidRun(CFG, run + [y]) && Reach(CFG, run + [y]) == Step(CFG, Reach(CFG, run), y)
  {
    SplitStep(CFG, run, y);
  }

  /** Nine events bring the relay to a world where x waits for a track that p's leg is Established on. */
  lemma WaitingReached(p: SessionKey, x: SessionKey)
    requires p != x
    ensures ConfigOk(CFG) && ValidRun(CFG, ReusingRun(p, x))
    ensures Waits(Reach(CFG, ReusingRun(p, x)).st, SECOND, RequestKey(x, 2), p)
  {
    SixEvents(p, x);
    ReusingRunIs(p, x);
    var a, b, c := FirstAnswer(p, x), SecondRequest(p, x), SecondAnswer(p, x);
    WaitingAfter(StaleRun(p, x)[..6], a, b, c, p, x);
  }

  lemma ReusingRunIs(p: SessionKey, x: SessionKey)
    ensures ReusingRun(p, x) == StaleRun(p, x)[..6] + [FirstAnswer(p, x)] + [SecondRequest(p, x)] + [SecondAnswer(p, x)]
  {
  }

  lemma WaitingAfter(run6: seq<Stimulus>, a: Stimulus, b: Stimulus, c: Stimulus, p: SessionKey, x: SessionKey)
    requires p != x && ValidRun(CFG, run6) && Reach(CFG, run6).st == After(p, x, 6)
    requires a == FirstAnswer(p, x) && b == SecondRequest(p, x) && c == SecondAnswer(p, x)
    ensures ValidRun(CFG, run6 + [a] + [b] + [c])
    ensures Waits(Reach(CFG, run6 + [a] + [b] + [c]).st, SECOND, RequestKey(x, 2), p)
  {
    FirstAnswered(Receive(Reach(CFG, run6), a.event), p, x);
    Extend(run6, a);
    SecondRequested(Receive(Reach(CFG, run6 + [a]), b.event), p, x);
    Extend(run6 + [a], b);
    Extend(run6 + [a] + [b], c);
    WaitBeginsIff(CFG, run6 + [a] + [b], c, SECOND, RequestKey(x, 2), p);
  }
}
