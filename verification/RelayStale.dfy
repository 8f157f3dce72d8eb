/** A run of the relay that ends with a stale index entry: SessionClosed leaves entries of the legs
    it terminates, and a later leg of the same publisher and track can then be hit by an old id. */
module RelayStale {
  import opened MoqTypes
  import opened RelayState
  import opened RelayActs
  import opened RelayPlan
  import opened RelayTrace
  import opened RelayLegal
  import opened RelayRuns
  import opened RelayTheorems
  import opened RelayRouting
  import opened RelayClosing
  import opened RelayAbandoned

  /** Closing s keeps the index entry of every other publisher's leg, ended or not. */
  lemma ClosingKeepsEntries(cfg: RelayConfig, run: seq<Stimulus>, y: Stimulus, s: SessionKey, p: SessionKey, r: nat,
                            t: TrackKey)
    requires ConfigOk(cfg) && ValidRun(cfg, run + [y]) && y.event == SessionClosed(s) && p != s
    ensures Indexed(Reach(cfg, run + [y]).st, p, r, t) <==> Indexed(Reach(cfg, run).st, p, r, t)
  {
    SplitStep(cfg, run, y);
    ClosePlanEffect(Receive(Reach(cfg, run), y.event), s, y.choice);
  }

  const NS: Namespace := [[1]]
  const T: TrackKey := TrackKey(NS, [2])
  const CFG: RelayConfig := RelayConfig([], 100, 100)
  const FRESH: SessionState := NewSession(Server, 100, 100)
  const READY: SessionState := FRESH.(setupDone := true)

  function Plain(ev: Event): Stimulus { Stimulus(ev, Choice([], [], [], [], map[])) }

  function Says(s: SessionKey, m: ControlMessage): Event { Control(s, ControlStream, m) }

  /** The publisher subscribes to its own track once the first subscriber is gone. */
  function StaleRun(p: SessionKey, x: SessionKey): seq<Stimulus> {
    [Plain(SessionOpened(p, Server)),
     Plain(Says(p, ClientSetup([]))),
     Plain(Says(p, PublishNamespace(0, NS, []))),
     Plain(SessionOpened(x, Server)),
     Plain(Says(x, ClientSetup([]))),
     Stimulus(Says(x, Subscribe(0, NS, [2], [])), Choice([p], [], [], [], map[])),
     Stimulus(SessionClosed(x), Choice([], [T], [], [], map[T := [p]])),
     Stimulus(Says(p, Subscribe(2, NS, [2], [])), Choice([p], [], [], [], map[])),
     Plain(Says(p, Unsubscribe(2))),
     Stimulus(Says(p, Subscribe(4, NS, [2], [])), Choice([p], [], [], [], map[]))]
  }

  function Publisher(peerNext: nat, localNext: nat): SessionState {
    READY.(published := {NS}, peerNext := peerNext, localNext := localNext)
  }

  const WAITING: Downstream := Downstream(Pending, [], true, None)

  function OneLeg(p: SessionKey, r: nat, state: SubState): map<SessionKey, Leg> {
    map[p := Leg(r, state, None, false)]
  }

  /** The maps after each of the ten events. */
  function After(p: SessionKey, x: SessionKey, n: nat): State
    requires n <= 10
  {
    var pubs := map[NS := {p}];
    if n == 0 then EMPTY_STATE
    else if n == 1 then State(map[p := FRESH], map[], map[], map[], map[])
    else if n == 2 then State(map[p := READY], map[], map[], map[], map[])
    else if n == 3 then State(map[p := Publisher(2, 1)], pubs, map[], map[], map[])
    else if n == 4 then State(map[p := Publisher(2, 1), x := FRESH], pubs, map[], map[], map[])
    else if n == 5 then State(map[p := Publisher(2, 1), x := READY], pubs, map[], map[], map[])
    else if n == 6 then
      State(map[p := Publisher(2, 3), x := READY.(peerNext := 2)], pubs,
            map[T := TrackRoute(map[RequestKey(x, 0) := WAITING], OneLeg(p, 1, Pending), None)],
            map[RequestKey(p, 1) := T], map[RequestKey(x, 0) := T])
    else if n == 7 then
      State(map[p := Publisher(2, 3)], pubs, map[T := TrackRoute(map[], OneLeg(p, 1, Terminated), None)],
            map[RequestKey(p, 1) := T], map[])
    else if n == 8 then
      State(map[p := Publisher(4, 3)], pubs,
            map[T := TrackRoute(map[RequestKey(p, 2) := WAITING], OneLeg(p, 1, Terminated), None)],
            map[RequestKey(p, 1) := T], map[RequestKey(p, 2) := T])
    else if n == 9 then State(map[p := Publisher(4, 3)], pubs, map[], map[RequestKey(p, 1) := T], map[])
    else
      State(map[p := Publisher(6, 5)], pubs,
            map[T := TrackRoute(map[RequestKey(p, 4) := WAITING], OneLeg(p, 3, Pending), None)],
            map[RequestKey(p, 1) := T, RequestKey(p, 3) := T], map[RequestKey(p, 4) := T])
  }

  function Used(p: SessionKey, x: SessionKey, n: nat): set<SessionKey> {
    if n == 0 then {} else if n <= 3 then {p} else {p, x}
  }

  /** The answer to CLIENT_SETUP. */
  function Welcome(s: SessionKey): Act {
    Say(Send(s, ControlStream, ServerSetup([KeyValuePair(PARAM_MAX_REQUEST_ID, Varint(100))])))
  }

  /** Acts of event n. */
  function Acts(p: SessionKey, x: SessionKey, n: nat): seq<Act>
    requires n < 10
  {
    if n == 0 then [Open(p, Server, 100, 100)]
    else if n == 1 then [Touch(p, READY), Welcome(p)]
    else if n == 2 then [Announce(p, NS), Say(Send(p, ControlStream, RequestOk(0, [])))]
    else if n == 3 then [Open(x, Server, 100, 100)]
    else if n == 4 then [Touch(x, READY), Welcome(x)]
    else if n == 5 then [AddSub(RequestKey(x, 0), T, []), OpenLeg(p, T)]
    else if n == 6 then [Forget(x, T), Unsub(p, T, true), Depart(x, false)]
    else if n == 7 then [AddSub(RequestKey(p, 2), T, []), OpenLeg(p, T)]
    else if n == 8 then [End(RequestKey(p, 2), T, ControlStream, Withdrawn), Drop(T)]
    else [AddSub(RequestKey(p, 4), T, []), OpenLeg(p, T)]
  }

  function ApplyAll(st: State, acts: seq<Act>): State
    decreases |acts|
  {
    if acts == [] then st else ApplyAll(Apply(st, acts[0]), acts[1..])
  }

  lemma {:induction false} ExecIsApplyAll(w: World, acts: seq<Act>)
    ensures Exec(w, acts).st == ApplyAll(w.st, acts)
    decreases |acts|
  {
    if acts != [] {
      assert acts == [acts[0]] + acts[1..];
      ExecAppend(w, [acts[0]], acts[1..]);
      SingleAct(w, acts[0]);
      ExecIsApplyAll(ApplyWorld(w, acts[0]), acts[1..]);
    }
  }

  ghost predicate At(p: SessionKey, x: SessionKey, n: nat)
    requires n <= 10
  {
    var run := StaleRun(p, x);
    ValidRun(CFG, run[..n]) && Reach(CFG, run[..n]).st == After(p, x, n) && Reach(CFG, run[..n]).used == Used(p, x, n)
  }

  lemma MatchedNS(st: State)
    ensures MatchPublishers(st, NS) == PublishersOf(st, NS)
  {
    assert NS[..1] == NS;
    assert MatchUpTo(st, NS, 0) == {};
  }

  function PlanAt(p: SessionKey, x: SessionKey, w: World, n: nat): seq<Act>
    requires n < 10
  {
    Plan(CFG, w, StaleRun(p, x)[n].event, StaleRun(p, x)[n].choice)
  }

  lemma EarlyPlans(w: World, p: SessionKey, x: SessionKey, n: nat)
    requires p != x && n <= 4 && w.st == After(p, x, n)
    ensures PlanAt(p, x, w, n) == Acts(p, x, n)
  {
    if n == 2 {
      assert OfferTracks([], p, NS) == [];
    } else if n == 1 || n == 4 {
      var params := [KeyValuePair(PARAM_MAX_REQUEST_ID, Varint(100))];
      assert CFG.serverSetupParameters + params == params;
    }
  }

  lemma SubscribePlans(w: World, p: SessionKey, x: SessionKey, n: nat)
    requires p != x && (n == 5 || n == 7 || n == 9) && w.st == After(p, x, n)
    ensures PlanAt(p, x, w, n) == Acts(p, x, n)
  {
    MatchedNS(w.st);
    OnePeer(p);
    assert MatchPublishers(w.st, T.namespace) != {} by { assert p in PublishersOf(w.st, NS); }
    var k := RequestKey(if n == 5 then x else p, if n == 5 then 0 else if n == 7 then 2 else 4);
    assert [AddSub(k, T, [])] + OpenLegs([p], T) == [AddSub(k, T, []), OpenLeg(p, T)];
  }

  lemma LeaveOneTrack(st: State, s: SessionKey, t: TrackKey, legs: seq<SessionKey>)
    ensures LeaveTracks(st, s, [t], map[t := legs]) == LeaveTrack(st, s, t, legs)
  {
    assert [t][..0] == [];
    assert LeaveTracks(st, s, [], map[t := legs]) == [];
  }

  lemma UnsubOne(p: SessionKey, t: TrackKey, keepIndex: bool)
    ensures Unsubs([p], t, keepIndex) == [Unsub(p, t, keepIndex)]
  {
    assert [p][..0] == [];
    assert Unsubs([], t, keepIndex) == [];
  }

  lemma ClosePlanMatches(w: World, p: SessionKey, x: SessionKey)
    requires p != x && w.st == After(p, x, 6)
    ensures PlanAt(p, x, w, 6) == Acts(p, x, 6)
  {
    UnsubOne(p, T, true);
    LeaveOneTrack(w.st, x, T, [p]);
    assert ForgetIn(w.st.tracks[T], x).downs == map[];
    assert LeaveTrack(w.st, x, T, [p]) == [Forget(x, T), Unsub(p, T, true)];
  }

  lemma UnsubscribePlanMatches(w: World, p: SessionKey, x: SessionKey)
    requires p != x && w.st == After(p, x, 8)
    ensures PlanAt(p, x, w, 8) == Acts(p, x, 8)
  {
    assert Unsubs([], T, false) == [];
  }

  lemma OnePeer(p: SessionKey)
    ensures OpenLegs([p], T) == [OpenLeg(p, T)]
  {
    assert [p][..0] == [];
    assert OpenLegs([], T) == [];
  }

  lemma ApplyTwo(st: State, a: Act, b: Act)
    ensures ApplyAll(st, [a, b]) == Apply(Apply(st, a), b)
    ensures ApplyAll(st, [a]) == Apply(st, a)
  {
    assert [a, b][1..] == [b];
    assert ApplyAll(Apply(st, a), [b]) == Apply(Apply(st, a), b);
  }

  lemma EarlyEffects(p: SessionKey, x: SessionKey, n: nat)
    requires p != x && n <= 4
    ensures ApplyAll(After(p, x, n), Acts(p, x, n)) == After(p, x, n + 1)
  {
    var acts := Acts(p, x, n);
    ApplyTwo(After(p, x, n), acts[0], acts[|acts| - 1]);
    assert acts == [acts[0]] || acts == [acts[0], acts[|acts| - 1]];
    var st' := ApplyAll(After(p, x, n), Acts(p, x, n));
    if n == 2 {
      assert READY.published + {NS} == {NS};
      assert PublishersOf(After(p, x, n), NS) + {p} == {p};
    }
    assert st'.sessions == After(p, x, n + 1).sessions;
    assert st'.publishers == After(p, x, n + 1).publishers;
  }

  lemma SubscribeEffect(p: SessionKey, x: SessionKey, n: nat)
    requires p != x && (n == 5 || n == 9)
    ensures ApplyAll(After(p, x, n), Acts(p, x, n)) == After(p, x, n + 1)
  {
    var acts := Acts(p, x, n);
    var st' := After(p, x, n + 1);
    ApplyTwo(After(p, x, n), acts[0], acts[1]);
    FirstSubscriber(After(p, x, n), p, acts[0].k);
    var st2 := Apply(Apply(After(p, x, n), acts[0]), acts[1]);
    assert st2.sessions == st'.sessions;
    assert st2.upIndex == st'.upIndex;
    assert st2.downIndex == st'.downIndex;
  }

  /** The first SUBSCRIBE for a track opens a leg. */
  lemma FirstSubscriber(st: State, p: SessionKey, k: RequestKey)
    requires st.tracks == map[] && k.session in st.sessions && p in st.sessions && CanAllocate(st.sessions[p])
    ensures var st2 := Apply(Apply(st, AddSub(k, T, [])), OpenLeg(p, T));
            var r := st.sessions[p].localNext;
            var asker := st.sessions[k.session];
            var sub := st.sessions[k.session := asker.(peerNext := asker.peerNext + 2)];
            && st2.publishers == st.publishers
            && st2.sessions == sub[p := sub[p].(localNext := r + 2)]
            && st2.tracks == map[T := TrackRoute(map[k := WAITING], OneLeg(p, r, Pending), None)]
            && st2.upIndex == st.upIndex[RequestKey(p, r) := T]
            && st2.downIndex == st.downIndex[k := T]
  {
    var st1 := Apply(st, AddSub(k, T, []));
    assert k in st1.tracks[T].downs && Live(st1.tracks[T].downs[k].state);
  }

  /** The dead leg on record keeps the publisher from being asked again. */
  lemma StarvedEffect(p: SessionKey, x: SessionKey)
    requires p != x
    ensures ApplyAll(After(p, x, 7), Acts(p, x, 7)) == After(p, x, 8)
  {
    var acts := Acts(p, x, 7);
    var st' := After(p, x, 8);
    ApplyTwo(After(p, x, 7), acts[0], acts[1]);
    var st1 := Apply(After(p, x, 7), acts[0]);
    assert st1.sessions == st'.sessions;
    assert st1.tracks[T].downs == st'.tracks[T].downs;
    assert st1.tracks == st'.tracks;
  }

  lemma CloseEffect(p: SessionKey, x: SessionKey)
    requires p != x
    ensures ApplyAll(After(p, x, 6), Acts(p, x, 6)) == After(p, x, 7)
  {
    var acts := Acts(p, x, 6);
    var st1 := Apply(After(p, x, 6), acts[0]);
    ApplyTwo(st1, acts[1], acts[2]);
    assert acts[1..] == [acts[1], acts[2]];
    LeftByX(p, x, st1);
    DepartEffect(p, x);
  }

  /** The maps once x has left the track and its leg has been unsubscribed. */
  function Emptied(p: SessionKey, x: SessionKey): State {
    After(p, x, 6).(tracks := After(p, x, 7).tracks, downIndex := map[])
  }

  lemma DepartEffect(p: SessionKey, x: SessionKey)
    requires p != x
    ensures Apply(Emptied(p, x), Depart(x, false)) == After(p, x, 7)
  {
    var st', st3 := After(p, x, 7), Apply(Emptied(p, x), Depart(x, false));
    assert st3.sessions == st'.sessions;
    assert st3.publishers == st'.publishers;
    assert p in Emptied(p, x).tracks[T].ups;
    assert st3.tracks == st'.tracks;
  }

  lemma LeftByX(p: SessionKey, x: SessionKey, st1: State)
    requires p != x && st1 == Apply(After(p, x, 6), Forget(x, T))
    ensures Apply(st1, Unsub(p, T, true)) == Emptied(p, x)
  {
    assert st1.tracks[T].downs == map[];
    assert st1.tracks[T].ups == OneLeg(p, 1, Pending);
    assert st1.downIndex == map[];
    assert Apply(st1, Unsub(p, T, true)).tracks[T].ups == OneLeg(p, 1, Terminated);
    assert Apply(st1, Unsub(p, T, true)).tracks == Emptied(p, x).tracks;
  }

  lemma UnsubscribeEffect(p: SessionKey, x: SessionKey)
    requires p != x
    ensures ApplyAll(After(p, x, 8), Acts(p, x, 8)) == After(p, x, 9)
  {
    var acts := Acts(p, x, 8);
    ApplyTwo(After(p, x, 8), acts[0], acts[1]);
    assert Apply(Apply(After(p, x, 8), acts[0]), acts[1]).tracks == map[];
    assert Apply(Apply(After(p, x, 8), acts[0]), acts[1]).downIndex == map[];
  }

  lemma Effects(p: SessionKey, x: SessionKey, n: nat)
    requires p != x && n < 10
    ensures ApplyAll(After(p, x, n), Acts(p, x, n)) == After(p, x, n + 1)
  {
    if n <= 4 { EarlyEffects(p, x, n); }
    else if n == 6 { CloseEffect(p, x); }
    else if n == 8 { UnsubscribeEffect(p, x); }
    else if n == 7 { StarvedEffect(p, x); }
    else { SubscribeEffect(p, x, n); }
  }

  lemma PlansMatch(w: World, p: SessionKey, x: SessionKey, n: nat)
    requires p != x && n < 10 && w.st == After(p, x, n)
    ensures PlanAt(p, x, w, n) == Acts(p, x, n)
  {
    if n <= 4 { EarlyPlans(w, p, x, n); }
    else if n == 6 { ClosePlanMatches(w, p, x); }
    else if n == 8 { UnsubscribePlanMatches(w, p, x); }
    else { SubscribePlans(w, p, x, n); }
  }

  lemma {:induction false} UsedUnlessOpen(w: World, acts: seq<Act>)
    requires forall i :: 0 <= i < |acts| ==> !acts[i].Open?
    ensures Exec(w, acts).used == w.used
  {
    if acts != [] { UsedUnlessOpen(w, acts[..|acts|-1]); }
  }

  lemma NextUsed(w: World, p: SessionKey, x: SessionKey, n: nat)
    requires p != x && n < 10 && w.used == Used(p, x, n)
    ensures Exec(w, Acts(p, x, n)).used == Used(p, x, n + 1)
  {
    if n == 0 || n == 3 {
      SingleAct(w, Acts(p, x, n)[0]);
    } else {
      UsedUnlessOpen(w, Acts(p, x, n));
    }
  }

  lemma StaysAdmissible(w: World, p: SessionKey, x: SessionKey, n: nat)
    requires p != x && n < 10 && w.st == After(p, x, n) && w.used == Used(p, x, n)
    ensures Admissible(w, StaleRun(p, x)[n])
  {
    MatchedNS(w.st);
  }

  lemma Advance(p: SessionKey, x: SessionKey, n: nat)
    requires p != x && n < 10 && At(p, x, n)
    ensures At(p, x, n + 1)
  {
    var run := StaleRun(p, x);
    assert run[..n + 1] == run[..n] + [run[n]];
    SplitStep(CFG, run[..n], run[n]);
    var w := Reach(CFG, run[..n]);
    StaysAdmissible(w, p, x, n);
    var w1 := Receive(w, run[n].event);
    PlansMatch(w1, p, x, n);
    ExecIsApplyAll(w1, Acts(p, x, n));
    Effects(p, x, n);
    NextUsed(w1, p, x, n);
  }

  lemma {:induction false} Arrive(p: SessionKey, x: SessionKey, n: nat)
    requires p != x && n <= 10
    ensures At(p, x, n)
  {
    if n > 0 {
      Arrive(p, x, n - 1);
      Advance(p, x, n - 1);
    }
  }

  lemma SixEvents(p: SessionKey, x: SessionKey)
    requires p != x
    ensures ValidRun(CFG, StaleRun(p, x)[..6]) && Reach(CFG, StaleRun(p, x)[..6]).st == After(p, x, 6)
  {
    Arrive(p, x, 6);
  }

  /** Ten events bring the relay to a world where an old id of p reaches p's new leg. */
  lemma StaleEntryReached(p: SessionKey, x: SessionKey)
    requires p != x
    ensures ConfigOk(CFG) && ValidRun(CFG, StaleRun(p, x)) && Stale(Reach(CFG, StaleRun(p, x)).st, p, 1)
  {
    Arrive(p, x, 10);
    assert StaleRun(p, x)[..10] == StaleRun(p, x);
  }

  /** Closing p after nine of these events leaves an index entry of p itself. */
  lemma EntryOfClosedPublisher(p: SessionKey, x: SessionKey)
    requires p != x
    ensures var run := StaleRun(p, x)[..9] + [Plain(SessionClosed(p))];
            && ValidRun(CFG, run) && p !in Reach(CFG, run).st.sessions
            && exists r :: RequestKey(p, r) in Reach(CFG, run).st.upIndex
  {
    Arrive(p, x, 9);
    var run, y := StaleRun(p, x)[..9], Plain(SessionClosed(p));
    SplitStep(CFG, run, y);
    assert RequestKey(p, 1) in Reach(CFG, run).st.upIndex;
    OwnEntriesSurviveIff(CFG, run, y, p);
    CloseDownComplete(CFG, run, y, p);
  }

  /** After eight of these events the track has a subscriber, and its only leg has ended. */
  lemma AbandonedReached(p: SessionKey, x: SessionKey)
    requires p != x
    ensures ValidRun(CFG, StaleRun(p, x)[..8]) && Abandoned(Reach(CFG, StaleRun(p, x)[..8]).st, T)
  {
    Arrive(p, x, 8);
    var r := After(p, x, 8).tracks[T];
    assert RequestKey(p, 2) in r.downs && Live(r.downs[RequestKey(p, 2)].state);
  }
}
