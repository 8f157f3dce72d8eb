/** What the relay's messages say: every output is about the event it is sent for, and carries on what that says. */
module RelayContents {
  import opened MoqTypes
  import opened RelayState
  import opened RelayLog
  import opened RelayActs
  import opened RelayPlan
  import opened RelayInv
  import opened RelayTrace
  import opened RelayRuns
  import opened RelayFinality
  import opened RelayTheorems
  import opened RelayRefusals
  import opened RelayHistory
  import opened RelayExtensions

  /** The bytes of an ASCII string. */
  function Ascii(s: string): Bytes { seq(|s|, i requires 0 <= i < |s| => s[i] as int % 128) }

  // ---- Contents, message by message ----

  /** A refusal passes on the publisher's, or says that there is no publisher, or none any more. */
  predicate ErrorFollows(q: ControlMessage, code: nat, retry: nat, reason: Bytes) {
    || (q.RequestError? && code == q.errorCode && retry == q.retryInterval && reason == q.errorReason)
    || (q.Subscribe? && code == 0x10 && retry == 0 && reason == Ascii("no publisher for namespace"))
    || (q.PublishDone? && code == 0x10 && retry == 0 && reason == Ascii("publisher done"))
  }

  /** Message m to session p, on channel d, while message q of session s is handled, which came on channel ch.
      What answers q goes back the way it came; everything else goes out on the control stream. */
  predicate MessageFollows(cfg: RelayConfig, s: SessionKey, ch: Channel, q: ControlMessage, latest: Extensions,
                           p: SessionKey, d: Channel, m: ControlMessage) {
    match m
    case ServerSetup(ps) =>
      q.ClientSetup? && p == s && d == ch
      && ps == cfg.serverSetupParameters + [KeyValuePair(2, Varint(cfg.initialLocalMax))]
    case RequestOk(id, ps) => q.PublishNamespace? && p == s && d == ch && id == q.requestId && ps == []
    case Subscribe(_, ns, name, ps) =>
      d.ControlStream? && ps == []
      && ((q.Subscribe? && ns == q.trackNamespace && name == q.trackName)
          || (q.PublishNamespace? && p == s && IsPrefixOf(q.trackNamespace, ns)))
    case SubscribeOk(id, _, ps, exts) =>
      ps == []
      && ((q.SubscribeOk? && d.ControlStream? && exts == q.trackExtensions)
          || (q.Subscribe? && p == s && d == ch && id == q.requestId && exts == latest))
    case RequestError(id, code, retry, reason) =>
      ErrorFollows(q, code, retry, reason)
      && (if q.Subscribe? then p == s && d == ch && id == q.requestId else d.ControlStream?)
    case PublishDone(_, status, count, reason) =>
      q.PublishDone? && d.ControlStream?
      && status == q.statusCode && count == q.streamCount && reason == q.errorReason
    case Unsubscribe(_) => q.Unsubscribe? && d.ControlStream?
    case _ => false
  }

  predicate Follows(cfg: RelayConfig, ev: Event, latest: Extensions, o: Output) {
    match o
    case Close(s, _) => s == ev.session
    case SendObject(_, _, body) => ev.ObjectReceived? && body == ev.body
    case Send(p, d, m) =>
      if ev.Control? then MessageFollows(cfg, ev.session, ev.channel, ev.message, latest, p, d, m)
      else ev.SessionClosed? && m.Unsubscribe? && d.ControlStream?
  }

  // ---- Acts ----

  /** Whatever the state, the act sends nothing else. */
  ghost predicate Faithful(cfg: RelayConfig, ev: Event, latest: Extensions, a: Act) {
    forall st, o :: o in Emit(st, a) ==> Follows(cfg, ev, latest, o)
  }

  ghost function Faithfully(cfg: RelayConfig, ev: Event, latest: Extensions): Act -> bool {
    (a: Act) => Faithful(cfg, ev, latest, a)
  }

  predicate SendsNothing(a: Act) {
    || a.Open? || a.Touch? || a.Announce? || a.AddSub? || a.LegOk? || a.Bind? || a.SetExtensions? || a.EndLeg?
    || a.Drop? || a.Forget? || a.Depart?
  }

  /** All outputs of a step follow from its event. */
  ghost predicate AllFollow(cfg: RelayConfig, ev: Event, latest: Extensions, log: seq<Obs>, from: nat) {
    forall i :: from <= i < |log| && log[i].Tx? ==> Follows(cfg, ev, latest, log[i].output)
  }

  lemma {:induction false} FaithfulRun(cfg: RelayConfig, ev: Event, latest: Extensions, w: World, acts: seq<Act>)
    requires Only(acts, Faithfully(cfg, ev, latest))
    ensures w.log <= Exec(w, acts).log && AllFollow(cfg, ev, latest, Exec(w, acts).log, |w.log|)
  {
    if acts != [] {
      var n := |acts| - 1;
      FaithfulRun(cfg, ev, latest, w, acts[..n]);
      assert Faithfully(cfg, ev, latest)(acts[n]);
      OneMoreFollows(cfg, ev, latest, Exec(w, acts[..n]), acts[n], |w.log|);
    }
  }

  lemma OneMoreFollows(cfg: RelayConfig, ev: Event, latest: Extensions, w: World, act: Act, from: nat)
    requires AllFollow(cfg, ev, latest, w.log, from) && Faithful(cfg, ev, latest, act)
    ensures w.log <= ApplyWorld(w, act).log && AllFollow(cfg, ev, latest, ApplyWorld(w, act).log, from)
  {
    var out := Emit(w.st, act);
    forall i | |w.log| <= i < |ApplyWorld(w, act).log|
      ensures Follows(cfg, ev, latest, ApplyWorld(w, act).log[i].output)
    {
      assert out[i - |w.log|] in out;
    }
  }

  // ---- Handlers ----

  lemma SilentIsFaithful(cfg: RelayConfig, ev: Event, latest: Extensions)
    ensures forall a: Act :: SendsNothing(a) ==> Faithfully(cfg, ev, latest)(a)
  {
  }

  lemma EndIsFaithful(cfg: RelayConfig, ev: Event, latest: Extensions, k: RequestKey, t: TrackKey, ch: Channel,
                      v: Verdict)
    requires ev.Control?
    requires v.Withdrawn?
             || MessageFollows(cfg, ev.session, ev.channel, ev.message, latest, k.session, ch, VerdictMessage(k.id, v))
    ensures Faithful(cfg, ev, latest, End(k, t, ch, v))
  {
  }

  lemma EndsAreFaithful(cfg: RelayConfig, ev: Event, latest: Extensions, order: seq<RequestKey>, t: TrackKey,
                        v: Verdict)
    requires ev.Control? && !v.Withdrawn?
    requires forall p, id ::
               MessageFollows(cfg, ev.session, ev.channel, ev.message, latest, p, ControlStream, VerdictMessage(id, v))
    ensures Only(Ends(order, t, v), Faithfully(cfg, ev, latest))
  {
    forall k ensures Faithfully(cfg, ev, latest)(End(k, t, ControlStream, v)) {
      EndIsFaithful(cfg, ev, latest, k, t, ControlStream, v);
    }
    OnlyEnds(order, t, v, Faithfully(cfg, ev, latest));
  }

  lemma UnsubsAreFaithful(cfg: RelayConfig, ev: Event, latest: Extensions, order: seq<SessionKey>, t: TrackKey,
                          keepIndex: bool)
    requires ev.SessionClosed? || (ev.Control? && ev.message.Unsubscribe?)
    ensures Only(Unsubs(order, t, keepIndex), Faithfully(cfg, ev, latest))
  {
    OnlyUnsubs(order, t, keepIndex, Faithfully(cfg, ev, latest));
  }

  lemma PublisherDone()
    ensures NO_PUBLISHER == Ascii("no publisher for namespace") && PUBLISHER_GONE == Ascii("publisher done")
  {
  }

  lemma RefusalFaithful(cfg: RelayConfig, w: World, ev: Event, latest: Extensions, c: Choice)
    requires ev.Control? && ev.session in w.st.sessions && ev.message.RequestError?
    ensures Only(ControlPlan(cfg, w, ev.session, ev.channel, ev.message, c), Faithfully(cfg, ev, latest))
  {
    var m := ev.message;
    var x := RequestKey(ev.session, m.requestId);
    SilentIsFaithful(cfg, ev, latest);
    if x in w.st.upIndex {
      EndsAreFaithful(cfg, ev, latest, c.subs, w.st.upIndex[x], Refused(m.errorCode, m.retryInterval, m.errorReason));
    }
  }

  lemma DoneFaithful(cfg: RelayConfig, w: World, ev: Event, latest: Extensions, c: Choice)
    requires ev.Control? && ev.session in w.st.sessions && ev.message.PublishDone?
    ensures Only(ControlPlan(cfg, w, ev.session, ev.channel, ev.message, c), Faithfully(cfg, ev, latest))
  {
    var m := ev.message;
    var x := RequestKey(ev.session, m.requestId);
    SilentIsFaithful(cfg, ev, latest);
    PublisherDone();
    if x in w.st.upIndex {
      EndsAreFaithful(cfg, ev, latest, c.subs, w.st.upIndex[x], Completed(m.statusCode, m.streamCount, m.errorReason));
      EndsAreFaithful(cfg, ev, latest, c.late, w.st.upIndex[x], GONE);
    }
  }

  lemma UnsubscribeFaithful(cfg: RelayConfig, w: World, ev: Event, latest: Extensions, c: Choice)
    requires ev.Control? && ev.session in w.st.sessions && ev.message.Unsubscribe?
    ensures Only(ControlPlan(cfg, w, ev.session, ev.channel, ev.message, c), Faithfully(cfg, ev, latest))
  {
    var x := RequestKey(ev.session, ev.message.requestId);
    SilentIsFaithful(cfg, ev, latest);
    if x in w.st.downIndex {
      EndIsFaithful(cfg, ev, latest, x, w.st.downIndex[x], ControlStream, Withdrawn);
      UnsubsAreFaithful(cfg, ev, latest, c.peers, w.st.downIndex[x], false);
    }
  }

  /** Everyone granted hears the extensions that have just come. */
  lemma OkFaithful(cfg: RelayConfig, w: World, ev: Event, latest: Extensions, c: Choice)
    requires ev.Control? && ev.session in w.st.sessions && ev.message.SubscribeOk?
    ensures Only(ControlPlan(cfg, w, ev.session, ev.channel, ev.message, c), Faithfully(cfg, ev, latest))
  {
    var x := RequestKey(ev.session, ev.message.requestId);
    SilentIsFaithful(cfg, ev, latest);
    if x in w.st.upIndex {
      OnlyGrants(c.subs, w.st.upIndex[x], ev.message.trackExtensions, Faithfully(cfg, ev, latest));
    }
  }

  lemma AskingFaithful(cfg: RelayConfig, ev: Event, latest: Extensions, p: SessionKey, t: TrackKey)
    requires ev.Control?
    requires (ev.message.Subscribe? && t == TrackKey(ev.message.trackNamespace, ev.message.trackName))
             || (ev.message.PublishNamespace? && p == ev.session && IsPrefixOf(ev.message.trackNamespace, t.namespace))
    ensures Faithful(cfg, ev, latest, OpenLeg(p, t))
  {
  }

  lemma {:induction false} OffersFaithful(cfg: RelayConfig, ev: Event, latest: Extensions, order: seq<TrackKey>)
    requires ev.Control? && ev.message.PublishNamespace?
    ensures Only(OfferTracks(order, ev.session, ev.message.trackNamespace), Faithfully(cfg, ev, latest))
  {
    if order != [] {
      var n := |order| - 1;
      OffersFaithful(cfg, ev, latest, order[..n]);
      if IsPrefixOf(ev.message.trackNamespace, order[n].namespace) {
        AskingFaithful(cfg, ev, latest, ev.session, order[n]);
      }
    }
  }

  lemma AskingAllFaithful(cfg: RelayConfig, ev: Event, latest: Extensions, order: seq<SessionKey>, t: TrackKey)
    requires ev.Control? && ev.message.Subscribe? && t == TrackKey(ev.message.trackNamespace, ev.message.trackName)
    ensures Only(OpenLegs(order, t), Faithfully(cfg, ev, latest))
  {
    forall p ensures Faithfully(cfg, ev, latest)(OpenLeg(p, t)) { AskingFaithful(cfg, ev, latest, p, t); }
    OnlyOpenLegs(order, t, Faithfully(cfg, ev, latest));
  }

  /** Whatever holds of each kind of act for a SUBSCRIBE holds of all of them. */
  lemma SubscribeOnly(w: World, s: SessionKey, ch: Channel, id: nat, t: TrackKey, params: Parameters, c: Choice,
                      p: Act -> bool)
    requires s in w.st.sessions && Only(OpenLegs(c.peers, t), p)
    requires forall a: Act :: a.AddSub? || a.Drop? ==> p(a)
    requires forall e :: p(Say(Close(s, e)))
    requires p(Grant(RequestKey(s, id), t, ch, ExtensionsIn(w.st, t)))
    requires p(End(RequestKey(s, id), t, ch, Refused(DOES_NOT_EXIST, 0, NO_PUBLISHER)))
    ensures Only(SubscribePlan(w, s, ch, id, t, params, c), p)
  {
    if HasEstablishedUpstream(RouteOr(w.st, t)) { assert t in w.st.tracks; }
  }

  /** Whoever is granted at once hears what is stored. */
  lemma SubscribeFaithful(cfg: RelayConfig, w: World, ev: Event, c: Choice)
    requires ev.Control? && ev.session in w.st.sessions && ev.message.Subscribe?
    ensures var latest := ExtensionsIn(w.st, TrackKey(ev.message.trackNamespace, ev.message.trackName));
            Only(ControlPlan(cfg, w, ev.session, ev.channel, ev.message, c), Faithfully(cfg, ev, latest))
  {
    var m := ev.message;
    var t := TrackKey(m.trackNamespace, m.trackName);
    var latest := ExtensionsIn(w.st, t);
    SubscribeActsFaithful(cfg, ev, latest, c, t);
    SubscribeOnly(w, ev.session, ev.channel, m.requestId, t, m.parameters, c, Faithfully(cfg, ev, latest));
  }

  lemma SubscribeActsFaithful(cfg: RelayConfig, ev: Event, latest: Extensions, c: Choice, t: TrackKey)
    requires ev.Control? && ev.message.Subscribe? && t == TrackKey(ev.message.trackNamespace, ev.message.trackName)
    ensures var p, k := Faithfully(cfg, ev, latest), RequestKey(ev.session, ev.message.requestId);
            && Only(OpenLegs(c.peers, t), p) && (forall a: Act :: a.AddSub? || a.Drop? ==> p(a))
            && (forall e :: p(Say(Close(ev.session, e)))) && p(Grant(k, t, ev.channel, latest))
            && p(End(k, t, ev.channel, Refused(DOES_NOT_EXIST, 0, NO_PUBLISHER)))
  {
    var k := RequestKey(ev.session, ev.message.requestId);
    SilentIsFaithful(cfg, ev, latest);
    PublisherDone();
    EndIsFaithful(cfg, ev, latest, k, t, ev.channel, Refused(DOES_NOT_EXIST, 0, NO_PUBLISHER));
    AskingAllFaithful(cfg, ev, latest, c.peers, t);
  }

  /** Set-up, announcements, and what is answered with nothing or a close. */
  lemma SettingsFaithful(cfg: RelayConfig, w: World, ev: Event, latest: Extensions, c: Choice)
    requires ev.Control? && ev.session in w.st.sessions
    requires w.st.sessions[ev.session].localMax == cfg.initialLocalMax
    requires !ev.message.Subscribe? && !ev.message.SubscribeOk? && !ev.message.RequestError? && !ev.message.PublishDone?
             && !ev.message.Unsubscribe?
    ensures Only(ControlPlan(cfg, w, ev.session, ev.channel, ev.message, c), Faithfully(cfg, ev, latest))
  {
    SilentIsFaithful(cfg, ev, latest);
    if ev.message.PublishNamespace? { OffersFaithful(cfg, ev, latest, c.tracks); }
  }

  lemma {:induction false} LeavingFaithful(cfg: RelayConfig, ev: Event, latest: Extensions, st: State,
                                           order: seq<TrackKey>, legs: map<TrackKey, seq<SessionKey>>)
    requires ev.SessionClosed?
    ensures Only(LeaveTracks(st, ev.session, order, legs), Faithfully(cfg, ev, latest))
  {
    SilentIsFaithful(cfg, ev, latest);
    if order != [] {
      var n := |order| - 1;
      LeavingFaithful(cfg, ev, latest, st, order[..n], legs);
      UnsubsAreFaithful(cfg, ev, latest, if order[n] in legs then legs[order[n]] else [], order[n], true);
    }
  }

  // ---- One event, and whole runs ----

  /** The extensions to be told to a subscriber granted at once. */
  function StoredFor(st: State, ev: Event): Extensions {
    if ev.Control? && ev.message.Subscribe?
    then ExtensionsIn(st, TrackKey(ev.message.trackNamespace, ev.message.trackName)) else []
  }

  lemma PlansFaithful(cfg: RelayConfig, w: World, x: Stimulus)
    requires x.event.session in w.st.sessions ==> w.st.sessions[x.event.session].localMax == cfg.initialLocalMax
    ensures Only(Plan(cfg, w, x.event, x.choice), Faithfully(cfg, x.event, StoredFor(w.st, x.event)))
  {
    var latest := StoredFor(w.st, x.event);
    SilentIsFaithful(cfg, x.event, latest);
    match x.event
    case SessionOpened(_, _) =>
    case SessionClosed(_) => LeavingFaithful(cfg, x.event, latest, w.st, x.choice.tracks, x.choice.legs);
    case Control(s, _, _) => if s in w.st.sessions { ControlFaithful(cfg, w, x.event, x.choice); }
    case ObjectReceived(s, alias, body) =>
      if s in w.st.sessions && alias in w.st.sessions[s].inbound {
        OnlyForwards(x.choice.subs, w.st.sessions[s].inbound[alias], body, Faithfully(cfg, x.event, latest));
      }
    case FetchObjectReceived(_) =>
  }

  lemma ControlFaithful(cfg: RelayConfig, w: World, ev: Event, c: Choice)
    requires ev.Control? && ev.session in w.st.sessions && w.st.sessions[ev.session].localMax == cfg.initialLocalMax
    ensures Only(ControlPlan(cfg, w, ev.session, ev.channel, ev.message, c), Faithfully(cfg, ev, StoredFor(w.st, ev)))
  {
    var m := ev.message;
    if m.Subscribe? {
      SubscribeFaithful(cfg, w, ev, c);
    } else if m.SubscribeOk? {
      OkFaithful(cfg, w, ev, [], c);
    } else if m.RequestError? {
      RefusalFaithful(cfg, w, ev, [], c);
    } else if m.PublishDone? {
      DoneFaithful(cfg, w, ev, [], c);
    } else if m.Unsubscribe? {
      UnsubscribeFaithful(cfg, w, ev, [], c);
    } else {
      SettingsFaithful(cfg, w, ev, [], c);
    }
  }

  /** The extensions announced last for the track of a SUBSCRIBE. */
  ghost function LatestFor(cfg: RelayConfig, run: seq<Stimulus>, ev: Event): Extensions {
    if ev.Control? && ev.message.Subscribe?
    then LatestExtensions(cfg, run, TrackKey(ev.message.trackNamespace, ev.message.trackName)) else []
  }

  /** Whatever the run, every output sent for its next event is about that event and says what it says. */
  lemma OutputsFollow(cfg: RelayConfig, run: seq<Stimulus>, x: Stimulus)
    requires ConfigOk(cfg) && ValidRun(cfg, run + [x])
    ensures var log, log' := Reach(cfg, run).log, Reach(cfg, run + [x]).log;
            log <= log' && AllFollow(cfg, x.event, LatestFor(cfg, run, x.event), log', |log|)
  {
    SplitStep(cfg, run, x);
    var w := Reach(cfg, run);
    RecordIsTold(cfg, run, x.event.session);
    if x.event.session in w.st.sessions { LocalLimitStays(cfg, run, x.event.session); }
    if x.event.Control? && x.event.message.Subscribe? {
      ExtensionsAreLatest(cfg, run, TrackKey(x.event.message.trackNamespace, x.event.message.trackName));
    }
    StepFollows(cfg, w, x);
  }

  lemma StepFollows(cfg: RelayConfig, w: World, x: Stimulus)
    requires x.event.session in w.st.sessions ==> w.st.sessions[x.event.session].localMax == cfg.initialLocalMax
    ensures w.log <= Step(cfg, w, x).log
    ensures AllFollow(cfg, x.event, StoredFor(w.st, x.event), Step(cfg, w, x).log, |w.log|)
  {
    var w1 := Receive(w, x.event);
    PlansFaithful(cfg, w1, x);
    FaithfulRun(cfg, x.event, StoredFor(w.st, x.event), w1, Plan(cfg, w1, x.event, x.choice));
    assert Step(cfg, w, x).log[|w.log|] == Rx(x.event);
  }

  // ---- What a subscriber is told ----

  ghost predicate SentIn(log: seq<Obs>, from: nat, s: SessionKey, ch: Channel, m: ControlMessage) {
    exists i :: from <= i < |log| && log[i] == Tx(Send(s, ch, m))
  }

  /** PUBLISH_DONE passes on the status, the number of streams and the reason of the one received. */
  lemma DonePassedOn(cfg: RelayConfig, run: seq<Stimulus>, x: Stimulus, s: SessionKey, ch: Channel, id: nat,
                     status: nat, count: nat, reason: Bytes)
    requires ConfigOk(cfg) && ValidRun(cfg, run + [x])
    requires SentIn(Reach(cfg, run + [x]).log, |Reach(cfg, run).log|, s, ch, PublishDone(id, status, count, reason))
    ensures x.event.Control? && exists r :: x.event.message == PublishDone(r, status, count, reason)
  {
    OutputsFollow(cfg, run, x);
    assert x.event.message == PublishDone(x.event.message.requestId, status, count, reason);
  }

  /** REQUEST_ERROR passes on the code, the retry interval and the reason of the one received; otherwise it says
      DOES_NOT_EXIST, to a subscriber nobody can serve or to those still waiting when the last publisher is done. */
  lemma ErrorPassedOn(cfg: RelayConfig, run: seq<Stimulus>, x: Stimulus, s: SessionKey, ch: Channel, id: nat,
                      code: nat, retry: nat, reason: Bytes)
    requires ConfigOk(cfg) && ValidRun(cfg, run + [x])
    requires SentIn(Reach(cfg, run + [x]).log, |Reach(cfg, run).log|, s, ch, RequestError(id, code, retry, reason))
    ensures x.event.Control?
    ensures || (exists r :: x.event.message == RequestError(r, code, retry, reason))
            || (x.event.message.Subscribe? && x.event.session == s && x.event.channel == ch
                && x.event.message.requestId == id
                && code == 0x10 && retry == 0 && reason == Ascii("no publisher for namespace"))
            || (x.event.message.PublishDone? && code == 0x10 && retry == 0 && reason == Ascii("publisher done"))
  {
    OutputsFollow(cfg, run, x);
    assert x.event.message.RequestError? ==>
        x.event.message == RequestError(x.event.message.requestId, code, retry, reason);
  }

  /** SUBSCRIBE_OK passes on the extensions of the one received; sent at once, those announced last for the track. */
  lemma ExtensionsPassedOn(cfg: RelayConfig, run: seq<Stimulus>, x: Stimulus, s: SessionKey, ch: Channel, id: nat,
                           alias: nat, ps: Parameters, exts: Extensions)
    requires ConfigOk(cfg) && ValidRun(cfg, run + [x])
    requires SentIn(Reach(cfg, run + [x]).log, |Reach(cfg, run).log|, s, ch, SubscribeOk(id, alias, ps, exts))
    ensures x.event.Control? && ps == []
    ensures || (x.event.message.SubscribeOk? && exts == x.event.message.trackExtensions)
            || (x.event.message.Subscribe? && x.event.session == s && x.event.message.requestId == id
                && exts == LatestExtensions(cfg, run,
                                            TrackKey(x.event.message.trackNamespace, x.event.message.trackName)))
  {
    OutputsFollow(cfg, run, x);
  }

  // ---- Acknowledgements ----

  function AckIn(o: Obs): seq<Output> {
    if o.Tx? && o.output.Send? && (o.output.message.ServerSetup? || o.output.message.RequestOk?) then [o.output] else []
  }

  function AckView(): Obs -> seq<Output> { (o: Obs) => AckIn(o) }

  /** Every SERVER_SETUP and REQUEST_OK so far. */
  function Acks(log: seq<Obs>): seq<Output> { Collect(log, AckView()) }

  /** What an event that has been accepted is acknowledged with. */
  function AckOf(cfg: RelayConfig, ev: Event): seq<Output> {
    if !ev.Control? then []
    else
      match ev.message
      case ClientSetup(_) =>
        [Send(ev.session, ev.channel,
              ServerSetup(cfg.serverSetupParameters + [KeyValuePair(2, Varint(cfg.initialLocalMax))]))]
      case PublishNamespace(id, _, _) => [Send(ev.session, ev.channel, RequestOk(id, []))]
      case _ => []
  }

  function Mute(): Act -> bool { (a: Act) => !a.Say? || a.out.Close? }

  lemma MuteAct(st: State, act: Act)
    requires !act.Say? || act.out.Close?
    ensures Emit(st, act) == [] || AckIn(Tx(Emit(st, act)[0])) == []
  {
    if act.End? && !act.verdict.Withdrawn? { assert !VerdictMessage(act.k.id, act.verdict).RequestOk?; }
  }

  lemma {:induction false} NothingAcked(w: World, acts: seq<Act>)
    requires Only(acts, Mute())
    ensures Acks(Exec(w, acts).log) == Acks(w.log)
  {
    if acts != [] {
      var n := |acts| - 1;
      assert Mute()(acts[n]);
      NothingAcked(w, acts[..n]);
      MuteAct(Exec(w, acts[..n]).st, acts[n]);
      ViewOfAct(Exec(w, acts[..n]), acts[n], AckView());
    }
  }

  /** The second act acknowledges, and nothing else does. */
  lemma SecondAcks(w: World, acts: seq<Act>, out: Output)
    requires |acts| >= 2 && acts[1] == Say(out) && Mute()(acts[0]) && Only(acts[2..], Mute())
    ensures Acks(Exec(w, acts).log) == Acks(w.log) + AckIn(Tx(out))
  {
    assert acts == [acts[0], acts[1]] + acts[2..] && acts[..1] == [acts[0]];
    ExecAppend(w, [acts[0], acts[1]], acts[2..]);
    ExecSnoc(w, [acts[0]], acts[1]);
    assert [acts[0]] + [acts[1]] == [acts[0], acts[1]];
    assert Only([acts[0]], Mute());
    NothingAcked(w, [acts[0]]);
    ViewOfAct(Exec(w, [acts[0]]), acts[1], AckView());
    NothingAcked(Exec(w, [acts[0], acts[1]]), acts[2..]);
  }

  lemma AcceptedAcks(cfg: RelayConfig, w: World, s: SessionKey, ch: Channel, m: ControlMessage, c: Choice)
    requires s in w.st.sessions && w.st.sessions[s].localMax == cfg.initialLocalMax && SessionOk(w.st.sessions[s])
    requires m.ClientSetup? || m.PublishNamespace?
    requires MessageComplaint(AccountOf(w.st.sessions[s]), w.st, s, m).None?
    ensures Acks(Exec(w, ControlPlan(cfg, w, s, ch, m, c)).log) == Acks(w.log) + AckOf(cfg, Control(s, ch, m))
  {
    var acts := ControlPlan(cfg, w, s, ch, m, c);
    if m.PublishNamespace? {
      OnlyOffers(c.tracks, s, m.trackNamespace, Mute());
      assert acts[2..] == OfferTracks(c.tracks, s, m.trackNamespace);
    }
    SecondAcks(w, acts, AckOf(cfg, Control(s, ch, m))[0]);
  }

  predicate Acknowledged(ev: Event) { ev.Control? && (ev.message.ClientSetup? || ev.message.PublishNamespace?) }

  /** All other events acknowledge nothing. */
  lemma OthersMute(cfg: RelayConfig, w: World, x: Stimulus)
    requires !Acknowledged(x.event)
    ensures Only(Plan(cfg, w, x.event, x.choice), Mute())
  {
    match x.event
    case SessionOpened(_, _) =>
    case SessionClosed(q) => LeavingRest(w.st, q, x.choice.tracks, x.choice.legs, Mute());
    case Control(q, ch, m) => MessageMute(cfg, w, q, ch, m, x.choice);
    case ObjectReceived(q, alias, body) =>
      if q in w.st.sessions && alias in w.st.sessions[q].inbound {
        OnlyForwards(x.choice.subs, w.st.sessions[q].inbound[alias], body, Mute());
      }
    case FetchObjectReceived(_) =>
  }

  lemma MessageMute(cfg: RelayConfig, w: World, q: SessionKey, ch: Channel, m: ControlMessage, c: Choice)
    requires !m.ClientSetup? && !m.PublishNamespace?
    ensures Only(ControlPlan(cfg, w, q, ch, m, c), Mute())
  {
    if q in w.st.sessions {
      if m.RequestError? || m.PublishDone? || m.Unsubscribe? {
        EndingOnly(cfg, w, q, ch, m, c, Mute());
      } else if m.Subscribe? {
        OnlyOpenLegs(c.peers, TrackKey(m.trackNamespace, m.trackName), Mute());
      } else if m.SubscribeOk? && RequestKey(q, m.requestId) in w.st.upIndex {
        OnlyGrants(c.subs, w.st.upIndex[RequestKey(q, m.requestId)], m.trackExtensions, Mute());
      }
    }
  }

  lemma RefusedIsAlone(cfg: RelayConfig, w: World, s: SessionKey, ch: Channel, m: ControlMessage, c: Choice)
    requires Inv(w) && (m.ClientSetup? || m.PublishNamespace?)
    requires s in w.st.sessions ==> MessageComplaint(AccountOf(w.st.sessions[s]), w.st, s, m).Some?
    ensures Only(ControlPlan(cfg, w, s, ch, m, c), Mute())
  {
    if s in w.st.sessions { assert SessionOk(w.st.sessions[s]); }
  }

  lemma StepAcks(cfg: RelayConfig, w: World, x: Stimulus)
    requires ConfigOk(cfg) && Inv(w) && TraceInv(w)
    requires x.event.session in w.st.sessions ==> w.st.sessions[x.event.session].localMax == cfg.initialLocalMax
    ensures Acks(Step(cfg, w, x).log)
         == Acks(w.log) + (if Refuses(w, Step(cfg, w, x)) then [] else AckOf(cfg, x.event))
  {
    var w1 := Receive(w, x.event);
    var s := x.event.session;
    CollectSnoc(w.log, Rx(x.event), AckView());
    ClosesOfStep(cfg, w, x);
    ReceiveKeeps(w, x.event);
    if !Acknowledged(x.event) {
      OthersMute(cfg, w1, x);
      NothingAcked(w1, Plan(cfg, w1, x.event, x.choice));
    } else if Complaint(AccountIn(w.st, s), w.st, x.event).Some? {
      RefusedIsAlone(cfg, w1, s, x.event.channel, x.event.message, x.choice);
      NothingAcked(w1, Plan(cfg, w1, x.event, x.choice));
    } else {
      assert SessionOk(w.st.sessions[s]);
      AcceptedAcks(cfg, w1, s, x.event.channel, x.event.message, x.choice);
    }
  }

  /** An accepted CLIENT_SETUP is answered with SERVER_SETUP and an accepted PUBLISH_NAMESPACE with REQUEST_OK, once
      and where it came from; nothing else is acknowledged. */
  lemma AcknowledgedExactly(cfg: RelayConfig, run: seq<Stimulus>, x: Stimulus)
    requires ConfigOk(cfg) && ValidRun(cfg, run + [x])
    ensures var w, w' := Reach(cfg, run), Reach(cfg, run + [x]);
            Acks(w'.log) == Acks(w.log) + (if Refuses(w, w') then [] else AckOf(cfg, x.event))
  {
    SplitStep(cfg, run, x);
    Reachable(cfg, run);
    RecordIsTold(cfg, run, x.event.session);
    if x.event.session in Reach(cfg, run).st.sessions { LocalLimitStays(cfg, run, x.event.session); }
    StepAcks(cfg, Reach(cfg, run), x);
  }
}
