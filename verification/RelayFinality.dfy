/** What is over stays over: a subscription after its end, an upstream id after its end. */
module RelayFinality {
  import opened MoqTypes
  import opened RelayState
  import opened RelayLog
  import opened RelayActs
  import opened RelayPlan
  import opened RelayInv
  import opened RelayTrace
  import opened RelayLegal
  import opened RelayRuns

  /** The request was used and no live subscription carries it any more. */
  predicate Dead(w: World, k: RequestKey) {
    k !in w.st.downIndex && !Unused(w, k)
  }

  /** The upstream id was issued and no live leg carries it any more. */
  ghost predicate DeadLeg(w: World, x: RequestKey) {
    !Unissued(w, x) && forall t :: !LiveLegAt(w.st, t, x)
  }

  lemma DeadKept(w: World, act: Act, k: RequestKey)
    requires Inv(w) && Enabled(w, act) && Dead(w, k)
    ensures Dead(ApplyWorld(w, act), k) && NewReply(w.st, act, k) == []
  {
    UnusedShrinks(w, act, k);
    if act.Grant? || act.End? {
      assert SubOk(w.st, act.t, act.k);
    }
  }

  lemma NewLiveLeg(w: World, act: Act, t: TrackKey, x: RequestKey)
    requires Inv(w) && Enabled(w, act)
    ensures LiveLegAt(Apply(w.st, act), t, x) ==> LiveLegAt(w.st, t, x) || Unissued(w, x)
  {
  }

  lemma DeadLegKept(w: World, act: Act, x: RequestKey)
    requires Inv(w) && Enabled(w, act) && DeadLeg(w, x)
    ensures DeadLeg(ApplyWorld(w, act), x) && NewLegMsg(w.st, act, x) == []
  {
    UnissuedShrinks(w, act, x);
    forall t ensures !LiveLegAt(Apply(w.st, act), t, x) {
      NewLiveLeg(w, act, t, x);
    }
    if act.Unsub? {
      assert LiveLegAt(w.st, act.t, RequestKey(act.p, LegOf(w.st, act.t, act.p).requestId));
    }
  }

  lemma {:induction false} DeadRun(w: World, acts: seq<Act>, k: RequestKey)
    requires Inv(w) && Legal(w, acts) && Dead(w, k)
    ensures Dead(Exec(w, acts), k) && Replies(Exec(w, acts).log, k) == Replies(w.log, k)
  {
    if acts != [] {
      var n := |acts| - 1;
      var w1 := Exec(w, acts[..n]);
      DeadRun(w, acts[..n], k);
      InvRun(w, acts[..n]);
      DeadKept(w1, acts[n], k);
      RepliesGrow(w1, acts[n], k);
    }
  }

  lemma {:induction false} DeadLegRun(w: World, acts: seq<Act>, x: RequestKey)
    requires Inv(w) && Legal(w, acts) && DeadLeg(w, x)
    ensures DeadLeg(Exec(w, acts), x) && LegMsgs(Exec(w, acts).log, x) == LegMsgs(w.log, x)
  {
    if acts != [] {
      var n := |acts| - 1;
      var w1 := Exec(w, acts[..n]);
      DeadLegRun(w, acts[..n], x);
      InvRun(w, acts[..n]);
      DeadLegKept(w1, acts[n], x);
      LegMsgsGrow(w1, acts[n], x);
    }
  }

  /** More steps, from any world. */
  function Continue(cfg: RelayConfig, w: World, run: seq<Stimulus>): World {
    if run == [] then w else Step(cfg, Continue(cfg, w, run[..|run|-1]), run[|run|-1])
  }

  ghost predicate ValidFrom(cfg: RelayConfig, w: World, run: seq<Stimulus>) {
    run == [] || (ValidFrom(cfg, w, run[..|run|-1]) && Admissible(Continue(cfg, w, run[..|run|-1]), run[|run|-1]))
  }

  lemma {:induction false} SplitRun(cfg: RelayConfig, pre: seq<Stimulus>, post: seq<Stimulus>)
    ensures Reach(cfg, pre + post) == Continue(cfg, Reach(cfg, pre), post)
    ensures ValidRun(cfg, pre + post) <==> ValidRun(cfg, pre) && ValidFrom(cfg, Reach(cfg, pre), post)
    decreases |post|
  {
    if post == [] {
      assert pre + post == pre;
    } else {
      var n := |post| - 1;
      SplitRun(cfg, pre, post[..n]);
      assert (pre + post)[..|pre + post| - 1] == pre + post[..n];
    }
  }

  /** A prefix of a valid run is valid. */
  lemma {:induction false} PrefixValid(cfg: RelayConfig, run: seq<Stimulus>, j: nat)
    requires ValidRun(cfg, run) && j <= |run|
    ensures ValidRun(cfg, run[..j])
    decreases |run|
  {
    if j == |run| {
      assert run[..j] == run;
    } else {
      assert run[..|run|-1][..j] == run[..j];
      PrefixValid(cfg, run[..|run|-1], j);
    }
  }

  lemma OneMore(cfg: RelayConfig, pre: seq<Stimulus>, x: Stimulus, run: seq<Stimulus>)
    requires run == pre + [x] && ValidRun(cfg, run)
    ensures Reach(cfg, run) == Step(cfg, Reach(cfg, pre), x)
    ensures ValidRun(cfg, pre) && Admissible(Reach(cfg, pre), x)
  {
    assert run[..|run| - 1] == pre;
  }

  /** Event j of a valid run takes its first j events one step further. */
  lemma StepOfRun(cfg: RelayConfig, run: seq<Stimulus>, j: nat)
    requires j < |run| && ValidRun(cfg, run)
    ensures Reach(cfg, run[..j + 1]) == Step(cfg, Reach(cfg, run[..j]), run[j])
    ensures ValidRun(cfg, run[..j]) && Admissible(Reach(cfg, run[..j]), run[j])
  {
    PrefixValid(cfg, run, j + 1);
    OneMore(cfg, run[..j], run[j], run[..j + 1]);
  }

  lemma {:induction false} DeadForever(cfg: RelayConfig, w: World, run: seq<Stimulus>, k: RequestKey)
    requires ConfigOk(cfg) && Inv(w) && TraceInv(w) && ValidFrom(cfg, w, run) && Dead(w, k)
    ensures Inv(Continue(cfg, w, run)) && TraceInv(Continue(cfg, w, run))
    ensures Dead(Continue(cfg, w, run), k) && Replies(Continue(cfg, w, run).log, k) == Replies(w.log, k)
  {
    if run != [] {
      var n := |run| - 1;
      DeadForever(cfg, w, run[..n], k);
      var w1 := Continue(cfg, w, run[..n]);
      DeadStep(cfg, w1, run[n], k);
    }
  }

  lemma DeadStep(cfg: RelayConfig, w: World, x: Stimulus, k: RequestKey)
    requires ConfigOk(cfg) && Inv(w) && TraceInv(w) && Admissible(w, x) && Dead(w, k)
    ensures Inv(Step(cfg, w, x)) && TraceInv(Step(cfg, w, x))
    ensures Dead(Step(cfg, w, x), k) && Replies(Step(cfg, w, x).log, k) == Replies(w.log, k)
  {
    StepKeeps(cfg, w, x);
    ReceiveKeeps(w, x.event);
    ReceiveReplies(w, x.event, k);
    PlanLegal(cfg, w, x);
    DeadRun(Receive(w, x.event), Plan(cfg, Receive(w, x.event), x.event, x.choice), k);
  }

  lemma {:induction false} DeadLegForever(cfg: RelayConfig, w: World, run: seq<Stimulus>, x: RequestKey)
    requires ConfigOk(cfg) && Inv(w) && TraceInv(w) && ValidFrom(cfg, w, run) && DeadLeg(w, x)
    ensures Inv(Continue(cfg, w, run)) && TraceInv(Continue(cfg, w, run))
    ensures DeadLeg(Continue(cfg, w, run), x) && LegMsgs(Continue(cfg, w, run).log, x) == LegMsgs(w.log, x)
  {
    if run != [] {
      var n := |run| - 1;
      DeadLegForever(cfg, w, run[..n], x);
      DeadLegStep(cfg, Continue(cfg, w, run[..n]), run[n], x);
    }
  }

  lemma DeadLegStep(cfg: RelayConfig, w: World, y: Stimulus, x: RequestKey)
    requires ConfigOk(cfg) && Inv(w) && TraceInv(w) && Admissible(w, y) && DeadLeg(w, x)
    ensures Inv(Step(cfg, w, y)) && TraceInv(Step(cfg, w, y))
    ensures DeadLeg(Step(cfg, w, y), x) && LegMsgs(Step(cfg, w, y).log, x) == LegMsgs(w.log, x)
  {
    StepKeeps(cfg, w, y);
    ReceiveKeeps(w, y.event);
    ReceiveLegMsgs(w, y.event, x);
    PlanLegal(cfg, w, y);
    DeadLegRun(Receive(w, y.event), Plan(cfg, Receive(w, y.event), y.event, y.choice), x);
  }

  /** The step tells the environment to close a session. */
  ghost predicate Refuses(w: World, w': World) {
    exists i :: |w.log| <= i < |w'.log| && w'.log[i].Tx? && w'.log[i].output.Close?
  }

  /** Acts that send no CloseSession. */
  function Quiet(): Act -> bool { (a: Act) => !a.Say? }

  lemma QuietAct(st: State, act: Act)
    requires !act.Say?
    ensures forall i :: 0 <= i < |Emit(st, act)| ==> !Emit(st, act)[i].Close?
  {
  }

  lemma {:induction false} QuietRun(w: World, acts: seq<Act>)
    requires Only(acts, Quiet())
    ensures |w.log| <= |Exec(w, acts).log| && Exec(w, acts).log[..|w.log|] == w.log
    ensures !Refuses(w, Exec(w, acts))
  {
    if acts != [] {
      var n := |acts| - 1;
      QuietRun(w, acts[..n]);
      assert Quiet()(acts[n]);
      QuietAct(Exec(w, acts[..n]).st, acts[n]);
    }
  }

  lemma QuietStep(w: World, ev: Event, acts: seq<Act>)
    requires Only(acts, Quiet())
    ensures !Refuses(w, Exec(Receive(w, ev), acts))
  {
    QuietRun(Receive(w, ev), acts);
    assert Exec(Receive(w, ev), acts).log[|w.log|] == Rx(ev);
  }

  /** An accepted UNSUBSCRIBE first ends its subscription without a word. */
  lemma WithdrawPlan(w: World, k: RequestKey, c: Choice)
    requires Inv(w) && k in w.st.downIndex
    ensures var acts := UnsubscribePlan(w, k.session, k.id, c);
            acts != [] && acts[0] == End(k, w.st.downIndex[k], ControlStream, Withdrawn) && Only(acts, Quiet())
  {
    assert k == RequestKey(k.session, k.id);
    var t := w.st.downIndex[k];
    assert HasSub(w.st, t, k) && SubOk(w.st, t, k);
    OnlyUnsubs(c.peers, t, false, Quiet());
  }

  lemma EndedIsDead(w: World, k: RequestKey, t: TrackKey, ch: Channel, verdict: Verdict)
    requires Inv(w) && Enabled(w, End(k, t, ch, verdict))
    ensures Dead(ApplyWorld(w, End(k, t, ch, verdict)), k)
  {
    assert SubOk(w.st, t, k);
  }

  /** Once a subscription has been ended first, the other acts are silent about it. */
  lemma EndFirst(w: World, k: RequestKey, t: TrackKey, ch: Channel, verdict: Verdict, acts: seq<Act>)
    requires Inv(w) && acts != [] && acts[0] == End(k, t, ch, verdict) && Legal(w, acts)
    ensures Dead(Exec(w, acts), k)
    ensures Replies(Exec(w, acts).log, k) == Replies(w.log, k) + NewReply(w.st, acts[0], k)
  {
    assert acts == [acts[0]] + acts[1..];
    ExecAppend(w, [acts[0]], acts[1..]);
    SingleAct(w, acts[0]);
    InvKept(w, acts[0]);
    EndedIsDead(w, k, t, ch, verdict);
    RepliesGrow(w, acts[0], k);
    DeadRun(ApplyWorld(w, acts[0]), acts[1..], k);
  }

  lemma UnsubscribeAccepted(cfg: RelayConfig, w: World, x: Stimulus, ch: Channel, k: RequestKey)
    requires ConfigOk(cfg) && Inv(w) && TraceInv(w) && Admissible(w, x)
    requires x.event == Control(k.session, ch, Unsubscribe(k.id)) && k in w.st.downIndex
    ensures !Refuses(w, Step(cfg, w, x)) && Dead(Step(cfg, w, x), k)
    ensures Replies(Step(cfg, w, x).log, k) == Replies(w.log, k)
  {
    var w1 := Receive(w, x.event);
    ReceiveKeeps(w, x.event);
    ReceiveReplies(w, x.event, k);
    PlanLegal(cfg, w, x);
    assert SubOk(w.st, w.st.downIndex[k], k);
    assert Plan(cfg, w1, x.event, x.choice) == UnsubscribePlan(w1, k.session, k.id, x.choice);
    WithdrawnRun(w1, k, x.choice);
    WithdrawPlan(w1, k, x.choice);
    QuietStep(w, x.event, UnsubscribePlan(w1, k.session, k.id, x.choice));
  }

  lemma WithdrawnRun(w: World, k: RequestKey, c: Choice)
    requires Inv(w) && k in w.st.downIndex && k.session in w.st.sessions
             && Legal(w, UnsubscribePlan(w, k.session, k.id, c))
    ensures var w' := Exec(w, UnsubscribePlan(w, k.session, k.id, c));
            Dead(w', k) && Replies(w'.log, k) == Replies(w.log, k)
  {
    WithdrawPlan(w, k, c);
    EndFirst(w, k, w.st.downIndex[k], ControlStream, Withdrawn, UnsubscribePlan(w, k.session, k.id, c));
    assert Replies(w.log, k) + [] == Replies(w.log, k);
  }

  lemma UnsubscribeOfDead(cfg: RelayConfig, w: World, x: Stimulus, ch: Channel, k: RequestKey)
    requires ConfigOk(cfg) && Inv(w) && TraceInv(w) && Admissible(w, x)
    requires x.event == Control(k.session, ch, Unsubscribe(k.id)) && k !in w.st.downIndex
    ensures Refuses(w, Step(cfg, w, x))
  {
    var w1 := Receive(w, x.event);
    SingleAct(w1, Say(Close(k.session, ProtocolViolation)));
    assert Step(cfg, w, x).log[|w.log| + 1] == Tx(Close(k.session, ProtocolViolation));
  }

  /** The index holds exactly the live subscriptions. */
  lemma IndexedIffLive(w: World, k: RequestKey)
    requires Inv(w)
    ensures k in w.st.downIndex <==> exists t :: HasSub(w.st, t, k) && Live(Sub(w.st, t, k).state)
  {
    if k in w.st.downIndex {
      assert HasSub(w.st, w.st.downIndex[k], k);
    }
    forall t | HasSub(w.st, t, k) && Live(Sub(w.st, t, k).state) ensures k in w.st.downIndex {
      assert SubOk(w.st, t, k);
    }
  }
}
