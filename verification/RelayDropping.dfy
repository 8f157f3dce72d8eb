/** A track's route goes only when nobody is left on it, and everybody who was is told. */
module RelayDropping {
  import opened MoqTypes
  import opened RelayState
  import opened RelayLog
  import opened RelayActs
  import opened RelayPlan
  import opened RelayInv
  import opened RelayTrace
  import opened RelayRuns
  import opened RelayFinality
  import opened RelayTheorems
  import opened RelayRouting

  /** Nobody live on either side. */
  predicate Idle(r: TrackRoute) { NoActiveDownstream(r) && AllLegsTerminated(r) }

  lemma DropsIdle(w: World, act: Act, t: TrackKey)
    requires Enabled(w, act) && t in w.st.tracks && t !in Apply(w.st, act).tracks
    ensures Idle(w.st.tracks[t])
  {
  }

  /** The moment within a sequence of acts at which the route goes. */
  lemma {:induction false} DropMoment(w: World, acts: seq<Act>, t: TrackKey)
    requires Legal(w, acts) && t in w.st.tracks && t !in Exec(w, acts).st.tracks
    ensures exists i: nat :: i < |acts| && DropsAt(w, acts, i, t)
  {
    var n := |acts| - 1;
    if t in Exec(w, acts[..n]).st.tracks {
      DropsIdle(Exec(w, acts[..n]), acts[n], t);
      assert acts[..n + 1] == acts;
      assert DropsAt(w, acts, n, t);
    } else {
      DropMoment(w, acts[..n], t);
      var i: nat :| i < n && DropsAt(w, acts[..n], i, t);
      assert acts[..n][..i] == acts[..i] && acts[..n][..i + 1] == acts[..i + 1];
      assert DropsAt(w, acts, i, t);
    }
  }

  /** Act i takes the route away while it is idle. */
  ghost predicate DropsAt(w: World, acts: seq<Act>, i: nat, t: TrackKey)
    requires i < |acts|
  {
    && t in Exec(w, acts[..i]).st.tracks && Idle(Exec(w, acts[..i]).st.tracks[t])
    && t !in Exec(w, acts[..i + 1]).st.tracks
  }

  /** While an event is handled a route is dropped only at a moment when no leg and no subscription of it is live. */
  lemma DroppedWhenIdle(cfg: RelayConfig, run: seq<Stimulus>, y: Stimulus, t: TrackKey)
    requires ConfigOk(cfg) && ValidRun(cfg, run + [y])
    requires t in Reach(cfg, run).st.tracks && t !in Reach(cfg, run + [y]).st.tracks
    ensures var w := Receive(Reach(cfg, run), y.event);
            var acts := Plan(cfg, w, y.event, y.choice);
            Reach(cfg, run + [y]) == Exec(w, acts) && exists i: nat :: i < |acts| && DropsAt(w, acts, i, t)
  {
    SplitStep(cfg, run, y);
    Reachable(cfg, run);
    PlanLegal(cfg, Reach(cfg, run), y);
    DropMoment(Receive(Reach(cfg, run), y.event), Plan(cfg, Receive(Reach(cfg, run), y.event), y.event, y.choice), t);
  }

  /** A live subscription keeps its track or is over. */
  lemma TrackStays(w: World, act: Act, k: RequestKey)
    requires Inv(w) && Enabled(w, act) && k in w.st.downIndex
    ensures k in Apply(w.st, act).downIndex ==> Apply(w.st, act).downIndex[k] == w.st.downIndex[k]
    ensures k !in Apply(w.st, act).downIndex ==> Dead(ApplyWorld(w, act), k)
  {
    assert SubOk(w.st, w.st.downIndex[k], k);
    assert !Unused(w, k);
    UnusedShrinks(w, act, k);
    IndexEntryStays(w, act, k);
  }

  lemma IndexEntryStays(w: World, act: Act, k: RequestKey)
    requires Enabled(w, act) && k in w.st.downIndex && k.session in w.st.sessions
    requires k.id < w.st.sessions[k.session].peerNext
    ensures k in Apply(w.st, act).downIndex ==> Apply(w.st, act).downIndex[k] == w.st.downIndex[k]
  {
  }

  lemma {:induction false} TrackStaysRun(w: World, acts: seq<Act>, k: RequestKey)
    requires Inv(w) && Legal(w, acts) && k in w.st.downIndex
    ensures k in Exec(w, acts).st.downIndex ==> Exec(w, acts).st.downIndex[k] == w.st.downIndex[k]
    ensures k !in Exec(w, acts).st.downIndex ==> Dead(Exec(w, acts), k)
  {
    if acts != [] {
      var n := |acts| - 1;
      TrackStaysRun(w, acts[..n], k);
      InvRun(w, acts[..n]);
      if k in Exec(w, acts[..n]).st.downIndex {
        TrackStays(Exec(w, acts[..n]), acts[n], k);
      } else {
        DeadKept(Exec(w, acts[..n]), acts[n], k);
      }
    } else {
      assert SubOk(w.st, w.st.downIndex[k], k);
    }
  }

  /** Whoever was live on a route that goes is told in that step, or ended it himself. */
  lemma DroppedIsTold(cfg: RelayConfig, run: seq<Stimulus>, y: Stimulus, t: TrackKey)
    requires ConfigOk(cfg) && ValidRun(cfg, run + [y])
    requires t in Reach(cfg, run).st.tracks && t !in Reach(cfg, run + [y]).st.tracks
    ensures forall k :: HasSub(Reach(cfg, run).st, t, k) && Live(Sub(Reach(cfg, run).st, t, k).state) ==>
              || |Replies(Reach(cfg, run + [y]).log, k)| > |Replies(Reach(cfg, run).log, k)|
              || y.event == SessionClosed(k.session)
              || (y.event.Control? && y.event.session == k.session && y.event.message == Unsubscribe(k.id))
    ensures forall x :: LiveLegAt(Reach(cfg, run).st, t, x) ==>
              LegMsgs(Reach(cfg, run + [y]).log, x) == [Asked(t), Withdrew]
              || EndsItsLeg(Reach(cfg, run).st, y.event, t, x)
  {
    Dropped(cfg, run, y, t);
    forall k | HasSub(Reach(cfg, run).st, t, k) && Live(Sub(Reach(cfg, run).st, t, k).state)
      ensures || |Replies(Reach(cfg, run + [y]).log, k)| > |Replies(Reach(cfg, run).log, k)|
              || y.event == SessionClosed(k.session)
              || (y.event.Control? && y.event.session == k.session && y.event.message == Unsubscribe(k.id))
    {
      NoSilentEnd(cfg, run, y, k);
    }
    forall x | LiveLegAt(Reach(cfg, run).st, t, x)
      ensures LegMsgs(Reach(cfg, run + [y]).log, x) == [Asked(t), Withdrew]
              || EndsItsLeg(Reach(cfg, run).st, y.event, t, x)
    {
      NoSilentLegEnd(cfg, run, y, t, x);
    }
  }

  /** With its route a subscription leaves the index. */
  lemma Dropped(cfg: RelayConfig, run: seq<Stimulus>, y: Stimulus, t: TrackKey)
    requires ConfigOk(cfg) && ValidRun(cfg, run + [y])
    requires t in Reach(cfg, run).st.tracks && t !in Reach(cfg, run + [y]).st.tracks
    ensures forall k :: HasSub(Reach(cfg, run).st, t, k) && Live(Sub(Reach(cfg, run).st, t, k).state) ==>
              k in Reach(cfg, run).st.downIndex && k !in Reach(cfg, run + [y]).st.downIndex
    ensures forall x :: !LiveLegAt(Reach(cfg, run + [y]).st, t, x)
  {
    SplitStep(cfg, run, y);
    Reachable(cfg, run);
    Reachable(cfg, run + [y]);
    var w := Reach(cfg, run);
    var w1 := Receive(w, y.event);
    ReceiveKeeps(w, y.event);
    PlanLegal(cfg, w, y);
    forall k | HasSub(w.st, t, k) && Live(Sub(w.st, t, k).state)
      ensures k in w.st.downIndex && k !in Reach(cfg, run + [y]).st.downIndex
    {
      assert SubOk(w.st, t, k);
      TrackStaysRun(w1, Plan(cfg, w1, y.event, y.choice), k);
    }
  }
}
