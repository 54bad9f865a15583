/** In every run of the controller whose picks see the same set of eligible
    nodes, the hosts rotate over that set. */
module RotationRuns {
  import opened Base
  import opened Placement
  import opened Rotation
  import opened FailoverModel
  import opened PlacementSafety

  /** Both listings of a pick are answered, and together they show exactly `e`. */
  ghost predicate SteadyPick(e: set<Node>, w: World, ev: Event) {
    && DriverBehaves(w, ev) && (ev.DriverCreates? ==> ev.n in e)
    && (w.pc.PickPods? || w.pc.PickNodes? ==> ev != Answer(false))
    && (w.pc.PickNodes? && ev.Answer? ==> forall n :: Eligible(w.pc.pods, w.nodes, n) <==> n in e)
  }

  ghost predicate Exhausted(h: seq<Node>, e: set<Node>) {
    h != [] && forall x | x in e :: x in h
  }

  /** What the pass in progress knows about the rotation. */
  ghost predicate PickInRotation(pc: Pc, h: seq<Node>, pod: Option<Pod>, e: set<Node>) {
    && (h == [] && pod.Some? ==> pod.value.target in e)
    && (h == [] && pc.NodeGet? ==> pc.n in e)
    && (h == [] && pc.SaveRunning? && pc.st.node.Some? ==> pc.st.node.value in e)
    && (pc.PickPods? && !pc.first ==> Exhausted(h, e))
    && (pc.PickNodes? && !pc.first ==> Exhausted(h, e))
    && (pc.SavePlaced? ==> pc.n in e && (pc.st.prior == h || (Exhausted(h, e) && pc.st.prior == Reset(h))))
  }

  ghost predicate RotInv(w: World, e: set<Node>) {
    && Rotates(w.trail, History(Stored(w)), e)
    && PickInRotation(w.pc, History(Stored(w)), w.pod, e)
  }

  // ------------------------------------------------- calls that write nothing

  lemma PickRotates(w: World, ok: bool, e: set<Node>, h: seq<Node>)
    requires PickInRotation(w.pc, h, w.pod, e) && (w.pc.PickPods? || w.pc.PickNodes?)
    requires SteadyPick(e, w, Answer(ok)) && PickOk(w.pc.st, w.pc.first, Stored(w), w.pod) && h == History(Stored(w))
    ensures PickInRotation(NextCall(w, ok), h, w.pod, e)
  {
  }

  lemma OtherRotates(w: World, ok: bool, e: set<Node>, h: seq<Node>)
    requires PickInRotation(w.pc, h, w.pod, e) && !w.pc.PickPods? && !w.pc.PickNodes? && Saves(w.pc).None?
    requires w.pod.Some? && w.pod.value.phase.Running? ==> w.pod.value.bound
    ensures PickInRotation(NextCall(w, ok), h, w.pod, e)
  {
  }

  lemma QuietRotates(w: World, ok: bool, e: set<Node>)
    requires Inv(w) && RotInv(w, e) && !Writes(w.pc) && SteadyPick(e, w, Answer(ok))
    ensures RotInv(Call(w, ok), e)
  {
    QuietCall(w, ok);
    var h := History(Stored(w));
    if w.pc.PickPods? || w.pc.PickNodes? { PickRotates(w, ok, e, h); } else { OtherRotates(w, ok, e, h); }
  }

  // ------------------------------------------------------- calls that do write

  /** Recording where the pod runs starts the rotation or changes nothing. */
  lemma RecordRotates(s: ShareState, t: ShareState, pod: Option<Pod>, trail: seq<Node>, e: set<Node>)
    requires RecordOk(s, pod, trail) && PassOk(SaveRunning(t), s, pod)
    requires Rotates(trail, History(s), e) && (History(s) == [] ==> t.node.value in e)
    ensures Rotates(if trail == [] then [t.node.value] else trail, History(t), e)
  {
    SoundHistory(s);
    if trail == [] {
      Extend([], [], e, t.node.value);
      assert [] + [t.node.value] == [t.node.value] == History(t);
    } else {
      RecordHost(s, t, pod, trail);
      assert History(t) == History(s);
    }
  }

  /** Placing on `n` extends the rotation, with the history as it was or cut. */
  lemma PlacementRotates(h: seq<Node>, prior: seq<Node>, n: Node, trail: seq<Node>, e: set<Node>)
    requires Rotates(trail, h, e) && n in e && n !in prior
    requires prior == h || (Exhausted(h, e) && prior == Reset(h))
    ensures Rotates(trail + [n], prior + [n], e)
  {
    if prior == h {
      Extend(trail, h, e, n);
    } else {
      ExtendAfterReset(trail, h, e, n);
      assert prior + [n] == [Last(h), n];
    }
  }

  /** The trail and the history after a save that succeeds. */
  lemma SavedRotates(w: World, e: set<Node>)
    requires Inv(w) && RotInv(w, e) && Saves(w.pc).Some? && !w.cm.Absent?
    ensures Rotates(CallTrail(w, true), History(Saves(w.pc).value), e)
  {
    var s := Stored(w);
    match w.pc
    case SaveRunning(st) => RecordRotates(s, st, w.pod, w.trail, e);
    case SaveFailing(st) => SoundHistory(s);
    case SaveMissing(st) => assert History(st) == History(s);
    case SavePlaced(st, n) =>
      PlacementRotates(History(s), st.prior, n, w.trail, e);
      assert History(st) == st.prior + [n];
  }

  /** Saving leads to no pick. */
  lemma SavingEnds(w: World, ok: bool)
    requires Saves(w.pc).Some?
    ensures var pc := NextCall(w, ok);
      !pc.NodeGet? && !pc.SaveRunning? && !pc.PickPods? && !pc.PickNodes? && !pc.SavePlaced?
  {
  }

  /** A saved record has an empty history only if the one before had. */
  lemma SavedHistory(w: World)
    requires PassOk(w.pc, Stored(w), w.pod) && Saves(w.pc).Some?
    ensures History(Saves(w.pc).value) == [] ==> History(Stored(w)) == []
  {
  }

  lemma SaveEndsPick(w: World, ok: bool, e: set<Node>)
    requires PassOk(w.pc, Stored(w), w.pod) && PickInRotation(w.pc, History(Stored(w)), w.pod, e) && Saves(w.pc).Some?
    ensures PickInRotation(NextCall(w, ok), History(Stored(Call(w, ok))), w.pod, e)
  {
    SavingEnds(w, ok);
    SavedHistory(w);
  }

  lemma SaveRotates(w: World, ok: bool, e: set<Node>)
    requires Inv(w) && RotInv(w, e) && Saves(w.pc).Some?
    ensures RotInv(Call(w, ok), e)
  {
    SaveEndsPick(w, ok, e);
    if CanSave(w, ok) { SavedRotates(w, e); }
  }

  lemma PodCallRotates(w: World, ok: bool, e: set<Node>)
    requires Inv(w) && RotInv(w, e) && (w.pc.PodDelete? || w.pc.CreatePod?)
    ensures RotInv(Call(w, ok), e)
  {
    SoundHistory(Stored(w));
    PodCallPick(w, ok, e, History(Stored(w)));
    assert Call(w, ok).cm == w.cm && Call(w, ok).trail == w.trail;
  }

  lemma PodCallPick(w: World, ok: bool, e: set<Node>, h: seq<Node>)
    requires PickInRotation(w.pc, h, w.pod, e) && (w.pc.PodDelete? || (w.pc.CreatePod? && h != []))
    ensures PickInRotation(NextCall(w, ok), h, CallPod(w, ok), e)
  {
  }

  lemma CallRotates(w: World, ok: bool, e: set<Node>)
    requires Inv(w) && RotInv(w, e) && SteadyPick(e, w, Answer(ok))
    ensures RotInv(Call(w, ok), e)
  {
    if Saves(w.pc).Some? { SaveRotates(w, ok, e); }
    else if Writes(w.pc) { PodCallRotates(w, ok, e); }
    else { QuietRotates(w, ok, e); }
  }

  lemma OutsideRotates(w: World, ev: Event, e: set<Node>)
    requires PickInRotation(w.pc, History(Stored(w)), w.pod, e)
    requires SteadyPick(e, w, ev) && !ev.Answer?
    ensures var next := Next(w, ev);
      next.cm == w.cm && next.trail == w.trail && PickInRotation(next.pc, History(Stored(w)), next.pod, e)
  {
    if MovesPod(ev) && !ev.DriverCreates? { PodEvent(w, ev); }
    else if !MovesPod(ev) { OtherEvent(w, ev); }
  }

  lemma NextRotates(w: World, ev: Event, e: set<Node>)
    requires Inv(w) && RotInv(w, e) && SteadyPick(e, w, ev)
    ensures RotInv(Next(w, ev), e)
  {
    if ev.Answer? { CallRotates(w, ev.ok, e); } else { OutsideRotates(w, ev, e); }
  }

  lemma {:induction false} RunRotates(w: World, es: seq<Event>, e: set<Node>)
    requires Inv(w) && RotInv(w, e) && Throughout(w, es, (v, ev) => SteadyPick(e, v, ev))
    ensures Inv(Run(w, es)) && RotInv(Run(w, es), e)
  {
    if es == [] {
    } else {
      var front := es[..|es| - 1];
      ThroughoutPrefix(w, es, (v, ev) => SteadyPick(e, v, ev));
      RunRotates(w, front, e);
      NextKeepsInv(Run(w, front), Last(es));
      NextRotates(Run(w, front), Last(es), e);
    }
  }

  /** Bounded rotation in every run, with crashes, failed calls and lagging
      deletions: all hosts on record are eligible nodes, and all differ until
      each of the `n` nodes has been used; the history is the part of the trail
      since the current round began, without repetition; every complete round
      visits each node exactly once, consecutive rounds sharing the kept one; and
      any `2n - 2` consecutive hosts include every node. */
  lemma BoundedRotation(w: World, es: seq<Event>, e: set<Node>)
    requires JustBound(w) && |e| >= 2 && (w.pod.Some? ==> w.pod.value.target in e)
    requires Throughout(w, es, (v, ev) => SteadyPick(e, v, ev))
    ensures var trail, h := Run(w, es).trail, History(Stored(Run(w, es)));
      && (forall n | n in trail :: n in e)
      && (|trail| <= |e| ==> Distinct(trail))
      && (if trail == [] then h == [] else exists k: nat :: RoundSoFar(trail, h, e, k))
      && AllRounds(trail, e) && AllWindows(trail, e)
  {
    Start<Node>(e);
    RunRotates(w, es, e);
    var trail, h := Run(w, es).trail, History(Stored(Run(w, es)));
    RotatesMeans(trail, h, e);
    if |trail| <= |e| { FirstRound(trail, h, e); }
    CurrentRound(trail, h, e);
  }
}
