/** Concrete runs showing that the conditions of the safety theorems are needed. */
module Witnesses {
  import opened Base
  import opened Placement
  import opened FailoverModel
  import opened PlacementSafety
  import opened AttachmentSafety
  import opened Passes
  import opened PassOutcomes
  import opened EvictionDebts

  function Answers(n: nat): seq<Event> {
    if n == 0 then [] else [Answer(true)] + Answers(n - 1)
  }

  /** The state after `n` answered calls. */
  function Answered(w: World, n: nat): World
    decreases n
  {
    if n == 0 then w else Answered(Call(w, true), n - 1)
  }

  lemma {:induction false} RunAnswers(w: World, n: nat)
    ensures Run(w, Answers(n)) == Answered(w, n)
    decreases n
  {
    if n == 0 {
    } else {
      RunCons(w, Answer(true), Answers(n - 1));
      RunAnswers(Call(w, true), n - 1);
    }
  }

  /** `n` answered calls lead from `w` to `v`. */
  ghost predicate Reaches(w: World, n: nat, v: World) {
    forall u: World {:trigger Shown(u)} | Shown(u) && u == w :: Answered(u, n) == v
  }

  lemma ReachOn(w: World, v: World)
    requires Call(w, true) == v
    ensures Reaches(w, 1, v)
  {
  }

  lemma ReachOver(u: World, m: nat, v: World, n: nat, w: World)
    requires Reaches(u, m, v) && Reaches(v, n, w)
    ensures Reaches(u, m + n, w)
  {
    assert Shown(u) && Shown(v);
    AnsweredSplit(u, m, n);
  }

  lemma {:induction false} AnsweredSplit(w: World, m: nat, n: nat)
    ensures Answered(w, m + n) == Answered(Answered(w, m), n)
    decreases m
  {
    if m == 0 {
    } else {
      AnsweredSplit(Call(w, true), m - 1, n);
    }
  }

  /** Beginning with an event that leads to `v`. */
  lemma ReachRun(w: World, e: Event, v: World, n: nat, r: World)
    requires Next(w, e) == v && Reaches(v, n, r)
    ensures Run(w, [e] + Answers(n)) == r
  {
    assert Shown(v);
    RunCons(w, e, Answers(n));
    RunAnswers(v, n);
  }

  const Lost := Fresh.(stage := FailingOver)
  const OnN2 := ShareState(Some("n2"), [], Starting)
  const PodOnN2 := Pod("n2", false, Pending, false, true)

  lemma ToPodGet(w: World, st: ShareState)
    requires w.pc == LoadGet && !w.cm.Absent? && Stored(w) == st && w.svc
    ensures Reaches(w, 2, w.(pc := PodGet(st)))
  {
    var s, p := w.(pc := SvcGet(st)), w.(pc := PodGet(st));
    ReachOn(w, s);
    ReachOn(s, p);
    ReachOver(w, 1, s, 1, p);
  }

  /** The first four calls of a pass that finds no pod and no usable record. */
  lemma ToEviction(w: World)
    requires w.pc == LoadGet && w.cm == Garbled && w.svc && w.pod == None && Named(w.claim)
    ensures Reaches(w, 4, w.(cm := Holds(Lost), pc := EvictList(Missing(Lost))))
  {
    var p, s := w.(pc := PodGet(Fresh)), w.(pc := SaveMissing(Lost));
    var e := w.(cm := Holds(Lost), pc := EvictList(Missing(Lost)));
    ToPodGet(w, Fresh);
    ReachOn(p, s);
    ReachOn(s, e);
    ReachOver(w, 2, p, 1, s);
    ReachOver(w, 3, s, 1, e);
  }

  /** The record is saved and the pod created. */
  function Settled(w: World): World {
    w.(cm := Holds(OnN2), trail := w.trail + ["n2"], log := w.log + [Placed("n2")], pc := Idle, pod := Some(PodOnN2))
  }

  lemma ToSave(w: World)
    requires w.pc == PickPods(Lost, true) && w.pod == None && w.nodes == [NodeInfo("n2", true)] && w.others == []
    ensures Reaches(w, 2, w.(pc := SavePlaced(OnN2, "n2")))
  {
    var q, s := w.(pc := PickNodes(Lost, [], true)), w.(pc := SavePlaced(OnN2, "n2"));
    ReachOn(w, q);
    assert PickNode([], w.nodes, []) == Some("n2");
    ReachOn(q, s);
    ReachOver(w, 1, q, 1, s);
  }

  /** The last four calls of a pass that places its pod. */
  lemma ToPlacement(w: World)
    requires w.pc == PickPods(Lost, true) && w.pod == None && w.cm == Holds(Lost)
    requires w.nodes == [NodeInfo("n2", true)] && w.others == []
    ensures Reaches(w, 4, Settled(w))
  {
    var s, r := w.(pc := SavePlaced(OnN2, "n2")), Settled(w);
    var c := r.(pc := CreatePod("n2"), pod := None);
    ToSave(w);
    ReachOn(s, c);
    ReachOn(c, r);
    ReachOver(w, 2, s, 1, c);
    ReachOver(w, 3, c, 1, r);
  }

  // ------------------------------------- a failed read before the placement

  /** No pod, a stale attachment to "n1", and the ready node "n2". */
  const Stale := World(
    Claim("data", "default"), false, Garbled, true, None, Bound("pv"),
    [Attachment("va", "pv", "n1", false)], [NodeInfo("n2", true)], [], [], Idle, [], [])

  const AtCheck := Stale.(
    cm := Holds(Lost), vas := [Attachment("va", "pv", "n1", true)], log := [Evicted([], {})],
    pc := CheckVas(Lost, "pv"))

  lemma ToListing(k: Then)
    requires k == Missing(Lost)
    ensures var l := AtCheck.(vas := Stale.vas, pc := DetachList(k, "pv"));
      Reaches(Stale.(cm := Holds(Lost), pc := EvictList(k)), 2, l)
  {
    var w, l := Stale.(cm := Holds(Lost), pc := EvictList(k)), AtCheck.(vas := Stale.vas, pc := DetachList(k, "pv"));
    var d := l.(pc := DetachPv(k));
    ReachOn(w, d);
    ReachOn(d, l);
    ReachOver(w, 1, d, 1, l);
  }

  lemma ToCheck(k: Then)
    requires k == Missing(Lost)
    ensures Reaches(AtCheck.(vas := Stale.vas, pc := DetachList(k, "pv")), 3, AtCheck)
  {
    var v := AtCheck.(vas := Stale.vas, pc := DetachList(k, "pv"));
    assert v.vas[1..] == [];
    assert AttachmentsOf(v.vas, "pv") == ["va"];
    assert MarkAttachment(v.vas, "va") == AtCheck.vas;
    var d, c := v.(pc := Detach(k, ["va"])), AtCheck.(pc := CheckPv(Lost));
    ReachOn(v, d);
    ReachOn(d, c);
    ReachOn(c, AtCheck);
    ReachOver(v, 1, d, 1, c);
    ReachOver(v, 2, c, 1, AtCheck);
  }

  lemma StaleReaches()
    ensures Reaches(Stale.(pc := LoadGet), 9, AtCheck)
  {
    var k := Missing(Lost);
    var w, e := Stale.(pc := LoadGet), Stale.(cm := Holds(Lost), pc := EvictList(k));
    ToEviction(w);
    assert w.(cm := Holds(Lost), pc := EvictList(k)) == e;
    ToListing(k);
    ToCheck(k);
    ReachThree(w, e, AtCheck.(vas := Stale.vas, pc := DetachList(k, "pv")), AtCheck);
  }

  lemma ReachThree(w: World, e: World, l: World, c: World)
    requires Reaches(w, 4, e) && Reaches(e, 2, l) && Reaches(l, 3, c)
    ensures Reaches(w, 9, c)
  {
    ReachOver(w, 4, e, 2, l);
    ReachOver(w, 6, l, 3, c);
  }

  lemma StaleToCheck()
    ensures Run(Stale, [Begin] + Answers(9)) == AtCheck
  {
    StaleReaches();
    ReachRun(Stale, Begin, Stale.(pc := LoadGet), 9, AtCheck);
  }

  /** One failed attachment listing is enough to place the pod on "n2" while the
      backing volume is still attached to "n1". */
  lemma FailedReadBreaksSingleAttachment()
    ensures JustBound(Stale)
    ensures var r := Run(Run(Stale, [Begin] + Answers(9)), [Answer(false)] + Answers(4));
      && r.pod == Some(PodOnN2) && PvOf(r) == Some("pv")
      && |r.vas| == 1 && r.vas[0].pv == "pv" && r.vas[0].node == "n1"
  {
    StaleToCheck();
    BlindPlacement(AtCheck);
    assert Settled(AtCheck).vas == AtCheck.vas;
  }

  lemma BlindPlacement(w: World)
    requires w.pc == CheckVas(Lost, "pv") && w.pod == None && w.cm == Holds(Lost)
    requires w.nodes == [NodeInfo("n2", true)] && w.others == []
    ensures Run(w, [Answer(false)] + Answers(4)) == Settled(w)
  {
    var p := w.(pc := PickPods(Lost, true));
    ToPlacement(p);
    ReachRun(w, Answer(false), p, 4, Settled(p));
  }

  /** The two reads let the pass go on to a placement exactly when one of them
      fails, the backing claim is not bound at the first, or nothing is attached
      at the second, whatever moves in between. */
  lemma ProceedsExactlyWhen(w: World, st: ShareState, first: bool, around: seq<Event>, second: bool)
    requires w.pc == CheckPv(st) && AllAround(around)
    ensures var v := Run(Call(w, first), around);
      var r := if v.pc.CheckVas? then Call(v, second) else v;
      && (r.pc == PickPods(TakeNode(st), true) <==>
            !first || !w.backing.Bound? || !second || Unattached(v.vas, PvOf(w)))
      && (r.pc != PickPods(TakeNode(st), true) ==> r.pc == Idle)
  {
    var v := Run(Call(w, first), around);
    AroundKeeps(Call(w, first), around);
    if first && w.backing.Bound? { SecondRead(v, st, w.backing.pv, second); }
  }

  lemma SecondRead(v: World, st: ShareState, pv: string, second: bool)
    requires v.pc == CheckVas(st, pv)
    ensures NextCall(v, second) ==
      if !second || Unattached(v.vas, Some(pv)) then PickPods(TakeNode(st), true) else Idle
  {
    ListedAttachments(v.vas, pv);
  }

  // ----------------------------------------------- a failed look at the node

  /** Healthy: the pod runs on a ready node, and is not being deleted. */
  predicate Healthy(w: World) {
    && w.pod.Some? && w.pod.value.phase.Running? && w.pod.value.bound && !w.pod.value.deleting
    && NodeReady(w.nodes, w.pod.value.target)
  }

  lemma ToNode(w: World, st: ShareState)
    requires w.pc == LoadGet && w.cm == Holds(st) && w.svc && Healthy(w)
    ensures Reaches(w, 3, w.(pc := NodeGet(st, w.pod.value.target)))
  {
    var p, n := w.(pc := PodGet(st)), w.(pc := NodeGet(st, w.pod.value.target));
    ToPodGet(w, st);
    ReachOn(p, n);
    ReachOver(w, 2, p, 1, n);
  }

  /** A failover with nothing attached and nobody to evict. */
  lemma ToMark(w: World, st: ShareState) returns (r: World)
    requires w.pc == StartFailover(st) && !w.cm.Absent? && w.pod.Some? && !w.backing.Bound? && !Named(w.claim)
    ensures Reaches(w, 3, r)
    ensures r.pc == Idle && r.nodes == w.nodes && r.pod == Some(w.pod.value.(deleting := true))
  {
    var t := TakeNode(st).(stage := FailingOver);
    var d := w.(pc := DetachPv(Failing), cm := Holds(t));
    var q := d.(pc := PodDelete);
    r := d.(pc := Idle, pod := Some(w.pod.value.(deleting := true)));
    ReachOn(w, d);
    ReachOn(d, q);
    ReachOn(q, r);
    ReachOver(w, 1, d, 1, q);
    ReachOver(w, 2, q, 1, r);
  }

  /** One failed look at a ready node is enough to fail over a healthy pod. */
  lemma HealthyPodFailedOver(w: World, st: ShareState)
    requires w.pc == Idle && !w.terminating && w.cm == Holds(st) && w.svc && Healthy(w)
    requires !w.backing.Bound? && !Named(w.claim)
    ensures var v := Run(w, [Begin] + Answers(3));
      var r := Run(v, [Answer(false)] + Answers(3));
      && Healthy(v) && v.pod == w.pod && r.nodes == w.nodes
      && r.pc == Idle && r.pod == Some(w.pod.value.(deleting := true))
  {
    var b := w.(pc := LoadGet);
    var v := w.(pc := NodeGet(st, w.pod.value.target));
    ToNode(b, st);
    ReachRun(w, Begin, b, 3, v);
    FailedLook(v, st, w.pod.value.target);
  }

  lemma FailedLook(v: World, st: ShareState, n: Node)
    requires v.pc == NodeGet(st, n) && v.pod.Some? && !v.cm.Absent? && !v.backing.Bound? && !Named(v.claim)
    ensures var r := Run(v, [Answer(false)] + Answers(3));
      r.pc == Idle && r.nodes == v.nodes && r.pod == Some(v.pod.value.(deleting := true))
  {
    var f := v.(pc := StartFailover(st));
    var r := ToMark(f, st);
    LookFails(v, st, n);
    ReachRun(v, Answer(false), f, 3, r);
  }

  lemma LookFails(v: World, st: ShareState, n: Node)
    requires v.pc == NodeGet(st, n)
    ensures Next(v, Answer(false)) == v.(pc := StartFailover(st))
  {
  }

  // ------------------------------------------- a crash while owing an eviction

  /** No pod, nothing attached, and one workload that mounts the claim. */
  const Serviced := Stale.(vas := [], backing := Unbound, workloads := [Workload("app", {"data"}, false)])

  const AfterCrash := Serviced.(cm := Holds(Lost))

  lemma ToPickAgain(w: World)
    requires w.pc == LoadGet && w.cm == Holds(Lost) && w.svc && w.pod == None && w.backing == Unbound
    ensures Reaches(w, 5, w.(pc := PickPods(Lost, true)))
  {
    var p, d := w.(pc := PodGet(Lost)), w.(pc := DetachPv(Missing(Lost)));
    var c, q := w.(pc := CheckPv(Lost)), w.(pc := PickPods(Lost, true));
    ToPodGet(w, Lost);
    ReachOn(p, d);
    ReachOn(d, c);
    ReachOn(c, q);
    ReachOver(w, 2, p, 1, d);
    ReachOver(w, 3, d, 1, c);
    ReachOver(w, 4, c, 1, q);
  }

  /** A crash between saving "failing_over" and evicting lets the next pass
      place a pod although no workload was ever evicted. */
  lemma CrashSkipsEviction()
    ensures JustBound(Serviced)
    ensures var r := Run(Next(Run(Serviced, [Begin] + Answers(4)), Crash), [Begin] + Answers(9));
      r.log == [Placed("n2")] && r.workloads == [Workload("app", {"data"}, false)]
  {
    UntilCrash();
    PassAfterCrash();
  }

  lemma UntilCrash()
    ensures Next(Run(Serviced, [Begin] + Answers(4)), Crash) == AfterCrash
  {
    var w := Serviced.(pc := LoadGet);
    ToEviction(w);
    ReachRun(Serviced, Begin, w, 4, w.(cm := Holds(Lost), pc := EvictList(Missing(Lost))));
  }

  lemma PassAfterCrash()
    ensures Run(AfterCrash, [Begin] + Answers(9)) == Settled(AfterCrash)
  {
    var v := AfterCrash.(pc := LoadGet);
    ToPlacementAgain(v);
    ReachRun(AfterCrash, Begin, v, 9, Settled(v));
  }

  lemma ToPlacementAgain(v: World)
    requires v.pc == LoadGet && v.cm == Holds(Lost) && v.svc && v.pod == None && v.backing == Unbound
    requires v.nodes == [NodeInfo("n2", true)] && v.others == []
    ensures Reaches(v, 9, Settled(v))
  {
    var p := v.(pc := PickPods(Lost, true));
    ToPickAgain(v);
    ToPlacement(p);
    ReachOver(v, 5, p, 4, Settled(p));
  }

  // -------------------------------------------- the CSI driver gets in between

  /** A pass that finds the pod running on a ready node keeps the record sound if
      and only if that node is new or the latest failure. A pod the driver
      created on an earlier host breaks it. */
  lemma DriverElsewhereBreaksRecord(w: World)
    requires w.pc == Idle && !w.terminating && Sound(Stored(w)) && w.pod.Some? && w.pod.value.bound
    requires w.pod.value.phase.Running? && NodeReady(w.nodes, w.pod.value.target)
    ensures var n, prior := w.pod.value.target, Stored(w).prior;
      Sound(Stored(Pass(w))) <==> (n in prior ==> n == Last(prior))
  {
    PassRecords(w);
  }

  // -------------------------------------------- when the history is forgotten

  /** The first attempt of a pick, whatever moves between its two listings,
      gives up the history exactly when a listing fails or every node the two
      listings leave eligible has been tried: a failed call is enough. */
  lemma ForgetsExactlyWhen(w: World, st: ShareState, listed: bool, around: seq<Event>, answered: bool)
    requires w.pc == PickPods(st, true) && |st.prior| > 1 && AllAround(around)
    ensures var v := Run(Call(w, listed), around);
      var r := if listed then Call(v, answered) else v;
      && (r.pc.PickPods? <==>
            !listed || !answered || forall n | Eligible(ShareManagerPods(w), v.nodes, n) :: n in st.prior)
      && (r.pc.PickPods? ==> r.pc == PickPods(st.(prior := [Last(st.prior)]), false))
  {
    var v := Run(Call(w, listed), around);
    AroundKeeps(Call(w, listed), around);
    if listed { SecondListing(v, st, ShareManagerPods(w), answered); }
  }

  lemma SecondListing(v: World, st: ShareState, pods: PodListing, answered: bool)
    requires v.pc == PickNodes(st, pods, true) && |st.prior| > 1
    ensures var pc := NextCall(v, answered);
      && (pc.PickPods? <==> !answered || forall n | Eligible(pods, v.nodes, n) :: n in st.prior)
      && (pc.PickPods? ==> pc == PickPods(st.(prior := [Last(st.prior)]), false))
  {
    if answered {
      var n := PickNode(pods, v.nodes, st.prior);
      assert n.Some? ==> Eligible(pods, v.nodes, n.value) && n.value !in st.prior;
    }
  }
}
