/** What every reachable state of the failover controller keeps about the
    recorded node, the history of failed nodes and the running pod. */
module PlacementSafety {
  import opened Base
  import opened Placement
  import opened FailoverModel

  /** No node is remembered twice, and the recorded node is either new or the latest entry. */
  ghost predicate Sound(st: ShareState) {
    && Distinct(st.prior)
    && (st.node.Some? && st.node.value in st.prior ==> st.node.value == Last(st.prior))
  }

  /** `n` is the host on record: stored as the node, or stored as the latest failure. */
  ghost predicate OnRecord(st: ShareState, n: Node) {
    st.node == Some(n) || (st.node == None && st.prior != [] && Last(st.prior) == n)
  }

  ghost predicate PodOk(s: ShareState, pod: Option<Pod>) {
    pod.Some? ==>
      && (pod.value.phase == Running ==> pod.value.bound)
      && (History(s) == [] ==> !pod.value.ours)
      && (History(s) != [] ==> Last(History(s)) == pod.value.target)
  }

  /** The trail of hosts ends where the history ends, and no host follows itself. */
  ghost predicate TrailOk(s: ShareState, trail: seq<Node>) {
    var h := History(s);
    && NoStutter(trail)
    && (h == [] <==> trail == [])
    && (h != [] ==> Last(h) == Last(trail))
  }

  ghost predicate RecordOk(s: ShareState, pod: Option<Pod>, trail: seq<Node>) {
    Sound(s) && PodOk(s, pod) && TrailOk(s, trail)
  }

  ghost predicate PodIs(pod: Option<Pod>, n: Node) {
    pod.Some? ==> pod.value.target == n
  }

  /** The pass still holds what is stored, and still sees no pod. */
  ghost predicate HoldsMissing(k: Then, s: ShareState, pod: Option<Pod>) {
    k.Missing? ==> k.st == s && pod == None && s.stage == FailingOver
  }

  /** What the pass in progress knows at each of its calls. */
  ghost predicate PassOk(pc: Pc, s: ShareState, pod: Option<Pod>) {
    match pc
    case LoadCreate => s == Fresh
    case SvcGet(st) => st == s
    case SvcCreate(st) => st == s
    case PodGet(st) => st == s
    case NodeGet(st, n) => st == s && PodIs(pod, n) && (History(s) != [] ==> Last(History(s)) == n)
    case SaveRunning(st) =>
      && st.prior == s.prior && st.stage == Serving && st.node.Some? && PodIs(pod, st.node.value)
      && (History(s) != [] ==> Last(History(s)) == st.node.value)
    case SaveFailing(st) => st == TakeNode(s).(stage := FailingOver)
    case SaveMissing(st) => st == s.(stage := FailingOver) && pod == None
    case EvictList(k) => HoldsMissing(k, s, pod)
    case Evict(k, _, _, _) => HoldsMissing(k, s, pod)
    case DetachPv(k) => HoldsMissing(k, s, pod)
    case DetachList(k, _) => HoldsMissing(k, s, pod)
    case Detach(k, _) => HoldsMissing(k, s, pod)
    case CheckPv(st) => HoldsMissing(Missing(st), s, pod)
    case CheckVas(st, _) => HoldsMissing(Missing(st), s, pod)
    case PickPods(st, first) => PickOk(st, first, s, pod)
    case PickNodes(st, _, first) => PickOk(st, first, s, pod)
    case SavePlaced(st, n) =>
      && pod == None && st.stage == Starting && st.node == Some(n) && n !in st.prior
      && (st.prior == History(s) || (History(s) != [] && st.prior == Reset(History(s))))
    case CreatePod(n) => PodIs(pod, n) && s.node == Some(n)
    case _ => true
  }

  ghost predicate PickOk(st: ShareState, first: bool, s: ShareState, pod: Option<Pod>) {
    && pod == None && st.node == None
    && (if first then st.prior == History(s) else History(s) != [] && st.prior == Reset(History(s)))
  }

  ghost predicate Inv(w: World) {
    RecordOk(Stored(w), w.pod, w.trail) && PassOk(w.pc, Stored(w), w.pod)
  }

  /** The pass in progress has found the pod missing and relies on that. */
  predicate FoundMissing(pc: Pc) {
    match pc
    case SaveMissing(_) => true
    case EvictList(k) => k.Missing?
    case Evict(k, _, _, _) => k.Missing?
    case DetachPv(k) => k.Missing?
    case DetachList(k, _) => k.Missing?
    case Detach(k, _) => k.Missing?
    case CheckPv(_) => true
    case CheckVas(_, _) => true
    case PickPods(_, _) => true
    case PickNodes(_, _, _) => true
    case SavePlaced(_, _) => true
    case _ => false
  }

  /** Where the CSI driver may put a pod next to the controller: never while a
      pass acts on its absence, and only on the host on record, if there is one. */
  ghost predicate DriverFits(w: World, n: Node) {
    w.pod == None ==>
      && !FoundMissing(w.pc)
      && (History(Stored(w)) != [] ==> Last(History(Stored(w))) == n)
      && (w.pc.NodeGet? || w.pc.CreatePod? ==> w.pc.n == n)
      && (w.pc.SaveRunning? ==> w.pc.st.node == Some(n))
  }

  /** The CSI driver does not tear the volume down and creates its pod only where it fits. */
  ghost predicate DriverBehaves(w: World, e: Event) {
    !e.DriverDeletes? && (e.DriverCreates? ==> DriverFits(w, e.n))
  }

  lemma SoundHistory(st: ShareState)
    requires Sound(st)
    ensures Distinct(History(st))
    ensures Sound(TakeNode(st)) && History(TakeNode(st)) == History(st)
    ensures st.node.Some? ==> History(st) != [] && Last(History(st)) == st.node.value
    ensures st.node.None? ==> History(st) == st.prior
  {
  }

  // ----------------------------------------------------- where the pass goes next

  predicate Writes(pc: Pc) {
    Saves(pc).Some? || pc.PodDelete? || pc.CreatePod?
  }

  predicate Picks(pc: Pc) {
    pc.CheckPv? || pc.CheckVas? || pc.PickPods? || pc.PickNodes?
  }

  /** Calls that write neither the record nor the pod. */
  lemma QuietCall(w: World, ok: bool)
    requires !Writes(w.pc) && (w.pc.LoadCreate? ==> Stored(w) == Fresh)
    ensures Stored(Call(w, ok)) == Stored(w) && Call(w, ok).pod == w.pod && Call(w, ok).trail == w.trail
  {
  }

  lemma SweepKeepsPass(w: World, ok: bool)
    requires PassOk(w.pc, Stored(w), w.pod) && Sweeps(w.pc)
    ensures PassOk(NextCall(w, ok), Stored(w), w.pod)
  {
  }

  lemma PickKeepsPass(w: World, ok: bool)
    requires PassOk(w.pc, Stored(w), w.pod) && Picks(w.pc)
    ensures PassOk(NextCall(w, ok), Stored(w), w.pod)
  {
  }

  lemma LookKeepsPass(w: World, ok: bool)
    requires PassOk(w.pc, Stored(w), w.pod) && PodOk(Stored(w), w.pod)
    requires !Writes(w.pc) && !Sweeps(w.pc) && !Picks(w.pc)
    ensures PassOk(NextCall(w, ok), Stored(w), w.pod)
  {
  }

  // ------------------------------------------------------- calls that do write

  /** Recording where the pod runs: the host on record, or the first one ever recorded. */
  lemma RecordHost(s: ShareState, t: ShareState, pod: Option<Pod>, trail: seq<Node>)
    requires RecordOk(s, pod, trail) && PassOk(SaveRunning(t), s, pod)
    ensures RecordOk(t, pod, if trail == [] then [t.node.value] else trail)
  {
    SoundHistory(s);
    if History(s) != [] { assert History(t) == History(s); }
  }

  /** Saving a record with the same history keeps everything known about pod and trail. */
  lemma SameHistory(s: ShareState, t: ShareState, pod: Option<Pod>, trail: seq<Node>)
    requires RecordOk(s, pod, trail) && Sound(t) && History(t) == History(s)
    ensures RecordOk(t, pod, trail)
  {
  }

  lemma RecordPlacement(s: ShareState, t: ShareState, n: Node, trail: seq<Node>)
    requires RecordOk(s, None, trail) && PassOk(SavePlaced(t, n), s, None)
    ensures RecordOk(t, None, trail + [n])
  {
    SoundHistory(s);
    assert History(t) == t.prior + [n];
    assert trail != [] ==> Last(trail) == Last(t.prior);
  }

  /** The record, the pod and the trail after a save that succeeds. */
  lemma SaveKeepsRecord(w: World)
    requires Inv(w) && Saves(w.pc).Some? && !w.cm.Absent?
    ensures RecordOk(Saves(w.pc).value, w.pod, CallTrail(w, true))
  {
    var s := Stored(w);
    match w.pc
    case SaveRunning(st) => RecordHost(s, st, w.pod, w.trail);
    case SaveFailing(st) =>
      SoundHistory(s);
      SameHistory(s, st, w.pod, w.trail);
    case SaveMissing(st) => SameHistory(s, st, w.pod, w.trail);
    case SavePlaced(st, n) => RecordPlacement(s, st, n, w.trail);
  }

  lemma SaveKeepsInv(w: World, ok: bool)
    requires Inv(w) && Saves(w.pc).Some?
    ensures Inv(Call(w, ok))
  {
    if CanSave(w, ok) { SaveKeepsRecord(w); }
  }

  lemma PodCallKeepsInv(w: World, ok: bool)
    requires Inv(w) && (w.pc.PodDelete? || w.pc.CreatePod?)
    ensures Inv(Call(w, ok))
  {
  }

  /** Every API call, answered or failed, keeps the invariant. */
  lemma CallKeepsInv(w: World, ok: bool)
    requires Inv(w)
    ensures Inv(Call(w, ok))
  {
    if Saves(w.pc).Some? { SaveKeepsInv(w, ok); }
    else if Writes(w.pc) { PodCallKeepsInv(w, ok); }
    else {
      QuietCall(w, ok);
      if Sweeps(w.pc) { SweepKeepsPass(w, ok); }
      else if Picks(w.pc) { PickKeepsPass(w, ok); }
      else { LookKeepsPass(w, ok); }
    }
  }

  // ------------------------------------------------------------ all events

  predicate MovesPod(e: Event) {
    e.PodBinds? || e.PodPhase? || e.PodDeletes? || e.PodVanishes? || e.DriverCreates?
  }

  /** Most of what happens around the controller concerns neither record nor pod. */
  lemma OtherEvent(w: World, e: Event)
    requires !e.Answer? && !e.DriverDeletes? && !MovesPod(e)
    ensures var next := Next(w, e);
      && next.cm == w.cm && next.pod == w.pod && next.trail == w.trail
      && (next.pc == w.pc || next.pc == Idle || next.pc == LoadGet)
  {
  }

  /** The same pod in another phase, or none at all. */
  ghost predicate PodLingers(pod: Option<Pod>, next: Option<Pod>) {
    next.Some? ==>
      && pod.Some? && next.value.target == pod.value.target && next.value.ours == pod.value.ours
      && ((pod.value.phase == Running ==> pod.value.bound) && next.value.phase == Running ==> next.value.bound)
  }

  lemma PodEvent(w: World, e: Event)
    requires MovesPod(e) && !e.DriverCreates?
    ensures Next(w, e) == w.(pod := Next(w, e).pod) && PodLingers(w.pod, Next(w, e).pod)
  {
  }

  lemma LingeringPod(pc: Pc, s: ShareState, pod: Option<Pod>, next: Option<Pod>)
    requires PodOk(s, pod) && PassOk(pc, s, pod) && PodLingers(pod, next)
    ensures PodOk(s, next) && PassOk(pc, s, next)
  {
  }

  /** The condition on the CSI driver is exact: a pod created anywhere else
      breaks what the pass or the record relies on. */
  lemma DriverFitsExactly(w: World, n: Node)
    requires Inv(w)
    ensures Inv(Next(w, DriverCreates(n))) <==> DriverFits(w, n)
  {
  }

  lemma NextKeepsInv(w: World, e: Event)
    requires Inv(w) && DriverBehaves(w, e)
    ensures Inv(Next(w, e))
  {
    if e.Answer? { CallKeepsInv(w, e.ok); }
    else if e.DriverCreates? { DriverFitsExactly(w, e.n); }
    else if MovesPod(e) {
      PodEvent(w, e);
      LingeringPod(w.pc, Stored(w), w.pod, Next(w, e).pod);
    }
    else { OtherEvent(w, e); }
  }

  // ------------------------------------------------------------ whole runs

  /** A claim the provisioner has just bound: the CSI driver may have left a
      pod, and the controller has recorded nothing yet. */
  ghost predicate JustBound(w: World) {
    && w.pc == Idle && !w.cm.Holds? && w.trail == [] && w.log == []
    && (w.pod.Some? ==> !w.pod.value.ours && (w.pod.value.phase == Running ==> w.pod.value.bound))
  }

  lemma {:induction false} RunKeepsInv(w: World, es: seq<Event>)
    requires Inv(w) && Throughout(w, es, DriverBehaves)
    ensures Inv(Run(w, es))
  {
    if es == [] {
    } else {
      var front := es[..|es| - 1];
      ThroughoutPrefix(w, es, DriverBehaves);
      RunKeepsInv(w, front);
      NextKeepsInv(Run(w, front), Last(es));
    }
  }

  /** What a pass reports means something: it always asks to be run again, within a
      minute; a failed call that ends it is an error, unless it was a deletion of
      the pod or a listing of attachments that can be retried sooner; and the
      longest wait is asked for only with a serving host on record that the pod,
      if it is still there, is meant for. */
  lemma VerdictMeans(w: World, ok: bool)
    requires Inv(w) && !w.pc.Idle? && NextCall(w, ok) == Idle
    ensures var r, s := Verdict(w, ok), Stored(Call(w, ok));
      && (r.Error? || (r.Requeue? && 0 < r.seconds <= 60))
      && (!ok ==> r.Error? || w.pc.PodDelete? || (w.pc.DetachList? && w.pc.k.Missing?))
      && (r == Requeue(60) ==> s.stage == Serving && s.node.Some? && PodIs(w.pod, s.node.value))
      && (r == Requeue(5) ==> w.pc.DetachList? || (w.pc.CreatePod? && Call(w, ok).pod.Some?))
  {
  }

  /** In every reachable state, whatever calls fail and wherever the controller
      crashes: the history has no duplicates, the recorded node is new or its
      latest entry, a pod the controller created is on the host on record, and
      no host was ever replaced by itself. */
  lemma PlacementSafe(w: World, es: seq<Event>)
    requires JustBound(w) && Throughout(w, es, DriverBehaves)
    ensures var r := Run(w, es);
      var st := Stored(r);
      && Distinct(st.prior) && (st.node.Some? && st.node.value in st.prior ==> st.node.value == Last(st.prior))
      && (r.pod.Some? && r.pod.value.ours ==>
            OnRecord(Stored(r), r.pod.value.target) && r.trail != [] && Last(r.trail) == r.pod.value.target)
      && NoStutter(r.trail)
  {
    RunKeepsInv(w, es);
    SoundHistory(Stored(Run(w, es)));
  }
}
