/** Repeated passes heal the volume: from any state with an unhealthy or missing
    pod they reach a share-manager recorded as running on a ready node, as long
    as the cluster carries out deletions and pod starts with bounded delay. The
    cluster moves during the passes as well as between them. */
module Convergence {
  import opened Base
  import opened Placement
  import opened FailoverModel
  import opened PlacementSafety
  import opened AttachmentSafety

  ghost predicate SameReadiness(a: seq<NodeInfo>, b: seq<NodeInfo>) {
    forall n :: NodeReady(a, n) <==> NodeReady(b, n)
  }

  /** What the cluster may do at any time while readiness is stable: carry out
      deletions and pod starts, attach and detach, move workloads and the
      share-managers of other volumes, but leave `x` free. */
  ghost predicate Settling(x: Node, w: World, e: Event) {
    match e
    case PodBinds => true
    case PodPhase(p) => w.pod.Some? ==> w.pod.value.deleting || (w.pod.value.phase.Pending? && p.Running?)
    case PodVanishes => w.pod.Some? ==> w.pod.value.deleting
    case Attaches(_) => true
    case AttachmentDeletes(_) => true
    case Detaches(_) => true
    case ClaimBinds(_) => true
    case WorkloadsChange(_) => true
    case OthersChange(others) => Some(x) !in others
    case NodesChange(nodes) => SameReadiness(w.nodes, nodes)
    case _ => false
  }

  /** During a pass all its calls are answered. */
  ghost predicate InPass(x: Node, w: World, e: Event) {
    e == Answer(true) || Settling(x, w, e)
  }

  // ------------------------------------------------------------- the measure

  ghost predicate Marked(vas: seq<Attachment>, pv: Option<string>) {
    forall a | a in vas && Some(a.pv) == pv :: a.deleting
  }

  /** The goal: the pod runs on a ready node, stays, and is on record. */
  ghost predicate Recorded(w: World) {
    && w.pod.Some? && !w.pod.value.deleting && w.pod.value.phase.Running? && w.pod.value.bound
    && NodeReady(w.nodes, w.pod.value.target)
    && Stored(w).node == Some(w.pod.value.target) && Stored(w).stage == Serving
  }

  ghost function Detaching(w: World): nat {
    if Marked(w.vas, PvOf(w)) then 3 else 4
  }

  /** How far a volume is from the goal when no pass is in progress. */
  ghost function Stations(w: World): nat {
    if w.pod == None then Detaching(w)
    else if w.pod.value.deleting then 5
    else if w.pod.value.phase.Pending? then 2
    else if Unhealthy(w) then 6
    else if Recorded(w) then 0 else 1
  }

  /** How far it will be at the end of a pass that has yet to see the pod, or has
      seen that it is missing. */
  ghost function Ahead(w: World): nat {
    if w.pod == None then (if Unattached(w.vas, PvOf(w)) then 2 else 3)
    else if w.pod.value.deleting || Unhealthy(w) then 5
    else if w.pod.value.phase.Pending? then 2
    else 0
  }

  /** The same for a pass that has seen the pod run. */
  ghost function SeenRunning(w: World): nat {
    if w.pod == None then Detaching(w)
    else if w.pod.value.deleting || !NodeReady(w.nodes, w.pod.value.target) then 5
    else 0
  }

  /** How far the volume will be when the pass in progress has ended. */
  ghost function Expected(w: World): nat {
    if w.pc.Idle? then Stations(w)
    else if Looking(w.pc) || FoundMissing(w.pc) || w.pc.CreatePod? then Ahead(w)
    else if w.pc.NodeGet? || w.pc.SaveRunning? then SeenRunning(w)
    else if w.pod == None then Detaching(w)
    else 5
  }

  // -------------------------------------------------- what keeps the pass going

  ghost predicate CanStart(w: World) {
    w.pod.Some? && !w.pod.value.deleting && w.pod.value.phase.Pending? ==> NodeReady(w.nodes, w.pod.value.target)
  }

  ghost predicate RunsOn(w: World) {
    w.pod.Some? && !w.pod.value.deleting ==> w.pod.value.phase.Running? && w.pod.value.bound
  }

  /** A pass that acts on a missing pod has the old attachments in hand. */
  ghost predicate Sweeping(pc: Pc, vas: seq<Attachment>, pv: Option<string>) {
    match pc
    case DetachList(_, p) => pv == Some(p)
    case Detach(_, todo) => forall a | a in vas && Some(a.pv) == pv && !a.deleting :: a.name in todo
    case CheckPv(_) => Marked(vas, pv)
    case CheckVas(_, p) => Marked(vas, pv) && pv == Some(p)
    case PickPods(_, _) => Unattached(vas, pv)
    case PickNodes(_, _, _) => Unattached(vas, pv)
    case SavePlaced(_, _) => Unattached(vas, pv)
    case CreatePod(_) => Unattached(vas, pv)
    case _ => true
  }

  ghost predicate PassGoes(w: World, x: Node) {
    match w.pc
    case Idle => CanStart(w) && (Stations(w) >= 3 ==> Spare(w, x))
    case NodeGet(_, n) => RunsOn(w) && (SeenRunning(w) >= 3 ==> Spare(w, x) && n != x)
    case SaveRunning(st) =>
      && RunsOn(w) && (w.pod.Some? && !w.pod.value.deleting ==> NodeReady(w.nodes, w.pod.value.target))
      && (SeenRunning(w) >= 3 ==> Spare(w, x) && st.node != Some(x))
    case PickNodes(_, pods, _) => Spare(w, x) && Some(x) !in pods
    case SavePlaced(_, n) => NodeReady(w.nodes, n)
    case CreatePod(n) => w.pod == None && NodeReady(w.nodes, n)
    case _ => if Looking(w.pc) then CanStart(w) && (w.pod == None || Ahead(w) >= 3 ==> Spare(w, x)) else Spare(w, x)
  }

  ghost predicate Going(w: World, x: Node) {
    && !w.terminating && (Loaded(w.pc) ==> !w.cm.Absent?)
    && PassGoes(w, x)
    && (FoundMissing(w.pc) || w.pc.CreatePod? ==> Sweeping(w.pc, w.vas, PvOf(w)))
  }

  /** `x` is free for a placement as long as one may be needed, and a pod that is
      waiting to start can start; at every moment of a pass. */
  ghost predicate Healable(w: World, x: Node) {
    Inv(w) && Going(w, x)
  }

  ghost predicate Closer(w: World, next: World, x: Node) {
    Going(next, x) && Expected(next) <= Expected(w)
  }

  // ------------------------------------------------------------ single calls

  lemma LoadCall(w: World, x: Node)
    requires PassOk(w.pc, Stored(w), w.pod) && Going(w, x) && Looking(w.pc) && !w.pc.PodGet?
    ensures Closer(w, Call(w, true), x)
  {
  }

  lemma PodMissingCall(w: World, x: Node)
    requires Going(w, x) && w.pc.PodGet? && w.pc.st == Stored(w) && w.pod == None
    ensures Closer(w, Call(w, true), x)
  {
    MissingForm(Call(w, true), x);
  }

  lemma PodFoundCall(w: World, x: Node)
    requires PodOk(Stored(w), w.pod) && Going(w, x) && w.pc.PodGet? && w.pc.st == Stored(w) && w.pod.Some?
    ensures Closer(w, Call(w, true), x)
  {
    if Fails(Call(w, true).pc) { FailingForm(Call(w, true), x); }
  }

  lemma NodeGetCall(w: World, x: Node)
    requires PassOk(w.pc, Stored(w), w.pod) && Going(w, x) && w.pc.NodeGet?
    ensures Closer(w, Call(w, true), x)
  {
    if !NodeReady(w.nodes, w.pc.n) { FailingForm(Call(w, true), x); }
  }

  lemma SaveRunningCall(w: World, x: Node)
    requires PassOk(w.pc, Stored(w), w.pod) && Sound(Stored(w)) && Going(w, x) && w.pc.SaveRunning?
    ensures Closer(w, Call(w, true), x)
  {
    SoundHistory(Stored(w));
    var st := w.pc.st;
    assert Last(History(st)) == st.node.value;
  }

  lemma DetachKeepsMarks(vas: seq<Attachment>, name: string, pv: Option<string>)
    requires Marked(vas, pv)
    ensures Marked(MarkAttachment(vas, name), pv)
  {
    var marked := MarkAttachment(vas, name);
    forall a | a in marked && Some(a.pv) == pv ensures a.deleting {
      var i :| 0 <= i < |marked| && marked[i] == a;
      assert vas[i] in vas;
    }
  }

  /** What the invariant amounts to while a failover is going on. */
  lemma FailingForm(w: World, x: Node)
    requires Fails(w.pc)
    ensures Going(w, x) <==> !w.terminating && !w.cm.Absent? && Spare(w, x)
    ensures Expected(w) == if w.pod == None then Detaching(w) else 5
  {
  }

  lemma FailsOn(w: World)
    requires Sweeps(w.pc) && w.pc.k.Failing?
    ensures Fails(NextCall(w, true))
  {
  }

  lemma FailingSweep(w: World, x: Node)
    requires Going(w, x) && Sweeps(w.pc) && w.pc.k.Failing?
    ensures Closer(w, Call(w, true), x)
  {
    var next := Call(w, true);
    FailsOn(w);
    FailingForm(w, x);
    FailingForm(next, x);
    assert next.cm == w.cm && next.pod == w.pod && PvOf(next) == PvOf(w);
    if w.pc.Detach? && w.pc.todo != [] && Marked(w.vas, PvOf(w)) {
      DetachKeepsMarks(w.vas, w.pc.todo[0], PvOf(w));
    }
  }

  lemma SaveFailingCall(w: World, x: Node)
    requires Inv(w) && Going(w, x) && w.pc.SaveFailing?
    ensures Closer(w, Call(w, true), x)
  {
    SoundHistory(Stored(w));
    FailingForm(w, x);
    FailingForm(Call(w, true), x);
    assert History(w.pc.st) == History(Stored(w));
  }

  lemma PodDeleteCall(w: World, x: Node)
    requires Going(w, x) && w.pc.PodDelete?
    ensures Closer(w, Call(w, true), x)
  {
    FailingForm(w, x);
  }

  // ------------------------------------------------- calls after a missing pod

  lemma {:induction false} OursListed(vas: seq<Attachment>, a: Attachment)
    requires a in vas
    ensures a.name in AttachmentsOf(vas, a.pv)
  {
    if vas[0] == a {
    } else {
      OursListed(vas[1..], a);
    }
  }

  /** Deleting the next attachment on the list. */
  lemma DetachOne(k: Then, vas: seq<Attachment>, todo: seq<string>, pv: Option<string>)
    requires todo != [] && Sweeping(Detach(k, todo), vas, pv)
    ensures Sweeping(Detach(k, todo[1..]), MarkAttachment(vas, todo[0]), pv)
    ensures todo[1..] == [] ==> Marked(MarkAttachment(vas, todo[0]), pv)
  {
    var marked := MarkAttachment(vas, todo[0]);
    forall a | a in marked && Some(a.pv) == pv && !a.deleting ensures a.name in todo[1..] {
      var i :| 0 <= i < |marked| && marked[i] == a;
      assert vas[i] in vas && vas[i] == a && a.name != todo[0];
    }
  }

  /** The next call of a pass that found no pod still has the attachments in hand. */
  lemma SweepGoesOn(w: World)
    requires FoundMissing(w.pc) && (Sweeps(w.pc) || w.pc.SaveMissing?) && !w.cm.Absent?
    requires Sweeping(w.pc, w.vas, PvOf(w))
    ensures var next := NextCall(w, true);
      && FoundMissing(next) && (Sweeps(next) || next.CheckPv?)
      && Sweeping(next, CallVas(w, true), PvOf(w))
  {
    match w.pc
    case DetachList(k, pv) =>
      ListedAttachments(w.vas, pv);
      forall a | a in w.vas && a.pv == pv ensures a.name in AttachmentsOf(w.vas, pv) { OursListed(w.vas, a); }
    case Detach(k, todo) => if todo != [] { DetachOne(k, w.vas, todo, PvOf(w)); }
    case _ =>
  }

  /** What the invariant amounts to until a node is picked. */
  lemma MissingForm(w: World, x: Node)
    requires FoundMissing(w.pc) && !w.pc.PickNodes? && !w.pc.SavePlaced?
    ensures Going(w, x) <==> !w.terminating && !w.cm.Absent? && Spare(w, x) && Sweeping(w.pc, w.vas, PvOf(w))
    ensures Expected(w) == Ahead(w)
  {
  }

  lemma MissingSweep(w: World, x: Node)
    requires PassOk(w.pc, Stored(w), w.pod) && Going(w, x)
    requires FoundMissing(w.pc) && (Sweeps(w.pc) || w.pc.SaveMissing?)
    ensures Closer(w, Call(w, true), x)
  {
    var next := Call(w, true);
    SweepGoesOn(w);
    MissingForm(w, x);
    MissingForm(next, x);
    assert next.pod == None && PvOf(next) == PvOf(w) && History(Stored(next)) == History(Stored(w));
    if w.pc.Detach? && w.pc.todo != [] { MarkedAttachments(w.vas, w.pc.todo[0], PvOf(w), ""); }
  }

  lemma CheckCall(w: World, x: Node)
    requires PassOk(w.pc, Stored(w), w.pod) && Going(w, x) && (w.pc.CheckPv? || w.pc.CheckVas?)
    ensures Closer(w, Call(w, true), x)
  {
    MissingForm(w, x);
    if w.pc.CheckVas? { ListedAttachments(w.vas, w.pc.pv); }
    if !Call(w, true).pc.Idle? { MissingForm(Call(w, true), x); }
  }

  lemma PickPodsCall(w: World, x: Node)
    requires PassOk(w.pc, Stored(w), w.pod) && Going(w, x) && w.pc.PickPods?
    ensures Closer(w, Call(w, true), x)
  {
  }

  /** `x` is eligible, so the pick succeeds or the history still has to be cut. */
  lemma PickNodesCall(w: World, x: Node)
    requires PassOk(w.pc, Stored(w), w.pod) && Going(w, x) && w.pc.PickNodes?
    ensures Closer(w, Call(w, true), x)
  {
    assert Eligible(w.pc.pods, w.nodes, x);
    var prior := w.pc.st.prior;
    assert x in prior ==> |prior| > 1 && w.pc.first;
    var next := Call(w, true);
    if next.pc.PickPods? { MissingForm(next, x); }
  }

  lemma PlaceCall(w: World, x: Node)
    requires PassOk(w.pc, Stored(w), w.pod) && Going(w, x) && (w.pc.SavePlaced? || w.pc.CreatePod?)
    ensures Closer(w, Call(w, true), x)
  {
  }

  /** Every answered call keeps the pass going and brings it no further from the goal. */
  lemma CallHeals(w: World, x: Node)
    requires Healable(w, x) && !w.pc.Idle?
    ensures Healable(Call(w, true), x) && Expected(Call(w, true)) <= Expected(w)
  {
    CallKeepsInv(w, true);
    if w.pc.PodGet? && w.pod == None { PodMissingCall(w, x); }
    else if w.pc.PodGet? { PodFoundCall(w, x); }
    else if Looking(w.pc) { LoadCall(w, x); }
    else if w.pc.NodeGet? { NodeGetCall(w, x); }
    else if w.pc.SaveRunning? { SaveRunningCall(w, x); }
    else if w.pc.SaveFailing? { SaveFailingCall(w, x); }
    else if w.pc.PodDelete? { PodDeleteCall(w, x); }
    else if Sweeps(w.pc) && w.pc.k.Failing? { FailingSweep(w, x); }
    else if Sweeps(w.pc) || w.pc.SaveMissing? { MissingSweep(w, x); }
    else if w.pc.CheckPv? || w.pc.CheckVas? { CheckCall(w, x); }
    else if w.pc.PickPods? { PickPodsCall(w, x); }
    else if w.pc.PickNodes? { PickNodesCall(w, x); }
    else { PlaceCall(w, x); }
  }

  // --------------------------------------------------------- settling events

  /** The same pod, record and attachments on the same ready nodes. */
  ghost predicate SameMatter(w: World, next: World) {
    && next == w.(nodes := next.nodes, others := next.others, workloads := next.workloads)
    && SameReadiness(w.nodes, next.nodes)
  }

  lemma SameExpected(w: World, next: World)
    requires SameMatter(w, next)
    ensures Expected(next) == Expected(w) && Stations(next) == Stations(w)
    ensures Ahead(next) == Ahead(w) && SeenRunning(next) == SeenRunning(w)
  {
  }

  lemma SameGoing(w: World, next: World, x: Node)
    requires SameMatter(w, next) && Going(w, x) && (Spare(w, x) ==> Spare(next, x))
    requires Stations(next) == Stations(w) && Ahead(next) == Ahead(w) && SeenRunning(next) == SeenRunning(w)
    ensures Going(next, x)
  {
  }

  lemma GroundSettles(w: World, e: Event, x: Node)
    requires Going(w, x) && Settling(x, w, e) && (e.OthersChange? || e.WorkloadsChange? || e.NodesChange?)
    ensures Closer(w, Next(w, e), x)
  {
    var next := Next(w, e);
    assert SameMatter(w, next);
    assert Spare(w, x) ==> Spare(next, x);
    SameExpected(w, next);
    SameGoing(w, next, x);
  }

  /** The pod moves on: it starts, or its deletion is carried out. */
  ghost predicate PodMovesOn(pod: Option<Pod>, next: Option<Pod>) {
    match pod
    case None => next == None
    case Some(p) =>
      if next == None then p.deleting
      else
        && next.value.target == p.target && next.value.deleting == p.deleting && (p.bound ==> next.value.bound)
        && (p.deleting || next.value.phase == p.phase
            || (p.phase.Pending? && next.value.phase.Running? && next.value.bound))
  }

  lemma PodExpected(w: World, next: World, x: Node)
    requires next == w.(pod := next.pod) && PodMovesOn(w.pod, next.pod) && w.pod.Some?
    requires Going(w, x) && PodOk(Stored(w), w.pod) && !FoundMissing(w.pc)
    ensures Expected(next) <= Expected(w)
    ensures w.pc.Idle? ==> Stations(next) <= Stations(w)
    ensures Looking(w.pc) ==> Ahead(next) <= Ahead(w)
    ensures w.pc.NodeGet? || w.pc.SaveRunning? ==> SeenRunning(next) <= SeenRunning(w)
  {
  }

  lemma PodGoing(w: World, next: World, x: Node)
    requires next == w.(pod := next.pod) && PodMovesOn(w.pod, next.pod) && w.pod.Some?
    requires Going(w, x) && !FoundMissing(w.pc) && (Spare(w, x) ==> Spare(next, x))
    requires w.pc.Idle? ==> Stations(next) <= Stations(w)
    requires Looking(w.pc) ==> Ahead(next) <= Ahead(w) && (next.pod == None ==> Ahead(w) == 5)
    requires w.pc.NodeGet? || w.pc.SaveRunning? ==> SeenRunning(next) <= SeenRunning(w)
    ensures Going(next, x)
  {
  }

  lemma PodSettles(w: World, e: Event, x: Node)
    requires Inv(w) && Going(w, x) && Settling(x, w, e)
    requires e.PodBinds? || e.PodPhase? || e.PodVanishes?
    ensures Closer(w, Next(w, e), x)
  {
    var next := Next(w, e);
    assert next == w.(pod := next.pod) && PodMovesOn(w.pod, next.pod);
    if w.pod == None {
      assert next == w;
    } else {
      PodExpected(w, next, x);
      PodGoing(w, next, x);
    }
  }

  /** Without a pod, attachments of the backing volume only go or get marked. */
  ghost predicate OnlyDetaches(w: World, next: World) {
    && (Unattached(w.vas, PvOf(w)) ==> Unattached(next.vas, PvOf(next)))
    && (Marked(w.vas, PvOf(w)) ==> Marked(next.vas, PvOf(next)))
    && (Sweeping(w.pc, w.vas, PvOf(w)) ==> Sweeping(w.pc, next.vas, PvOf(next)))
  }

  lemma MarkSettles(w: World, name: string)
    ensures OnlyDetaches(w, w.(vas := MarkAttachment(w.vas, name)))
  {
    var pv := PvOf(w);
    MarkedAttachments(w.vas, name, pv, "");
    if Marked(w.vas, pv) { DetachKeepsMarks(w.vas, name, pv); }
    if w.pc.Detach? && Sweeping(w.pc, w.vas, pv) { MarkKeepsTodo(w.pc.k, w.vas, w.pc.todo, pv, name); }
  }

  /** Fewer attachments, or a volume that is bound and not yet attached. */
  lemma FewerSettle(w: World, next: World)
    requires next == w.(vas := next.vas, backing := next.backing)
    requires forall a | a in next.vas && Some(a.pv) == PvOf(next) :: a in w.vas && Some(a.pv) == PvOf(w)
    requires PvOf(w).Some? ==> PvOf(next) == PvOf(w)
    ensures OnlyDetaches(w, next)
  {
  }

  lemma AttachmentsSettle(w: World, e: Event)
    requires w.pod == None && MovesAttachments(e)
    ensures OnlyDetaches(w, Next(w, e))
  {
    if e.AttachmentDeletes? {
      MarkSettles(w, e.name);
    } else {
      if e.Detaches? { RemovedAttachments(w.vas, e.name); }
      if e.ClaimBinds? { ListedAttachments(w.vas, e.pv); }
      FewerSettle(w, Next(w, e));
    }
  }

  lemma MarkKeepsTodo(k: Then, vas: seq<Attachment>, todo: seq<string>, pv: Option<string>, name: string)
    requires Sweeping(Detach(k, todo), vas, pv)
    ensures Sweeping(Detach(k, todo), MarkAttachment(vas, name), pv)
  {
    var marked := MarkAttachment(vas, name);
    forall a | a in marked && Some(a.pv) == pv && !a.deleting ensures a.name in todo {
      var i :| 0 <= i < |marked| && marked[i] == a;
      assert vas[i] in vas && vas[i] == a;
    }
  }

  lemma AttachmentsClose(w: World, e: Event, x: Node)
    requires PassOk(w.pc, Stored(w), w.pod) && Going(w, x) && MovesAttachments(e)
    ensures Closer(w, Next(w, e), x)
  {
    var next := Next(w, e);
    assert next == w.(vas := next.vas, backing := next.backing);
    if w.pod == None { AttachmentsSettle(w, e); }
    DetachingCloses(w, next, x);
  }

  lemma DetachingCloses(w: World, next: World, x: Node)
    requires PassOk(w.pc, Stored(w), w.pod) && Going(w, x)
    requires next == w.(vas := next.vas, backing := next.backing) && (w.pod == None ==> OnlyDetaches(w, next))
    ensures Closer(w, next, x)
  {
  }

  lemma SettlingHeals(w: World, e: Event, x: Node)
    requires Healable(w, x) && Settling(x, w, e)
    ensures Healable(Next(w, e), x) && Expected(Next(w, e)) <= Expected(w)
  {
    NextKeepsInv(w, e);
    if e.PodBinds? || e.PodPhase? || e.PodVanishes? { PodSettles(w, e, x); }
    else if MovesAttachments(e) { AttachmentsClose(w, e, x); }
    else { GroundSettles(w, e, x); }
  }

  // ------------------------------------------------------------ whole rounds

  lemma StepHeals(v: World, e: Event, x: Node)
    requires Healable(v, x) && InPass(x, v, e)
    ensures Healable(Next(v, e), x) && Expected(Next(v, e)) <= Expected(v)
  {
    if Settling(x, v, e) { SettlingHeals(v, e, x); }
    else if v.pc.Idle? { assert Call(v, true) == v; }
    else { CallHeals(v, x); }
  }

  lemma {:induction false} RunHeals(w: World, es: seq<Event>, x: Node)
    requires Healable(w, x) && Throughout(w, es, (v, e) => InPass(x, v, e))
    ensures Healable(Run(w, es), x) && Expected(Run(w, es)) <= Expected(w)
  {
    if es == [] {
    } else {
      var v := Run(w, es[..|es| - 1]);
      ThroughoutPrefix(w, es, (v, e) => InPass(x, v, e));
      RunHeals(w, es[..|es| - 1], x);
      StepHeals(v, Last(es), x);
    }
  }

  /** A pass that begins now will end at `Ahead`. */
  lemma BeginHeals(v: World, x: Node)
    requires Healable(v, x) && v.pc == Idle
    ensures Healable(Next(v, Begin), x) && Expected(Next(v, Begin)) == Ahead(v)
    ensures Ahead(v) <= Stations(v)
  {
    NextKeepsInv(v, Begin);
  }

  /** Everything the cluster owed at `w` is done by `v`. */
  ghost predicate Delivered(w: World, v: World) {
    && (w.pod.Some? && w.pod.value.deleting ==> v.pod == None)
    && (w.pod.Some? && !w.pod.value.deleting && w.pod.value.phase.Pending? ==>
          v.pod.Some? && !v.pod.value.deleting && v.pod.value.phase.Running?)
    && (w.pod == None && Marked(w.vas, PvOf(w)) ==> Unattached(v.vas, PvOf(v)))
  }

  /** A round in which the cluster kept up brings the volume closer. */
  lemma DeliveredAdvances(w: World, v: World, x: Node)
    requires Healable(w, x) && w.pc == Idle && Healable(v, x) && v.pc == Idle && Stations(v) <= Stations(w)
    requires Delivered(w, v) && Stations(w) > 0
    ensures Ahead(v) < Stations(w)
  {
  }

  // --------------------------------------------------------------- whole runs

  /** A state between passes, and how many more rounds the cluster may lag. */
  datatype Lap = Lap(w: World, patience: nat)

  /** One round: the cluster settles for a while, then a pass runs while the
      cluster goes on settling between its calls. When the cluster has not
      delivered everything it owed before the pass begins, it uses up patience;
      otherwise it regains it. */
  ghost predicate RoundBy(a: Lap, b: Lap, limit: nat, x: Node, pause: seq<Event>, pass: seq<Event>) {
    var v := Run(a.w, pause);
    && Throughout(a.w, pause, (u, e) => Settling(x, u, e))
    && Throughout(Next(v, Begin), pass, (u, e) => InPass(x, u, e))
    && b.w == Run(Next(v, Begin), pass) && b.w.pc == Idle
    && (if Delivered(a.w, v) then b.patience <= limit else b.patience < a.patience)
  }

  ghost predicate Round(a: Lap, b: Lap, limit: nat, x: Node) {
    exists pause, pass :: RoundBy(a, b, limit, x, pause, pass)
  }

  lemma {:induction false} PauseHeals(w: World, es: seq<Event>, x: Node)
    requires Healable(w, x) && w.pc == Idle && Throughout(w, es, (v, e) => Settling(x, v, e))
    ensures Healable(Run(w, es), x) && Run(w, es).pc == Idle && Stations(Run(w, es)) <= Stations(w)
  {
    if es == [] {
    } else {
      var v := Run(w, es[..|es| - 1]);
      ThroughoutPrefix(w, es, (v, e) => Settling(x, v, e));
      PauseHeals(w, es[..|es| - 1], x);
      SettlingHeals(v, Last(es), x);
    }
  }

  lemma RoundHeals(a: Lap, b: Lap, limit: nat, x: Node)
    requires Healable(a.w, x) && a.w.pc == Idle && Round(a, b, limit, x)
    ensures Healable(b.w, x) && b.w.pc == Idle && Stations(b.w) <= Stations(a.w)
    ensures b.patience < a.patience || (b.patience <= limit && (Stations(a.w) > 0 ==> Stations(b.w) < Stations(a.w)))
  {
    var pause, pass :| RoundBy(a, b, limit, x, pause, pass);
    var v := Run(a.w, pause);
    PauseHeals(a.w, pause, x);
    BeginHeals(v, x);
    RunHeals(Next(v, Begin), pass, x);
    if Delivered(a.w, v) && Stations(a.w) > 0 { DeliveredAdvances(a.w, v, x); }
  }

  /** `s * (limit + 1)` */
  function Cost(s: nat, limit: nat): nat {
    if s == 0 then 0 else Cost(s - 1, limit) + limit + 1
  }

  /** The lexicographic measure (stations to go, patience left) as one number. */
  ghost function Budget(a: Lap, limit: nat): nat {
    Cost(Stations(a.w), limit) + a.patience
  }

  lemma {:induction false} Spend(s: nat, t: nat, limit: nat)
    requires t <= s
    ensures Cost(t, limit) <= Cost(s, limit)
    ensures t < s ==> Cost(t, limit) + limit < Cost(s, limit)
  {
    if t == s {
    } else {
      Spend(s - 1, t, limit);
    }
  }

  lemma SixStations(limit: nat)
    ensures Cost(6, limit) == 6 * limit + 6
  {
    assert Cost(1, limit) == limit + 1;
    assert Cost(2, limit) == 2 * limit + 2;
    assert Cost(3, limit) == 3 * limit + 3;
    assert Cost(4, limit) == 4 * limit + 4;
    assert Cost(5, limit) == 5 * limit + 5;
  }

  lemma {:induction false} LapsSpend(laps: seq<Lap>, limit: nat, x: Node)
    requires laps != [] && Healable(laps[0].w, x) && laps[0].w.pc == Idle && laps[0].patience <= limit
    requires forall i | 0 < i < |laps| :: Round(laps[i - 1], laps[i], limit, x)
    ensures var last := Last(laps);
      && Healable(last.w, x) && last.w.pc == Idle && last.patience <= limit
      && (Stations(last.w) == 0 || Budget(last, limit) + |laps| <= Budget(laps[0], limit) + 1)
  {
    if |laps| == 1 {
    } else {
      var front := laps[..|laps| - 1];
      LapsSpend(front, limit, x);
      RoundHeals(Last(front), Last(laps), limit, x);
      Spend(Stations(Last(front).w), Stations(Last(laps).w), limit);
    }
  }

  /** If the cluster never lags more than `limit` rounds, then from whatever
      healable state, after `7 * (limit + 1)` rounds the share-manager runs on a
      ready node and is recorded there; and it stays so from then on. */
  lemma Converges(laps: seq<Lap>, limit: nat, x: Node)
    requires |laps| > 7 * (limit + 1)
    requires Healable(laps[0].w, x) && laps[0].w.pc == Idle && laps[0].patience <= limit
    requires forall i | 0 < i < |laps| :: Round(laps[i - 1], laps[i], limit, x)
    ensures Recorded(Last(laps).w)
  {
    LapsSpend(laps, limit, x);
    Spend(6, Stations(laps[0].w), limit);
    SixStations(limit);
  }
}
