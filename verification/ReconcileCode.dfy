/** The controller's code (src/controller.rs) as it is written: a record changed
    in place, loops that delete, calls that return early. Each API call takes
    time in which the cluster moves, and may fail. The code is tied to the step
    machine: a ghost machine runs alongside, every call may only be made where
    the machine makes it and with the machine's arguments, and the cluster is at
    all times the machine's cluster. */
module ReconcileCode {
  import opened Base
  import opened Placement
  import opened FailoverModel
  import opened Passes
  import opened PlacementSafety
  import AttachmentSafety
  import EvictionSafety

  predicate IsOutside(e: Event) {
    !e.Begin? && !e.Answer? && !e.Crash?
  }

  /** What happens around the controller rather than in it. */
  type Outside = e: Event | IsOutside(e) witness PodBinds

  /** The cluster itself, without program counter and observations. */
  function Bare(w: World): World {
    w.(pc := Idle, trail := [], log := [])
  }

  lemma DriverDeleteIsBare(w: World, obj: Object)
    ensures DriverDelete(Bare(w), obj) == Bare(DriverDelete(w, obj))
  {
  }

  lemma OutsideIsBare(w: World, e: Outside)
    ensures Next(Bare(w), e) == Bare(Next(w, e))
  {
    assert Enabled(Bare(w), e) == Enabled(w, e);
    if e.DriverDeletes? { DriverDeleteIsBare(w, e.obj); }
  }

  lemma OutsideKeepsPc(w: World, e: Outside)
    ensures Next(w, e).pc == w.pc && Next(w, e).claim == w.claim
  {
  }

  /** `trace` leads from `start` to `m`. */
  ghost predicate Linked(start: World, trace: seq<Event>, m: World) {
    forall es {:trigger Shown(es)} | Shown(es) && es == trace :: m == Run(start, es)
  }

  /** The step the machine takes on this answer changes its cluster to `c` and moves it to `pc`. */
  ghost predicate Takes(w: World, ok: bool, c: World, pc: Pc) {
    forall v: World {:trigger Shown(v)} | Shown(v) && v == w :: Bare(Call(v, ok)) == c && Call(v, ok).pc == pc
  }

  lemma LinkedIsRun(start: World, trace: seq<Event>, m: World)
    ensures Linked(start, trace, m) <==> m == Run(start, trace)
  {
    assert Shown(trace);
  }

  lemma LinkedStep(start: World, trace: seq<Event>, m: World, e: Event)
    requires Linked(start, trace, m)
    ensures Linked(start, trace + [e], Next(m, e))
  {
    LinkedIsRun(start, trace, m);
    RunSnoc(start, trace, e);
  }

  lemma RunSnoc(w: World, es: seq<Event>, e: Event)
    ensures Run(w, es + [e]) == Next(Run(w, es), e)
  {
    assert (es + [e])[..|es|] == es;
  }

  /** What leads to `w` leads to no other state. */
  lemma SaysLast(start: World, trace: seq<Event>, w: World, ok: bool)
    requires Linked(start, trace, w)
    ensures var t := trace + [Answer(ok)];
      && t[..|t| - 1] == trace && Last(t) == Answer(ok)
      && forall v {:trigger Linked(start, trace, v)} | Linked(start, trace, v) :: v == w
  {
    LinkedIsRun(start, trace, w);
    forall v | Linked(start, trace, v) ensures v == w { LinkedIsRun(start, trace, v); }
  }

  // ---------------------------------- the next call, by what the last one returned

  function StateKnown(ok: bool, cm: StateCm): Pc {
    if !ok then Idle else if cm.Absent? then LoadCreate else SvcGet(if cm.Holds? then cm.st else Fresh)
  }

  function NodeKnown(st: ShareState, n: Node, ready: bool): Pc {
    if ready then RecordRunning(st, Some(n)) else StartFailover(st)
  }

  function WorkloadsListed(claim: Claim, k: Then, ok: bool, pods: seq<Workload>): Pc {
    if ok then EvictNext(k, pods, Victims(pods, claim.name), {}) else Idle
  }

  function PodsListed(st: ShareState, first: bool, ok: bool, pods: PodListing): Pc {
    if ok then PickNodes(st, pods, first) else Chosen(st, None, first)
  }

  function NodesListed(st: ShareState, pods: PodListing, first: bool, ok: bool, nodes: seq<NodeInfo>): Pc {
    Chosen(st, if ok then PickNode(pods, nodes, st.prior) else None, first)
  }

  /** The call after a record was saved. */
  function Saved(claim: Claim, pc: Pc): Pc
    requires Saves(pc).Some?
  {
    match pc
    case SaveRunning(_) => Idle
    case SaveFailing(_) => DetachPv(Failing)
    case SaveMissing(st) => StartEvict(claim, Missing(st))
    case SavePlaced(_, n) => CreatePod(n)
  }

  /** The call after the backing claim was read. */
  function BackingKnown(claim: Claim, pc: Pc, pv: Option<string>): Pc
    requires pc.DetachPv? || pc.CheckPv?
  {
    match pc
    case DetachPv(k) => if pv.Some? then DetachList(k, pv.value) else AfterDetach(claim, k)
    case CheckPv(st) => if pv.Some? then CheckVas(st, pv.value) else PickPods(TakeNode(st), true)
  }

  /** The call after the attachments were listed. */
  function AttachmentsListed(claim: Claim, pc: Pc, ok: bool, vas: seq<Attachment>): Pc
    requires pc.DetachList? || pc.CheckVas?
  {
    match pc
    case DetachList(k, pv) => if ok then DetachNext(claim, k, AttachmentsOf(vas, pv)) else Idle
    case CheckVas(st, pv) => if ok && AttachmentsOf(vas, pv) != [] then Idle else PickPods(TakeNode(st), true)
  }

  // ------------------------------------- what the machine does on each call

  lemma GetStateTakes(w: World, ok: bool)
    requires w.pc == LoadGet
    ensures Takes(w, ok, Bare(w), StateKnown(ok, w.cm))
  {
  }

  lemma CreateStateTakes(w: World, ok: bool)
    requires w.pc == LoadCreate
    ensures var c := Bare(w).(cm := if ok && w.cm.Absent? then Holds(Fresh) else w.cm);
      Takes(w, ok, c, if ok then SvcGet(Fresh) else Idle)
  {
  }

  lemma GetServiceTakes(w: World, ok: bool, st: ShareState)
    requires w.pc == SvcGet(st)
    ensures Takes(w, ok, Bare(w), if ok && w.svc then PodGet(st) else SvcCreate(st))
  {
  }

  lemma CreateServiceTakes(w: World, ok: bool, st: ShareState)
    requires w.pc == SvcCreate(st)
    ensures Takes(w, ok, Bare(w).(svc := w.svc || ok), if ok then PodGet(st) else Idle)
  {
  }

  lemma GetPodTakes(w: World, ok: bool, st: ShareState)
    requires w.pc == PodGet(st)
    ensures Takes(w, ok, Bare(w), if ok then SeenPod(st, w.pod) else Idle)
  {
  }

  lemma NodeIsReadyTakes(w: World, ok: bool, st: ShareState, n: Node)
    requires w.pc == NodeGet(st, n)
    ensures Takes(w, ok, Bare(w), NodeKnown(st, n, ok && NodeReady(w.nodes, n)))
  {
  }

  lemma SaveStateTakes(w: World, ok: bool, st: ShareState)
    requires Saves(w.pc) == Some(st)
    ensures var c := Bare(w).(cm := if CanSave(w, ok) then Holds(st) else w.cm);
      Takes(w, ok, c, if CanSave(w, ok) then Saved(w.claim, w.pc) else Idle)
  {
  }

  lemma ListWorkloadsTakes(w: World, ok: bool, k: Then)
    requires w.pc == EvictList(k)
    ensures Takes(w, ok, Bare(w), WorkloadsListed(w.claim, k, ok, w.workloads))
  {
  }

  lemma DeleteWorkloadTakes(w: World, ok: bool, k: Then, listed: seq<Workload>, todo: seq<string>, deleted: set<string>)
    requires w.pc == Evict(k, listed, todo, deleted) && todo != []
    ensures var c := Bare(w).(workloads := if ok then MarkWorkload(w.workloads, todo[0]) else w.workloads);
      Takes(w, ok, c, EvictNext(k, listed, todo[1..], Deleted(todo, ok, deleted)))
  {
  }

  lemma BackingPvNameTakes(w: World, ok: bool)
    requires w.pc.DetachPv? || w.pc.CheckPv?
    ensures Takes(w, ok, Bare(w), BackingKnown(w.claim, w.pc, if ok then PvOf(w) else None))
  {
  }

  lemma ListAttachmentsTakes(w: World, ok: bool)
    requires w.pc.DetachList? || w.pc.CheckVas?
    ensures Takes(w, ok, Bare(w), AttachmentsListed(w.claim, w.pc, ok, w.vas))
  {
  }

  lemma DeleteAttachmentTakes(w: World, ok: bool, k: Then, todo: seq<string>)
    requires w.pc == Detach(k, todo) && todo != []
    ensures var c := Bare(w).(vas := if ok then MarkAttachment(w.vas, todo[0]) else w.vas);
      Takes(w, ok, c, DetachNext(w.claim, k, todo[1..]))
  {
  }

  lemma DeletePodTakes(w: World, ok: bool)
    requires w.pc == PodDelete
    ensures var pod := if ok && w.pod.Some? then Some(w.pod.value.(deleting := true)) else w.pod;
      Takes(w, ok, Bare(w).(pod := pod), Idle)
  {
  }

  lemma ListShareManagersTakes(w: World, ok: bool, st: ShareState, first: bool)
    requires w.pc == PickPods(st, first)
    ensures Takes(w, ok, Bare(w), PodsListed(st, first, ok, ShareManagerPods(w)))
  {
  }

  lemma ListNodesTakes(w: World, ok: bool, st: ShareState, pods: PodListing, first: bool)
    requires w.pc == PickNodes(st, pods, first)
    ensures Takes(w, ok, Bare(w), NodesListed(st, pods, first, ok, w.nodes))
  {
  }

  lemma CreatePodTakes(w: World, ok: bool, n: Node)
    requires w.pc == CreatePod(n)
    ensures var pod := if ok && w.pod.None? then Some(Pod(n, false, Pending, false, true)) else w.pod;
      Takes(w, ok, Bare(w).(pod := pod), Idle)
  {
  }

  /** Undisturbed calls do not change how the pass will end. */
  lemma {:induction false} AnswersFinish(w: World, s: seq<Event>, t: seq<Event>)
    requires s <= t && forall i | |s| <= i < |t| :: t[i] == Answer(true)
    ensures Finish(Run(w, t)) == Finish(Run(w, s))
    decreases |t|
  {
    if s == t {
    } else {
      var front := t[..|t| - 1];
      AnswersFinish(w, s, front);
      assert t == front + [Answer(true)];
      RunSnoc(w, front, Answer(true));
    }
  }

  // ------------------------------------------------------ safety of the code

  ghost predicate WellPlaced(w: World) {
    && Sound(Stored(w))
    && (w.pod.Some? && w.pod.value.ours ==> OnRecord(Stored(w), w.pod.value.target))
  }

  ghost predicate AttachedOnlyAtPod(w: World) {
    w.pod.Some? ==> forall a | a in w.vas && PvOf(w) == Some(a.pv) :: a.node == w.pod.value.target
  }

  ghost predicate AlignedAtStart(w: World) {
    w.pod.Some? ==> AttachmentSafety.Aligned(w.vas, PvOf(w), w.pod.value.target)
  }

  lemma RunsAreSafe(w: World, es: seq<Event>)
    requires JustBound(w) && forall i | 0 <= i < |es| :: !es[i].DriverDeletes? && !es[i].DriverCreates?
    ensures WellPlaced(Run(w, es))
  {
    PlacementSafe(w, es);
  }

  lemma AnsweredRunsAreSafe(w: World, es: seq<Event>)
    requires JustBound(w)
    requires forall i | 0 <= i < |es| :: !es[i].DriverDeletes? && !es[i].DriverCreates?
    requires forall i | 0 <= i < |es| :: es[i] != Answer(false) && es[i] != Crash
    ensures AlignedAtStart(w) ==> AttachedOnlyAtPod(Run(w, es))
    ensures Named(w.claim) ==> EvictionSafety.PlacedAfterEviction(Run(w, es).log)
  {
    if AlignedAtStart(w) { AttachmentSafety.SingleAttachment(w, es); }
    if Named(w.claim) { EvictionSafety.EvictionBeforePlacement(w, es); }
  }

  /** So many undisturbed passes. */
  function AfterPasses(w: World, passes: nat): World {
    if passes == 0 then w else Pass(AfterPasses(w, passes - 1))
  }

  class Controller {
    var cluster: World
    var st: ShareState                    // the record in hand
    var clock: nat                        // API calls so far
    const events: nat -> seq<Outside>     // what happens before call i is answered
    const answers: nat -> bool            // whether call i succeeds

    ghost const start: World
    ghost var m: World                    // the step machine
    ghost var trace: seq<Event>
    ghost var said: Action                // what the machine's last call asks for, if it ends the pass

    constructor (w: World, events: nat -> seq<Outside>, answers: nat -> bool)
      requires w.pc == Idle
      ensures Valid() && m == w && start == w && trace == [] && cluster == Bare(w)
      ensures this.events == events && this.answers == answers
    {
      cluster, st, clock := Bare(w), Fresh, 0;
      this.events, this.answers := events, answers;
      start, m, trace, said := w, w, [], AwaitChange;
      LinkedIsRun(w, [], w);
    }

    ghost predicate Valid()
      reads this
    {
      cluster == Bare(m) && Linked(start, trace, m)
    }

    /** Nothing moves between the calls, and all of them succeed. */
    ghost predicate Quiet() {
      forall i: nat :: events(i) == [] && answers(i)
    }

    ghost predicate AllAnswered() {
      forall i: nat :: answers(i)
    }

    /** The CSI driver has handed the volume over and does not tear it down. */
    ghost predicate Kept() {
      forall i: nat, e: Outside | e in events(i) :: !e.DriverDeletes? && !e.DriverCreates?
    }

    /** What can happen during a pass. */
    ghost predicate MayOccur(e: Event) {
      forall x: Event {:trigger Shown(x)} | Shown(x) && x == e ::
        && !x.Begin? && !x.Crash?
        && (Quiet() ==> x == Answer(true))
        && (AllAnswered() ==> x != Answer(false))
        && (Kept() ==> !x.DriverDeletes? && !x.DriverCreates?)
    }

    /** `t` continues `s` without a new pass and without a crash. */
    ghost predicate Continues(s: seq<Event>, t: seq<Event>) {
      s <= t && forall i | |s| <= i < |t| :: MayOccur(t[i])
    }

    /** `said` is what the last event of the trace says, an answer to a call. */
    ghost predicate Spoken()
      reads this
    {
      && trace != [] && Last(trace).Answer?
      && forall w: World {:trigger Shown(w)} | Shown(w) && Linked(start, trace[..|trace| - 1], w) ::
           said == Verdict(w, Last(trace).ok)
    }

    twostate predicate Goes()
      reads this
    {
      && Valid() && Continues(old(trace), trace) && m.claim == old(m).claim
      && (m.pc == Idle && old(m).pc != Idle ==> Spoken())
    }

    // ---------------------------------------------------------- the API

    /** The time until the pending call is answered. */
    method Await() returns (ok: bool)
      requires Valid()
      modifies this`cluster, this`clock, this`m, this`trace
      ensures Goes() && m.pc == old(m).pc
      ensures trace == old(trace) + events(old(clock)) && ok == answers(old(clock)) && clock == old(clock) + 1
      ensures Quiet() ==> m == old(m)
    {
      var es := events(clock);
      var i := 0;
      while i < |es|
        invariant 0 <= i <= |es|
        invariant Valid() && Continues(old(trace), trace) && m.claim == old(m).claim && m.pc == old(m).pc
        invariant clock == old(clock) && trace == old(trace) + es[..i] && (Quiet() ==> m == old(m))
      {
        OutsideIsBare(m, es[i]);
        OutsideKeepsPc(m, es[i]);
        LinkedStep(start, trace, m, es[i]);
        cluster := Next(cluster, es[i]);
        m, trace := Next(m, es[i]), trace + [es[i]];
        i := i + 1;
      }
      ok, clock := answers(clock), clock + 1;
    }

    /** The machine takes the answered step; the cluster has made it already. */
    ghost method Note(ok: bool, s: seq<Event>, pc: Pc)
      requires Linked(start, trace, m) && Continues(s, trace) && (AllAnswered() ==> ok)
      requires Takes(m, ok, cluster, pc)
      modifies this`m, this`trace, this`said
      ensures Valid() && Continues(s, trace) && m.pc == pc && said == Verdict(old(m), ok) && Spoken()
    {
      assert Shown(m);
      LinkedStep(start, trace, m, Answer(ok));
      said := Verdict(m, ok);
      SaysLast(start, trace, m, ok);
      m, trace := Call(m, ok), trace + [Answer(ok)];
    }

    method GetState() returns (ok: bool, cm: StateCm)
      requires Valid() && m.pc == LoadGet
      modifies this`cluster, this`clock, this`m, this`trace, this`said
      ensures Goes() && m.pc == StateKnown(ok, cm)
      ensures !ok ==> said == Error
    {
      ok := Await();
      cm := cluster.cm;
      GetStateTakes(m, ok);
      Note(ok, old(trace), StateKnown(ok, cm));
    }

    method CreateState() returns (ok: bool)
      requires Valid() && m.pc == LoadCreate
      modifies this`cluster, this`clock, this`m, this`trace, this`said
      ensures Goes() && m.pc == if ok then SvcGet(Fresh) else Idle
      ensures !ok ==> said == Error
    {
      ok := Await();
      if ok && cluster.cm.Absent? { cluster := cluster.(cm := Holds(Fresh)); }
      CreateStateTakes(m, ok);
      Note(ok, old(trace), if ok then SvcGet(Fresh) else Idle);
    }

    method GetService() returns (ok: bool, found: bool)
      requires Valid() && m.pc.SvcGet?
      modifies this`cluster, this`clock, this`m, this`trace, this`said
      ensures Goes() && m.pc == if ok && found then PodGet(old(m).pc.st) else SvcCreate(old(m).pc.st)
    {
      ok := Await();
      found := cluster.svc;
      GetServiceTakes(m, ok, m.pc.st);
      Note(ok, old(trace), if ok && found then PodGet(m.pc.st) else SvcCreate(m.pc.st));
    }

    method CreateService() returns (ok: bool)
      requires Valid() && m.pc.SvcCreate?
      modifies this`cluster, this`clock, this`m, this`trace, this`said
      ensures Goes() && m.pc == if ok then PodGet(old(m).pc.st) else Idle
      ensures !ok ==> said == Error
    {
      ok := Await();
      if ok { cluster := cluster.(svc := true); }
      CreateServiceTakes(m, ok, m.pc.st);
      Note(ok, old(trace), if ok then PodGet(m.pc.st) else Idle);
    }

    method GetPod() returns (ok: bool, pod: Option<Pod>)
      requires Valid() && m.pc.PodGet?
      modifies this`cluster, this`clock, this`m, this`trace, this`said
      ensures Goes() && m.pc == if ok then SeenPod(old(m).pc.st, pod) else Idle
      ensures said == if !ok then Error else if pod.Some? && pod.value.phase.Pending? then Requeue(10) else Requeue(60)
    {
      ok := Await();
      pod := cluster.pod;
      GetPodTakes(m, ok, m.pc.st);
      Note(ok, old(trace), if ok then SeenPod(m.pc.st, pod) else Idle);
    }

    method NodeIsReady(n: Node) returns (ready: bool)
      requires Valid() && m.pc.NodeGet? && m.pc.n == n
      modifies this`cluster, this`clock, this`m, this`trace, this`said
      ensures Goes() && m.pc == NodeKnown(old(m).pc.st, n, ready)
      ensures said == Requeue(60)
    {
      var ok := Await();
      ready := ok && NodeReady(cluster.nodes, n);
      NodeIsReadyTakes(m, ok, m.pc.st, n);
      Note(ok, old(trace), NodeKnown(m.pc.st, n, ready));
    }

    /** A merge patch: it needs the ConfigMap to be there. */
    method SaveState() returns (saved: bool)
      requires Valid() && Saves(m.pc) == Some(st)
      modifies this`cluster, this`clock, this`m, this`trace, this`said
      ensures Goes() && m.pc == if saved then Saved(m.claim, old(m).pc) else Idle
      ensures if saved then old(m).pc.SaveRunning? ==> said == Requeue(60) else said == Error
    {
      var ok := Await();
      saved := ok && !cluster.cm.Absent?;
      if saved { cluster := cluster.(cm := Holds(st)); }
      SaveStateTakes(m, ok, st);
      Note(ok, old(trace), if saved then Saved(m.claim, m.pc) else Idle);
    }

    method ListWorkloads() returns (ok: bool, pods: seq<Workload>)
      requires Valid() && m.pc.EvictList?
      modifies this`cluster, this`clock, this`m, this`trace, this`said
      ensures Goes() && m.pc == WorkloadsListed(m.claim, old(m).pc.k, ok, pods)
      ensures !ok ==> said == Error
    {
      ok := Await();
      pods := cluster.workloads;
      ListWorkloadsTakes(m, ok, m.pc.k);
      Note(ok, old(trace), WorkloadsListed(m.claim, m.pc.k, ok, pods));
    }

    method DeleteWorkload(name: string) returns (ghost deleted: set<string>)
      requires Valid() && m.pc.Evict? && m.pc.todo != [] && m.pc.todo[0] == name
      modifies this`cluster, this`clock, this`m, this`trace, this`said
      ensures Goes() && m.pc == EvictNext(old(m).pc.k, old(m).pc.listed, old(m).pc.todo[1..], deleted)
    {
      var ok := Await();
      if ok { cluster := cluster.(workloads := MarkWorkload(cluster.workloads, name)); }
      deleted := Deleted(m.pc.todo, ok, m.pc.deleted);
      DeleteWorkloadTakes(m, ok, m.pc.k, m.pc.listed, m.pc.todo, m.pc.deleted);
      Note(ok, old(trace), EvictNext(m.pc.k, m.pc.listed, m.pc.todo[1..], deleted));
    }

    method BackingPvName() returns (pv: Option<string>)
      requires Valid() && (m.pc.DetachPv? || m.pc.CheckPv?)
      modifies this`cluster, this`clock, this`m, this`trace, this`said
      ensures Goes() && m.pc == BackingKnown(m.claim, old(m).pc, pv)
    {
      var ok := Await();
      pv := if ok then PvOf(cluster) else None;
      BackingPvNameTakes(m, ok);
      Note(ok, old(trace), BackingKnown(m.claim, m.pc, pv));
    }

    method ListAttachments() returns (ok: bool, vas: seq<Attachment>)
      requires Valid() && (m.pc.DetachList? || m.pc.CheckVas?)
      modifies this`cluster, this`clock, this`m, this`trace, this`said
      ensures Goes() && m.pc == AttachmentsListed(m.claim, old(m).pc, ok, vas)
      ensures said == if old(m).pc.CheckVas? then Requeue(3) else if old(m).pc.k.Missing? then Requeue(5) else Error
    {
      ok := Await();
      vas := cluster.vas;
      ListAttachmentsTakes(m, ok);
      Note(ok, old(trace), AttachmentsListed(m.claim, m.pc, ok, vas));
    }

    method DeleteAttachment(name: string)
      requires Valid() && m.pc.Detach? && m.pc.todo != [] && m.pc.todo[0] == name
      modifies this`cluster, this`clock, this`m, this`trace, this`said
      ensures Goes() && m.pc == DetachNext(m.claim, old(m).pc.k, old(m).pc.todo[1..])
    {
      var ok := Await();
      if ok { cluster := cluster.(vas := MarkAttachment(cluster.vas, name)); }
      DeleteAttachmentTakes(m, ok, m.pc.k, m.pc.todo);
      Note(ok, old(trace), DetachNext(m.claim, m.pc.k, m.pc.todo[1..]));
    }

    method DeletePod()
      requires Valid() && m.pc == PodDelete
      modifies this`cluster, this`clock, this`m, this`trace, this`said
      ensures Goes() && m.pc == Idle && said == Requeue(3)
    {
      var ok := Await();
      if ok && cluster.pod.Some? { cluster := cluster.(pod := Some(cluster.pod.value.(deleting := true))); }
      DeletePodTakes(m, ok);
      Note(ok, old(trace), Idle);
    }

    method ListShareManagers() returns (ok: bool, pods: PodListing)
      requires Valid() && m.pc.PickPods?
      modifies this`cluster, this`clock, this`m, this`trace, this`said
      ensures Goes() && m.pc == PodsListed(old(m).pc.st, old(m).pc.first, ok, pods)
      ensures said == Error
      ensures Quiet() ==> ok && pods == ShareManagerPods(old(m)) && Bare(m) == Bare(old(m))
    {
      ok := Await();
      pods := ShareManagerPods(cluster);
      ListShareManagersTakes(m, ok, m.pc.st, m.pc.first);
      Note(ok, old(trace), PodsListed(m.pc.st, m.pc.first, ok, pods));
    }

    method ListNodes() returns (ok: bool, nodes: seq<NodeInfo>)
      requires Valid() && m.pc.PickNodes?
      modifies this`cluster, this`clock, this`m, this`trace, this`said
      ensures Goes() && m.pc == NodesListed(old(m).pc.st, old(m).pc.pods, old(m).pc.first, ok, nodes)
      ensures said == Error
      ensures Quiet() ==> ok && nodes == old(m).nodes && Bare(m) == Bare(old(m))
    {
      ok := Await();
      nodes := cluster.nodes;
      ListNodesTakes(m, ok, m.pc.st, m.pc.pods, m.pc.first);
      Note(ok, old(trace), NodesListed(m.pc.st, m.pc.pods, m.pc.first, ok, nodes));
    }

    method CreatePod(n: Node) returns (ok: bool)
      requires Valid() && m.pc == FailoverModel.CreatePod(n)
      modifies this`cluster, this`clock, this`m, this`trace, this`said
      ensures Goes() && m.pc == Idle && said == (if ok then Requeue(5) else Error)
    {
      ok := Await();
      if ok && cluster.pod.None? { cluster := cluster.(pod := Some(Pod(n, false, Pending, false, true))); }
      CreatePodTakes(m, ok, n);
      Note(ok, old(trace), Idle);
    }

    // -------------------------------------------------------- the code

    method LoadOrCreateState() returns (ok: bool)
      requires Valid() && m.pc == LoadGet
      modifies this
      ensures Goes() && m.pc == if ok then SvcGet(st) else Idle
      ensures !ok ==> said == Error
    {
      var cm;
      ok, cm := GetState();
      if !ok { return; }
      match cm
      case Holds(s) => st := s;
      case Garbled => st := Fresh;
      case Absent =>
        st := Fresh;
        ok := CreateState();
    }

    method EnsureService() returns (ok: bool)
      requires Valid() && m.pc == SvcGet(st)
      modifies this`cluster, this`clock, this`m, this`trace, this`said
      ensures Goes() && m.pc == if ok then PodGet(st) else Idle
      ensures !ok ==> said == Error
    {
      var found;
      ok, found := GetService();
      if ok && found { return; }
      ok := CreateService();
    }

    /** Delete every listed attachment of the backing volume. */
    method ForceDetach(ghost k: Then) returns (ok: bool)
      requires Valid() && m.pc == DetachPv(k)
      modifies this`cluster, this`clock, this`m, this`trace, this`said
      ensures Goes() && m.pc == if ok then AfterDetach(m.claim, k) else Idle
      ensures !ok ==> said == if k.Missing? then Requeue(5) else Error
    {
      var pv := BackingPvName();
      if pv.None? { return true; }
      var vas;
      ok, vas := ListAttachments();
      if !ok { return; }
      DetachListed(k, vas, pv.value);
    }

    method DetachListed(ghost k: Then, vas: seq<Attachment>, pv: string)
      requires Valid() && m.pc == DetachNext(m.claim, k, AttachmentsOf(vas, pv))
      modifies this`cluster, this`clock, this`m, this`trace, this`said
      ensures Goes() && m.pc == AfterDetach(m.claim, k)
    {
      var rest := vas;
      while rest != []
        invariant Goes() && m.pc == DetachNext(m.claim, k, AttachmentsOf(rest, pv))
        decreases |rest|
      {
        DetachIfOurs(k, rest[0], pv, AttachmentsOf(rest[1..], pv));
        rest := rest[1..];
      }
    }

    method DetachIfOurs(ghost k: Then, va: Attachment, pv: string, ghost rest: seq<string>)
      requires Valid() && m.pc == DetachNext(m.claim, k, if va.pv == pv then [va.name] + rest else rest)
      modifies this`cluster, this`clock, this`m, this`trace, this`said
      ensures Goes() && m.pc == DetachNext(m.claim, k, rest)
    {
      if va.pv == pv {
        assert ([va.name] + rest)[1..] == rest;
        DeleteAttachment(va.name);
      }
    }

    method IsAttached() returns (attached: bool)
      requires Valid() && m.pc == CheckPv(st)
      modifies this`cluster, this`clock, this`m, this`trace, this`said
      ensures Goes() && m.pc == if attached then Idle else PickPods(TakeNode(st), true)
      ensures attached ==> said == Requeue(3)
    {
      var pv := BackingPvName();
      if pv.None? { return false; }
      var ok, vas := ListAttachments();
      attached := ok && AttachmentsOf(vas, pv.value) != [];
    }

    /** Delete every listed pod that mounts the claim. */
    method EvictWorkloads(ghost k: Then) returns (ok: bool)
      requires Valid() && m.pc == StartEvict(m.claim, k)
      modifies this`cluster, this`clock, this`m, this`trace, this`said
      ensures Goes() && m.pc == if ok then AfterEvict(k) else Idle
      ensures !ok ==> said == Error
    {
      var claim := cluster.claim;
      if claim.name == "" || claim.ns == "" { return true; }
      var pods;
      ok, pods := ListWorkloads();
      if !ok { return; }
      EvictListed(k, pods, claim.name);
    }

    method EvictListed(ghost k: Then, pods: seq<Workload>, claim: string)
      requires Valid() && m.pc == EvictNext(k, pods, Victims(pods, claim), {})
      modifies this`cluster, this`clock, this`m, this`trace, this`said
      ensures Goes() && m.pc == AfterEvict(k)
    {
      var rest := pods;
      ghost var deleted := {};
      while rest != []
        invariant Goes() && m.pc == EvictNext(k, pods, Victims(rest, claim), deleted)
        decreases |rest|
      {
        deleted := EvictIfMounting(k, pods, rest[0], claim, Victims(rest[1..], claim), deleted);
        rest := rest[1..];
      }
    }

    method EvictIfMounting(ghost k: Then, ghost listed: seq<Workload>, pod: Workload, claim: string,
                           ghost rest: seq<string>, ghost before: set<string>)
      returns (ghost deleted: set<string>)
      requires Valid()
      requires m.pc == EvictNext(k, listed, if claim in pod.claims then [pod.name] + rest else rest, before)
      modifies this`cluster, this`clock, this`m, this`trace, this`said
      ensures Goes() && m.pc == EvictNext(k, listed, rest, deleted)
    {
      deleted := before;
      if claim in pod.claims {
        assert ([pod.name] + rest)[1..] == rest;
        deleted := DeleteWorkload(pod.name);
      }
    }

    method TryPick(ghost first: bool) returns (r: Option<Node>)
      requires Valid() && m.pc == PickPods(st, first)
      modifies this`cluster, this`clock, this`m, this`trace, this`said
      ensures Goes() && m.pc == Chosen(st, r, first)
      ensures said == Error
      ensures Quiet() ==> r == PickNode(ShareManagerPods(old(m)), old(m).nodes, st.prior) && Bare(m) == Bare(old(m))
    {
      var ok, pods := ListShareManagers();
      if !ok { return None; }
      var nodes;
      ok, nodes := ListNodes();
      r := if ok then PickNode(pods, nodes, st.prior) else None;
    }

    /** Pick outside the history; failing that, forget all but its latest entry
        and pick again. */
    method PickNodeWithReset() returns (r: Option<Node>)
      requires Valid() && m.pc == PickPods(st, true)
      modifies this
      ensures Goes() && m.pc == Chosen(st, r, false)
      ensures said == Error
      ensures Quiet() ==> Picked(r, st.prior) == PickWithReset(ShareManagerPods(old(m)), old(m).nodes, old(st).prior)
    {
      r := TryPick(true);
      if r.None? && |st.prior| > 1 {
        st := st.(prior := Reset(st.prior));
        r := TryPick(false);
      }
    }

    /** `st.node.take()` with the push onto the history. */
    method RetireNode()
      modifies this`st
      ensures st == TakeNode(old(st))
    {
      if st.node.Some? {
        var n := st.node.value;
        st := st.(node := None);
        if n !in st.prior { st := st.(prior := st.prior + [n]); }
      }
    }

    method StartFailover() returns (r: Action)
      requires Valid() && m.pc == FailoverModel.StartFailover(st)
      modifies this
      ensures Goes() && m.pc == Idle && r == said
    {
      st := st.(stage := FailingOver);
      RetireNode();
      var ok := SaveState();
      if !ok { return Error; }
      r := Abandon();
    }

    /** Let go of the failed host: detach, evict, delete the pod. */
    method Abandon() returns (r: Action)
      requires Valid() && m.pc == DetachPv(Failing)
      modifies this`cluster, this`clock, this`m, this`trace, this`said
      ensures Goes() && m.pc == Idle && r == said
    {
      var ok := ForceDetach(Failing);
      if !ok { return Error; }
      ok := EvictWorkloads(Failing);
      if !ok { return Error; }
      DeletePod();
      r := Requeue(3);
    }

    method CheckRunning(host: Option<Node>) returns (r: Action)
      requires Valid() && m.pc == if host.Some? then NodeGet(st, host.value) else RecordRunning(st, None)
      requires host.None? ==> said == Requeue(60)
      requires m.pc == Idle ==> Spoken()
      modifies this
      ensures Goes() && m.pc == Idle && r == said && Spoken()
    {
      if host.Some? {
        var ready := NodeIsReady(host.value);
        if !ready {
          r := StartFailover();
          return;
        }
      }
      if st.stage != Serving || st.node != host {
        st := st.(node := host, stage := Serving);
        var ok := SaveState();
        if !ok { return Error; }
      }
      r := Requeue(60);
    }

    /** Recreate a missing pod: once evicted and detached, on a fresh node. */
    method Recreate() returns (r: Action)
      requires Valid() && m.pc == StartMissing(st)
      modifies this
      ensures Goes() && m.pc == Idle && r == said
    {
      var ok := RecordMissing();
      if !ok { return Error; }
      ok := ForceDetach(Missing(st));
      if !ok { return Requeue(5); }
      var attached := IsAttached();
      if attached { return Requeue(3); }
      r := Place();
    }

    /** The first pass to find the pod missing records that and evicts. */
    method RecordMissing() returns (ok: bool)
      requires Valid() && m.pc == StartMissing(st)
      modifies this
      ensures Goes() && m.pc == if ok then DetachPv(Missing(st)) else Idle
      ensures !ok ==> said == Error
    {
      if st.stage == FailingOver { return true; }
      st := st.(stage := FailingOver);
      ok := SaveState();
      if !ok { return; }
      ok := EvictWorkloads(Missing(st));
    }

    method Place() returns (r: Action)
      requires Valid() && m.pc == PickPods(TakeNode(st), true)
      modifies this
      ensures Goes() && m.pc == Idle && r == said
    {
      RetireNode();
      var node := PickNodeWithReset();
      if node.None? { return Error; }
      r := CommitTo(node.value);
    }

    /** Record the node first, then create the pod there. */
    method CommitTo(n: Node) returns (r: Action)
      requires Valid() && m.pc == SavePlaced(st.(node := Some(n), stage := Starting), n)
      modifies this
      ensures Goes() && m.pc == Idle && r == said
    {
      st := st.(node := Some(n), stage := Starting);
      var ok := SaveState();
      if !ok { return Error; }
      ok := CreatePod(n);
      r := if ok then Requeue(5) else Error;
    }

    method ReconcileBody() returns (r: Action)
      requires Valid() && m.pc == LoadGet
      modifies this
      ensures Goes() && m.pc == Idle && r == said
    {
      var ok := Prepare();
      if !ok { return Error; }
      var pod;
      ok, pod := GetPod();
      if !ok { return Error; }
      r := Respond(pod);
    }

    /** The record and the service have to be there first. */
    method Prepare() returns (ok: bool)
      requires Valid() && m.pc == LoadGet
      modifies this
      ensures Goes() && m.pc == if ok then PodGet(st) else Idle
      ensures !ok ==> said == Error
    {
      ok := LoadOrCreateState();
      if !ok { return; }
      ok := EnsureService();
    }

    /** What to do about the pod. */
    method Respond(pod: Option<Pod>) returns (r: Action)
      requires Valid() && m.pc == SeenPod(st, pod)
      requires pod.Some? ==> said == if pod.value.phase.Pending? then Requeue(10) else Requeue(60)
      requires m.pc == Idle ==> Spoken()
      modifies this
      ensures Goes() && m.pc == Idle && r == said && Spoken()
    {
      if pod.None? {
        r := Recreate();
        return;
      }
      match pod.value.phase
      case Running => r := CheckRunning(if pod.value.bound then Some(pod.value.target) else None);
      case Pending => r := Requeue(10);
      case _ => r := StartFailover();
    }

    lemma LastSpoke()
      requires Spoken()
      ensures said == Verdict(Run(start, trace[..|trace| - 1]), Last(trace).ok)
    {
      var w := Run(start, trace[..|trace| - 1]);
      LinkedIsRun(start, trace[..|trace| - 1], w);
      assert Shown(w);
    }

    /** One reconcile pass. Whatever moves and whatever fails meanwhile, it is a
        run of the step machine from one idle state to the next, and asks for what
        the machine's last call says; undisturbed, it is the pass of the machine. */
    method Reconcile() returns (r: Action)
      requires Valid() && m.pc == Idle
      modifies this
      ensures Valid() && m.pc == Idle && m.claim == old(m).claim
      ensures if old(m).terminating then m == old(m) && trace == old(trace) else Continues(old(trace) + [Begin], trace)
      ensures if old(m).terminating then r == AwaitChange
              else trace != [] && Last(trace).Answer? && r == Verdict(Run(start, trace[..|trace| - 1]), Last(trace).ok)
      ensures Quiet() ==> m == Pass(old(m))
    {
      if cluster.terminating { return AwaitChange; }
      LinkedStep(start, trace, m, Begin);
      ghost var begun := trace + [Begin];
      m, trace := Next(m, Begin), begun;
      r := ReconcileBody();
      LinkedIsRun(start, begun, Next(old(m), Begin));
      LinkedIsRun(start, trace, m);
      LastSpoke();
      if Quiet() { PassMade(old(m), begun); }
    }

    /** Undisturbed, what followed the beginning of the pass is its end. */
    lemma PassMade(before: World, begun: seq<Event>)
      requires Run(start, begun) == Next(before, Begin) && Run(start, trace) == m && m.pc == Idle
      requires Quiet() && Continues(begun, trace)
      ensures m == Pass(before)
    {
      forall i | |begun| <= i < |trace| ensures trace[i] == Answer(true) {
        assert MayOccur(trace[i]) && Shown(trace[i]);
      }
      AnswersFinish(start, begun, trace);
    }

    method Repeat(passes: nat)
      requires Valid() && m == start && m.pc == Idle && trace == []
      modifies this
      ensures Valid() && m.pc == Idle
      ensures forall j | 0 <= j < |trace| :: trace[j] == Begin || MayOccur(trace[j])
      ensures Quiet() ==> m == AfterPasses(start, passes)
    {
      var i := 0;
      while i < passes
        invariant 0 <= i <= passes && Valid() && m.pc == Idle
        invariant Quiet() ==> m == AfterPasses(start, i)
        invariant forall j | 0 <= j < |trace| :: trace[j] == Begin || MayOccur(trace[j])
      {
        var r := Reconcile();
        var ok := Await();
        i := i + 1;
      }
    }

    /** Any number of passes from a freshly bound claim, with the cluster moving
        during and between them. */
    method Serve(passes: nat)
      requires Valid() && JustBound(start) && m == start && trace == [] && Kept()
      modifies this
      ensures Valid() && m.pc == Idle
      ensures WellPlaced(cluster)
      ensures AllAnswered() && AlignedAtStart(start) ==> AttachedOnlyAtPod(cluster)
      ensures AllAnswered() && Named(start.claim) ==> EvictionSafety.PlacedAfterEviction(m.log)
      ensures Quiet() ==> cluster == Bare(AfterPasses(start, passes))
    {
      Repeat(passes);
      LinkedIsRun(start, trace, m);
      forall j | 0 <= j < |trace|
        ensures !trace[j].DriverDeletes? && !trace[j].DriverCreates? && trace[j] != Crash
        ensures AllAnswered() ==> trace[j] != Answer(false)
      {
        assert Shown(trace[j]);
      }
      RunsAreSafe(start, trace);
      if AllAnswered() { AnsweredRunsAreSafe(start, trace); }
    }
  }
}
