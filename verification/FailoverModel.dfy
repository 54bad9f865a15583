/** The failover controller (src/controller.rs) for one bound claim, as a state
    machine in which every API call is one atomic step. Between two calls the
    controller may crash and the cluster may move: the kubelet changes phases,
    nodes come, go and flap, the attacher adds and removes attachments, a pod
    deletion lags behind its request. */
module FailoverModel {
  import opened Base
  import opened Placement

  // ---------------------------------------------------------------- records

  datatype Stage = Starting | Serving | FailingOver | OtherStage

  /** The record kept in the volume's state ConfigMap. */
  datatype ShareState = ShareState(node: Option<Node>, prior: seq<Node>, stage: Stage)

  const Fresh := ShareState(None, [], Starting)

  /** The state ConfigMap; `Garbled` holds text that does not parse. */
  datatype StateCm = Absent | Garbled | Holds(st: ShareState)

  /** The history a pick would avoid if the recorded node failed now. */
  function History(st: ShareState): seq<Node> {
    if st.node.Some? && st.node.value !in st.prior then st.prior + [st.node.value] else st.prior
  }

  /** `st.node.take()` followed by the push onto `prior_nodes`. */
  function TakeNode(st: ShareState): ShareState {
    st.(node := None, prior := History(st))
  }

  // ---------------------------------------------------------------- cluster

  datatype Attachment = Attachment(name: string, pv: string, node: Node, deleting: bool)

  datatype Workload = Workload(name: string, claims: set<string>, deleting: bool)

  datatype Backing = NoClaim | Unbound | Bound(pv: string)

  datatype Claim = Claim(name: string, ns: string)

  // ------------------------------------------------- the controller's program

  /** What to do after detaching and evicting: finish `start_failover`, or
      recreate a missing pod with the record in hand. */
  datatype Then = Failing | Missing(st: ShareState)

  datatype Pc =
    | Idle
    | LoadGet
    | LoadCreate
    | SvcGet(st: ShareState)
    | SvcCreate(st: ShareState)
    | PodGet(st: ShareState)
    | NodeGet(st: ShareState, n: Node)
    | SaveRunning(st: ShareState)
    | SaveFailing(st: ShareState)
    | SaveMissing(st: ShareState)
    | EvictList(k: Then)
    | Evict(k: Then, listed: seq<Workload>, todo: seq<string>, deleted: set<string>)
    | DetachPv(k: Then)
    | DetachList(k: Then, pv: string)
    | Detach(k: Then, todo: seq<string>)
    | PodDelete
    | CheckPv(st: ShareState)
    | CheckVas(st: ShareState, pv: string)
    | PickPods(st: ShareState, first: bool)
    | PickNodes(st: ShareState, pods: PodListing, first: bool)
    | SavePlaced(st: ShareState, n: Node)
    | CreatePod(n: Node)

  /** What an outside observer notes down; no step reads it. */
  datatype Entry = Placed(n: Node) | Evicted(listed: seq<Workload>, deleted: set<string>)

  datatype World = World(
    claim: Claim,
    terminating: bool,
    cm: StateCm,
    svc: bool,
    pod: Option<Pod>,
    backing: Backing,
    vas: seq<Attachment>,
    nodes: seq<NodeInfo>,
    others: PodListing,        // share-manager pods of the other volumes
    workloads: seq<Workload>,  // pods in the claim's namespace
    pc: Pc,
    trail: seq<Node>,          // the first host recorded, then every host placed on, in order
    log: seq<Entry>)

  function Stored(w: World): ShareState {
    if w.cm.Holds? then w.cm.st else Fresh
  }

  // ------------------------------------------------------------ small helpers

  function Victims(pods: seq<Workload>, claim: string): seq<string> {
    if pods == [] then []
    else (if claim in pods[0].claims then [pods[0].name] else []) + Victims(pods[1..], claim)
  }

  function AttachmentsOf(vas: seq<Attachment>, pv: string): seq<string> {
    if vas == [] then []
    else (if vas[0].pv == pv then [vas[0].name] else []) + AttachmentsOf(vas[1..], pv)
  }

  function MarkAttachment(vas: seq<Attachment>, name: string): seq<Attachment> {
    seq(|vas|, i requires 0 <= i < |vas| => if vas[i].name == name then vas[i].(deleting := true) else vas[i])
  }

  function MarkWorkload(pods: seq<Workload>, name: string): seq<Workload> {
    seq(|pods|, i requires 0 <= i < |pods| => if pods[i].name == name then pods[i].(deleting := true) else pods[i])
  }

  /** The label selector lists this volume's pod together with all others. */
  function ShareManagerPods(w: World): PodListing {
    if w.pod.Some? then [HostOf(w.pod.value)] + w.others else w.others
  }

  predicate Named(claim: Claim) {
    claim.name != "" && claim.ns != ""
  }

  function Rest<T>(s: seq<T>): seq<T> {
    if s == [] then [] else s[1..]
  }

  // ------------------------------------------------------------- the program

  /** `start_failover` begins by saving the record. */
  function StartFailover(st: ShareState): Pc {
    SaveFailing(TakeNode(st).(stage := FailingOver))
  }

  /** The pod runs on `host`: save that unless it is on record. */
  function RecordRunning(st: ShareState, host: Option<Node>): Pc {
    if st.stage != Serving || st.node != host then SaveRunning(st.(node := host, stage := Serving)) else Idle
  }

  /** The pod is gone: the first pass to see that records it and evicts. */
  function StartMissing(st: ShareState): Pc {
    if st.stage != FailingOver then SaveMissing(st.(stage := FailingOver)) else DetachPv(Missing(st))
  }

  function SeenPod(st: ShareState, pod: Option<Pod>): Pc {
    match pod
    case None => StartMissing(st)
    case Some(p) =>
      match p.phase
      case Running => if p.bound then NodeGet(st, p.target) else RecordRunning(st, None)
      case Pending => Idle
      case _ => StartFailover(st)
  }

  function StartEvict(claim: Claim, k: Then): Pc {
    if Named(claim) then EvictList(k) else AfterEvict(k)
  }

  function EvictNext(k: Then, listed: seq<Workload>, todo: seq<string>, deleted: set<string>): Pc {
    if todo == [] then AfterEvict(k) else Evict(k, listed, todo, deleted)
  }

  function AfterEvict(k: Then): Pc {
    if k.Failing? then PodDelete else DetachPv(k)
  }

  function DetachNext(claim: Claim, k: Then, todo: seq<string>): Pc {
    if todo == [] then AfterDetach(claim, k) else Detach(k, todo)
  }

  function AfterDetach(claim: Claim, k: Then): Pc {
    if k.Failing? then StartEvict(claim, k) else CheckPv(k.st)
  }

  /** An attempt to pick: success, a second attempt with the history cut, or failure. */
  function Chosen(st: ShareState, r: Option<Node>, first: bool): Pc {
    if r.Some? then SavePlaced(st.(node := r, stage := Starting), r.value)
    else if first && |st.prior| > 1 then PickPods(st.(prior := Reset(st.prior)), false)
    else Idle
  }

  /** `save_state` is a merge patch, which fails when the ConfigMap is gone. */
  predicate CanSave(w: World, ok: bool) {
    ok && !w.cm.Absent?
  }

  /** What the victims deleted so far become when one more deletion is answered or fails. */
  function Deleted(todo: seq<string>, ok: bool, deleted: set<string>): set<string> {
    if ok && todo != [] then deleted + {todo[0]} else deleted
  }

  /** The program: the call that follows the one in progress. */
  function NextCall(w: World, ok: bool): Pc {
    match w.pc
    case Idle => Idle
    case LoadGet => if !ok then Idle else if w.cm.Absent? then LoadCreate else SvcGet(Stored(w))
    case LoadCreate => if ok then SvcGet(Fresh) else Idle
    case SvcGet(st) => if ok && w.svc then PodGet(st) else SvcCreate(st)
    case SvcCreate(st) => if ok then PodGet(st) else Idle
    case PodGet(st) => if ok then SeenPod(st, w.pod) else Idle
    case NodeGet(st, n) => if ok && NodeReady(w.nodes, n) then RecordRunning(st, Some(n)) else StartFailover(st)
    case SaveRunning(_) => Idle
    case SaveFailing(_) => if CanSave(w, ok) then DetachPv(Failing) else Idle
    case SaveMissing(st) => if CanSave(w, ok) then StartEvict(w.claim, Missing(st)) else Idle
    case EvictList(k) => if ok then EvictNext(k, w.workloads, Victims(w.workloads, w.claim.name), {}) else Idle
    case Evict(k, listed, todo, deleted) => EvictNext(k, listed, Rest(todo), Deleted(todo, ok, deleted))
    case DetachPv(k) => if ok && w.backing.Bound? then DetachList(k, w.backing.pv) else AfterDetach(w.claim, k)
    case DetachList(k, pv) => if ok then DetachNext(w.claim, k, AttachmentsOf(w.vas, pv)) else Idle
    case Detach(k, todo) => DetachNext(w.claim, k, Rest(todo))
    case PodDelete => Idle
    case CheckPv(st) => if ok && w.backing.Bound? then CheckVas(st, w.backing.pv) else PickPods(TakeNode(st), true)
    case CheckVas(st, pv) => if ok && AttachmentsOf(w.vas, pv) != [] then Idle else PickPods(TakeNode(st), true)
    case PickPods(st, first) => if ok then PickNodes(st, ShareManagerPods(w), first) else Chosen(st, None, first)
    case PickNodes(st, pods, first) => Chosen(st, if ok then PickNode(pods, w.nodes, st.prior) else None, first)
    case SavePlaced(_, n) => if CanSave(w, ok) then CreatePod(n) else Idle
    case CreatePod(_) => Idle
  }

  // ------------------------------------------- what the calls do to the cluster

  /** The record a saving call writes. */
  function Saves(pc: Pc): Option<ShareState> {
    match pc
    case SaveRunning(st) => Some(st)
    case SaveFailing(st) => Some(st)
    case SaveMissing(st) => Some(st)
    case SavePlaced(st, _) => Some(st)
    case _ => None
  }

  function CallCm(w: World, ok: bool): StateCm {
    if w.pc.LoadCreate? && ok && w.cm.Absent? then Holds(Fresh)
    else if Saves(w.pc).Some? && CanSave(w, ok) then Holds(Saves(w.pc).value)
    else w.cm
  }

  function CallPod(w: World, ok: bool): Option<Pod> {
    if w.pc.PodDelete? && ok && w.pod.Some? then Some(w.pod.value.(deleting := true))
    else if w.pc.CreatePod? && ok && w.pod.None? then Some(Pod(w.pc.n, false, Pending, false, true))
    else w.pod
  }

  function CallVas(w: World, ok: bool): seq<Attachment> {
    if w.pc.Detach? && ok && w.pc.todo != [] then MarkAttachment(w.vas, w.pc.todo[0]) else w.vas
  }

  function CallWorkloads(w: World, ok: bool): seq<Workload> {
    if w.pc.Evict? && ok && w.pc.todo != [] then MarkWorkload(w.workloads, w.pc.todo[0]) else w.workloads
  }

  function CallTrail(w: World, ok: bool): seq<Node> {
    if !CanSave(w, ok) then w.trail
    else if w.pc.SaveRunning? && w.trail == [] && w.pc.st.node.Some? then [w.pc.st.node.value]
    else if w.pc.SavePlaced? then w.trail + [w.pc.n]
    else w.trail
  }

  function CallLog(w: World, ok: bool): seq<Entry> {
    match w.pc
    case EvictList(_) =>
      if ok && Victims(w.workloads, w.claim.name) == [] then w.log + [Evicted(w.workloads, {})] else w.log
    case Evict(_, listed, todo, deleted) =>
      if |todo| <= 1 then w.log + [Evicted(listed, Deleted(todo, ok, deleted))] else w.log
    case SavePlaced(_, n) => if CanSave(w, ok) then w.log + [Placed(n)] else w.log
    case _ => w.log
  }

  /** One API call of the pass in progress; `ok` is false when the call fails
      with anything but "not found" or "already exists". */
  function Call(w: World, ok: bool): World {
    w.(pc := NextCall(w, ok),
       cm := CallCm(w, ok),
       svc := w.svc || (w.pc.SvcCreate? && ok),
       pod := CallPod(w, ok),
       vas := CallVas(w, ok),
       workloads := CallWorkloads(w, ok),
       trail := CallTrail(w, ok),
       log := CallLog(w, ok))
  }

  /** What a pass asks for when it is over; an error is retried as well. */
  datatype Action = Requeue(seconds: nat) | AwaitChange | Error

  /** What it asks for when this call ends it. */
  function Verdict(w: World, ok: bool): Action {
    match w.pc
    case PodGet(_) =>
      if !ok then Error else if w.pod.Some? && w.pod.value.phase.Pending? then Requeue(10) else Requeue(60)
    case NodeGet(_, _) => Requeue(60)
    case SaveRunning(_) => if CanSave(w, ok) then Requeue(60) else Error
    case DetachList(k, _) => if k.Missing? then Requeue(5) else Error
    case CheckVas(_, _) => Requeue(3)
    case PodDelete => Requeue(3)
    case CreatePod(_) => if ok then Requeue(5) else Error
    case _ => Error
  }

  // ------------------------------------------------------- stages of a pass

  /** The pass has yet to look at the pod. */
  predicate Looking(pc: Pc) {
    pc.LoadGet? || pc.LoadCreate? || pc.SvcGet? || pc.SvcCreate? || pc.PodGet?
  }

  predicate Loaded(pc: Pc) {
    !pc.Idle? && !pc.LoadGet? && !pc.LoadCreate?
  }

  predicate Sweeps(pc: Pc) {
    pc.EvictList? || pc.Evict? || pc.DetachPv? || pc.DetachList? || pc.Detach?
  }

  /** The pass is failing over from the pod it has seen. */
  predicate Fails(pc: Pc) {
    pc.SaveFailing? || pc.PodDelete? || (Sweeps(pc) && pc.k.Failing?)
  }

  /** Unhealthy: dead, or running on a node that is not ready. */
  predicate Unhealthy(w: World) {
    && w.pod.Some?
    && (|| w.pod.value.phase in {Failed, Unknown, Succeeded}
        || (w.pod.value.phase.Running? && w.pod.value.bound && !NodeReady(w.nodes, w.pod.value.target)))
  }

  /** `x` can take the next placement. */
  predicate Spare(w: World, x: Node) {
    && Eligible(w.others, w.nodes, x)
    && (History(Stored(w)) != [] ==> Last(History(Stored(w))) != x)
    && (w.pod.Some? ==> w.pod.value.target != x)
  }

  // -------------------------------------------------------------- all events

  datatype Object = ThePod | TheBackingClaim | TheService | TheStateCm

  datatype Event =
    | Begin                                    // a reconcile pass starts
    | Answer(ok: bool)                         // its next API call is answered
    | Crash
    | PodBinds
    | PodPhase(phase: Phase)
    | PodDeletes                               // someone else deletes the pod
    | PodVanishes                              // the pod object is gone
    | NodesChange(nodes: seq<NodeInfo>)
    | OthersChange(others: PodListing)
    | WorkloadsChange(workloads: seq<Workload>)
    | ClaimBinds(pv: string)                   // the backing claim gets its volume
    | Attaches(va: Attachment)
    | AttachmentDeletes(name: string)          // someone else deletes an attachment
    | Detaches(name: string)                   // the attachment object is gone
    | Terminates                               // the claim is marked for deletion
    | DriverCreates(n: Node)                   // CreateVolume creates the pod
    | DriverDeletes(obj: Object)               // a step of DeleteVolume

  function PvOf(w: World): Option<string> {
    if w.backing.Bound? then Some(w.backing.pv) else None
  }

  /** The attacher attaches the backing volume only where its pod runs, and a
      volume that is being bound is not attached yet. */
  predicate Enabled(w: World, e: Event) {
    match e
    case Begin => w.pc == Idle && !w.terminating
    case PodBinds => w.pod.Some?
    case PodPhase(_) => w.pod.Some? && w.pod.value.bound
    case PodDeletes => w.pod.Some?
    case ClaimBinds(pv) => w.backing.Unbound? && AttachmentsOf(w.vas, pv) == []
    case Attaches(va) => PvOf(w) == Some(va.pv) ==> w.pod.Some? && w.pod.value.bound && w.pod.value.target == va.node
    case _ => true
  }

  function WithoutAttachment(vas: seq<Attachment>, name: string): seq<Attachment> {
    if vas == [] then []
    else (if vas[0].name == name then [] else [vas[0]]) + WithoutAttachment(vas[1..], name)
  }

  function Next(w: World, e: Event): World {
    if !Enabled(w, e) then w else
    match e
    case Begin => w.(pc := LoadGet)
    case Answer(ok) => Call(w, ok)
    case Crash => w.(pc := Idle)
    case PodBinds => w.(pod := Some(w.pod.value.(bound := true)))
    case PodPhase(p) => w.(pod := Some(w.pod.value.(phase := p)))
    case PodDeletes => w.(pod := Some(w.pod.value.(deleting := true)))
    case PodVanishes => w.(pod := None)
    case NodesChange(ns) => w.(nodes := ns)
    case OthersChange(ps) => w.(others := ps)
    case WorkloadsChange(ws) => w.(workloads := ws)
    case ClaimBinds(pv) => w.(backing := Bound(pv))
    case Attaches(va) => w.(vas := w.vas + [va])
    case AttachmentDeletes(name) => w.(vas := MarkAttachment(w.vas, name))
    case Detaches(name) => w.(vas := WithoutAttachment(w.vas, name))
    case Terminates => w.(terminating := true)
    case DriverCreates(n) => w.(pod := if w.pod.None? then Some(Pod(n, false, Pending, false, false)) else w.pod)
    case DriverDeletes(obj) => DriverDelete(w, obj)
  }

  function DriverDelete(w: World, obj: Object): World {
    match obj
    case ThePod => if w.pod.Some? then w.(pod := Some(w.pod.value.(deleting := true))) else w
    case TheBackingClaim => w.(backing := NoClaim)
    case TheService => w.(svc := false)
    case TheStateCm => w.(cm := Absent)
  }

  function Run(w: World, es: seq<Event>): World {
    if es == [] then w else Next(Run(w, es[..|es| - 1]), Last(es))
  }

  lemma RunOne(w: World, e: Event)
    ensures Run(w, [e]) == Next(w, e)
  {
    assert [e][..0] == [];
    assert Run(w, []) == w;
  }

  lemma {:induction false} RunAppend(w: World, es: seq<Event>, fs: seq<Event>)
    ensures Run(w, es + fs) == Run(Run(w, es), fs)
  {
    if fs == [] {
      assert es + fs == es;
    } else {
      assert (es + fs)[..|es + fs| - 1] == es + fs[..|fs| - 1];
      RunAppend(w, es, fs[..|fs| - 1]);
    }
  }

  /** Every event of the run satisfies `c` in the state it happens in. */
  ghost predicate Throughout(w: World, es: seq<Event>, c: (World, Event) -> bool) {
    forall i | 0 <= i < |es| :: c(Run(w, es[..i]), es[i])
  }

  lemma ThroughoutPrefix(w: World, es: seq<Event>, c: (World, Event) -> bool)
    requires es != [] && Throughout(w, es, c)
    ensures Throughout(w, es[..|es| - 1], c) && c(Run(w, es[..|es| - 1]), Last(es))
  {
    var front := es[..|es| - 1];
    forall i | 0 <= i < |front| ensures c(Run(w, front[..i]), front[i]) {
      assert front[..i] == es[..i] && front[i] == es[i];
    }
  }

  /** Some event of the run satisfies `c` in the state it happens in. */
  ghost predicate Occurs(w: World, es: seq<Event>, c: (World, Event) -> bool) {
    if es == [] then false
    else Occurs(w, es[..|es| - 1], c) || c(Run(w, es[..|es| - 1]), Last(es))
  }
}
