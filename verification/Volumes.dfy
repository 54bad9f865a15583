/** Many volumes in one cluster: objects are found by name, attachments and
    nodes are shared, each volume has its own controller program, and the CSI
    driver places pods call by call. Seen from one volume, everything the others
    do is something that happens around it. */
module Volumes {
  import opened Base
  import opened Placement
  import opened Names
  import opened KeyOrder
  import opened FailoverModel
  import Fleet

  /** What belongs to one volume alone: its claim and the program working on it. */
  datatype Local = Local(
    claim: Claim,
    terminating: bool,
    workloads: seq<Workload>,
    pc: Pc,
    trail: seq<Node>,
    log: seq<Entry>)

  /** Objects by name; a name that is not there reads as absent. */
  datatype Cluster = Cluster(
    pods: map<string, Option<Pod>>,
    cms: map<string, StateCm>,
    svcs: map<string, bool>,
    backings: map<string, Backing>,
    vas: seq<Attachment>,
    nodes: seq<NodeInfo>,
    volumes: map<string, Local>,
    drivers: map<string, Fleet.Pick>)  // placements the CSI driver has under way

  function At<T>(m: map<string, T>, name: string, none: T): T {
    if name in m then m[name] else none
  }

  function PodName(id: string): string {
    SharePodName(VolumeName(id))
  }

  function CmName(id: string): string {
    StateCmName(VolumeName(id))
  }

  function ClaimName(id: string): string {
    BackingClaimName(VolumeName(id))
  }

  /** The listing of share-manager pods under the given names. */
  function Listing(pods: map<string, Option<Pod>>, names: seq<string>): PodListing {
    if names == [] then []
    else
      var p := At(pods, names[0], None);
      (if p.Some? then [HostOf(p.value)] else []) + Listing(pods, names[1..])
  }

  /** The other volumes' pods, in the order of their names. */
  function Others(pods: map<string, Option<Pod>>, own: string): PodListing {
    Listing(pods, Ascending(pods.Keys - {own}))
  }

  /** The cluster as the controller of one volume deals with it. */
  function View(c: Cluster, id: string): World
    requires id in c.volumes
  {
    var l := c.volumes[id];
    World(l.claim, l.terminating, At(c.cms, CmName(id), Absent), At(c.svcs, VolumeName(id), false),
          At(c.pods, PodName(id), None), At(c.backings, ClaimName(id), NoClaim),
          c.vas, c.nodes, Others(c.pods, PodName(id)), l.workloads, l.pc, l.trail, l.log)
  }

  /** The cluster after a step that left volume `id` at `w`. */
  function Put(c: Cluster, id: string, w: World): Cluster {
    c.(pods := c.pods[PodName(id) := w.pod],
       cms := c.cms[CmName(id) := w.cm],
       svcs := c.svcs[VolumeName(id) := w.svc],
       backings := c.backings[ClaimName(id) := w.backing],
       vas := w.vas,
       nodes := w.nodes,
       volumes := c.volumes[id := Local(w.claim, w.terminating, w.workloads, w.pc, w.trail, w.log)])
  }

  /** Something happens to volume `id`. What its other volumes' pods do happens to those. */
  function Step(c: Cluster, id: string, e: Event): Cluster {
    if id in c.volumes && !e.OthersChange? then Put(c, id, Next(View(c, id), e)) else c
  }

  // ------------------------------------------------------------- own objects

  /** A volume none of whose names is taken has nothing yet. */
  lemma NothingYet(c: Cluster, id: string)
    requires id in c.volumes && VolumeName(id) !in c.svcs
    requires PodName(id) !in c.pods && CmName(id) !in c.cms && ClaimName(id) !in c.backings
    ensures var w := View(c, id);
      w.pod == None && w.cm == Absent && !w.svc && w.backing == NoClaim
  {
  }

  lemma OthersKept(pods: map<string, Option<Pod>>, own: string, p: Option<Pod>)
    ensures Others(pods[own := p], own) == Others(pods, own)
  {
    assert pods[own := p].Keys - {own} == pods.Keys - {own};
    SameListing(pods, pods[own := p], Ascending(pods.Keys - {own}));
  }

  lemma {:induction false} SameListing(a: map<string, Option<Pod>>, b: map<string, Option<Pod>>, names: seq<string>)
    requires forall n | n in names :: At(a, n, None) == At(b, n, None)
    ensures Listing(a, names) == Listing(b, names)
  {
    if names == [] {
    } else {
      assert names[0] in names;
      SameListing(a, b, names[1..]);
    }
  }

  /** A step of a volume is a step of its machine. */
  lemma OwnStep(c: Cluster, id: string, e: Event)
    requires id in c.volumes && !e.OthersChange?
    ensures View(Step(c, id, e), id) == Next(View(c, id), e)
  {
    var w := Next(View(c, id), e);
    OthersUnmoved(View(c, id), e);
    OthersKept(c.pods, PodName(id), w.pod);
  }

  lemma OthersUnmoved(w: World, e: Event)
    requires !e.OthersChange?
    ensures Next(w, e).others == w.others
  {
  }

  // -------------------------------------------------------- other objects

  /** Two volumes share no object. */
  ghost predicate Apart(a: string, b: string) {
    !SameUpToDashes(a, b)
  }

  /** No step of one volume changes the pod, the service, the backing claim, the
      state ConfigMap or the program of another, unless their ids agree up to
      '.', '_' and '-'. */
  lemma ObjectsIsolated(c: Cluster, a: string, b: string, e: Event)
    requires a in c.volumes && b in c.volumes && Apart(a, b)
    ensures var after := Step(c, a, e);
      View(after, b) ==
        View(c, b).(vas := after.vas, nodes := after.nodes, others := Others(after.pods, PodName(b)))
  {
    SelfCollides(a);
    NamesCollide(a, b);
  }

  lemma SelfCollides(a: string)
    ensures !Apart(a, a)
  {
  }

  /** And if they do agree, the two share all of them. */
  lemma ObjectsShared(c: Cluster, a: string, b: string)
    requires a in c.volumes && b in c.volumes && !Apart(a, b)
    ensures var v, w := View(c, a), View(c, b);
      v.pod == w.pod && v.cm == w.cm && v.svc == w.svc && v.backing == w.backing
  {
    NamesCollide(a, b);
  }

  // ------------------------------------------- one volume's share of a whole run

  /** What a step of one volume looks like to the others. */
  function Relay(w: World, e: Event): seq<Event> {
    match e
    case Answer(ok) => if w.pc.Detach? && ok && w.pc.todo != [] then [AttachmentDeletes(w.pc.todo[0])] else []
    case NodesChange(_) => [e]
    case Attaches(_) => [e]
    case AttachmentDeletes(_) => [e]
    case Detaches(_) => [e]
    case _ => []
  }

  /** At most one event is relayed. */
  lemma RelayRun(w: World, v: World, e: Event)
    ensures Run(v, Relay(w, e)) == if Relay(w, e) == [] then v else Next(v, Relay(w, e)[0])
  {
    var es := Relay(w, e);
    if es == [] {
    } else {
      RunOne(v, es[0]);
      assert es == [es[0]];
    }
  }

  lemma RelayCall(w: World, v: World, ok: bool)
    requires v.vas == w.vas && v.nodes == w.nodes
    ensures Run(v, Relay(w, Answer(ok))) == v.(vas := Call(w, ok).vas, nodes := Call(w, ok).nodes)
  {
    RelayRun(w, v, Answer(ok));
  }

  lemma RelayStep(w: World, v: World, e: Event)
    requires v.vas == w.vas && v.nodes == w.nodes && (e.Attaches? ==> Enabled(w, e) && Enabled(v, e))
    ensures Run(v, Relay(w, e)) == v.(vas := Next(w, e).vas, nodes := Next(w, e).nodes)
  {
    if e.Answer? { RelayCall(w, v, e.ok); } else { RelayRun(w, v, e); }
  }

  /** What a step of volume `a` means to volume `b`. */
  function Echo(c: Cluster, a: string, e: Event, b: string): seq<Event>
    requires a in c.volumes
  {
    if e.OthersChange? then []
    else if a == b then [e]
    else Relay(View(c, a), e) + [OthersChange(Others(Step(c, a, e).pods, PodName(b)))]
  }

  /** The attacher's rule holds for every volume. */
  ghost predicate Permitted(c: Cluster, a: string, e: Event) {
    a in c.volumes && (e.Attaches? ==> forall b | b in c.volumes :: Enabled(View(c, b), e))
  }

  ghost predicate AllApart(c: Cluster) {
    forall a, b | a in c.volumes && b in c.volumes && a != b :: Apart(a, b)
  }

  lemma OthersSeen(v: World, others: PodListing)
    ensures Run(v, [OthersChange(others)]) == v.(others := others)
  {
    RunOne(v, OthersChange(others));
  }

  lemma EchoOther(c: Cluster, a: string, e: Event, b: string)
    requires a != b && Apart(a, b) && Permitted(c, a, e) && b in c.volumes && !e.OthersChange?
    ensures View(Step(c, a, e), b) == Run(View(c, b), Echo(c, a, e, b))
  {
    var v, w, after := View(c, b), View(c, a), Step(c, a, e);
    var others := Others(after.pods, PodName(b));
    ObjectsIsolated(c, a, b, e);
    RelayStep(w, v, e);
    OthersSeen(v.(vas := after.vas, nodes := after.nodes), others);
    RunAppend(v, Relay(w, e), [OthersChange(others)]);
  }

  lemma EchoOwn(c: Cluster, a: string, e: Event)
    requires a in c.volumes && !e.OthersChange?
    ensures View(Step(c, a, e), a) == Run(View(c, a), Echo(c, a, e, a))
  {
    OwnStep(c, a, e);
    RunOne(View(c, a), e);
  }

  lemma VolumesStay(c: Cluster, a: string, e: Event)
    ensures Step(c, a, e).volumes.Keys == c.volumes.Keys
  {
  }

  lemma EchoStep(c: Cluster, a: string, e: Event, b: string)
    requires AllApart(c) && Permitted(c, a, e) && b in c.volumes
    ensures b in Step(c, a, e).volumes && View(Step(c, a, e), b) == Run(View(c, b), Echo(c, a, e, b))
  {
    if e.OthersChange? {
      assert Run(View(c, b), []) == View(c, b);
    } else if a == b {
      EchoOwn(c, a, e);
    } else {
      EchoOther(c, a, e, b);
    }
  }

  // -------------------------------------------------- the CSI driver's placements

  /** The calls with which `create_volume` places a pod; a failed one ends it. */
  datatype DriverCall = ListsPods(ok: bool) | ListsNodes(ok: bool) | CreatesPod(ok: bool)

  /** A step of a controller or of its surroundings, or a call of the CSI driver. */
  datatype Happening = Happens(id: string, e: Event) | Drives(id: string, call: DriverCall)

  /** The placement the driver has under way for this volume after its next call. */
  function NextDrive(c: Cluster, id: string, call: DriverCall): Option<Fleet.Pick> {
    match call
    case ListsPods(ok) =>
      if ok && id in c.volumes then Some(Fleet.Listed(ShareManagerPods(View(c, id)), [])) else None
    case ListsNodes(ok) =>
      if ok && id in c.drivers && c.drivers[id].Listed? then
        var n := PickNode(c.drivers[id].pods, c.nodes, c.drivers[id].avoid);
        if n.Some? then Some(Fleet.Chosen(n.value)) else None
      else None
    case CreatesPod(_) => None
  }

  /** `m` with what is known about `k` replaced. */
  function With<T>(m: map<string, T>, k: string, v: Option<T>): map<string, T> {
    if v.Some? then m[k := v.value] else m - {k}
  }

  /** What a happening does to its volume: the driver's create puts the pod on the chosen node. */
  function EventOf(c: Cluster, h: Happening): Option<Event> {
    match h
    case Happens(_, e) => Some(e)
    case Drives(id, call) =>
      if call == CreatesPod(true) && id in c.drivers && c.drivers[id].Chosen? then Some(DriverCreates(c.drivers[id].n))
      else None
  }

  function Occur(c: Cluster, h: Happening): Cluster {
    var e := EventOf(c, h);
    var after := if e.Some? then Step(c, h.id, e.value) else c;
    if h.Drives? then after.(drivers := With(c.drivers, h.id, NextDrive(c, h.id, h.call))) else after
  }

  /** Pods of the driver come from its own calls only. */
  ghost predicate MayOccur(c: Cluster, h: Happening) {
    && h.id in c.volumes
    && (h.Happens? ==> !h.e.DriverCreates?)
    && (EventOf(c, h).Some? ==> Permitted(c, h.id, EventOf(c, h).value))
  }

  function EchoOf(c: Cluster, h: Happening, b: string): seq<Event>
    requires h.id in c.volumes
  {
    if EventOf(c, h).Some? then Echo(c, h.id, EventOf(c, h).value, b) else []
  }

  lemma OccurEchoes(c: Cluster, h: Happening, b: string)
    requires AllApart(c) && MayOccur(c, h) && b in c.volumes
    ensures Occur(c, h).volumes.Keys == c.volumes.Keys
    ensures View(Occur(c, h), b) == Run(View(c, b), EchoOf(c, h, b))
  {
    var e := EventOf(c, h);
    if e.Some? {
      VolumesStay(c, h.id, e.value);
      EchoStep(c, h.id, e.value, b);
    } else {
      assert Run(View(c, b), []) == View(c, b);
    }
  }

  /** A call of the driver that fails ends the placement and leaves the cluster as it is. */
  lemma FailedDriverCall(c: Cluster, id: string, call: DriverCall)
    requires !call.ok
    ensures Occur(c, Drives(id, call)) == c.(drivers := c.drivers - {id})
  {
  }

  lemma DriverLists(c: Cluster, id: string)
    requires id in c.volumes
    ensures Occur(c, Drives(id, ListsPods(true)))
      == c.(drivers := c.drivers[id := Fleet.Listed(ShareManagerPods(View(c, id)), [])])
  {
  }

  lemma DriverChooses(c: Cluster, id: string, pods: PodListing, n: Node)
    requires id in c.drivers && c.drivers[id] == Fleet.Listed(pods, []) && PickNode(pods, c.nodes, []) == Some(n)
    ensures Occur(c, Drives(id, ListsNodes(true))) == c.(drivers := c.drivers[id := Fleet.Chosen(n)])
  {
  }

  lemma DriverAsks(c: Cluster, id: string, n: Node)
    requires id in c.volumes && id in c.drivers && c.drivers[id] == Fleet.Chosen(n)
    ensures var r := Occur(c, Drives(id, CreatesPod(true)));
      && id in r.volumes && r.drivers == c.drivers - {id}
      && View(r, id) == Next(View(c, id), DriverCreates(n))
  {
    OwnStep(c, id, DriverCreates(n));
    LooksSame(Step(c, id, DriverCreates(n)), id, c.drivers - {id});
  }

  /** No volume sees how far the driver's placements have come. */
  lemma LooksSame(c: Cluster, id: string, drivers: map<string, Fleet.Pick>)
    requires id in c.volumes
    ensures View(c.(drivers := drivers), id) == View(c, id)
  {
  }

  lemma DriverPicks(c: Cluster, id: string, n: Node)
    requires id in c.volumes && View(c, id).pod == None && PickNode(View(c, id).others, c.nodes, []) == Some(n)
    ensures Occur(Occur(c, Drives(id, ListsPods(true))), Drives(id, ListsNodes(true)))
      == c.(drivers := c.drivers[id := Fleet.Chosen(n)])
  {
    var others := View(c, id).others;
    var listed := c.(drivers := c.drivers[id := Fleet.Listed(others, [])]);
    DriverLists(c, id);
    DriverChooses(listed, id, others, n);
    assert listed.drivers[id := Fleet.Chosen(n)] == c.drivers[id := Fleet.Chosen(n)];
  }

  /** The driver's three calls, undisturbed, create the missing pod on the node
      that the picker takes without a history, and change nothing else. */
  lemma DriverPlaces(c: Cluster, id: string, n: Node)
    requires id in c.volumes && View(c, id).pod == None && PickNode(View(c, id).others, c.nodes, []) == Some(n)
    ensures var chosen := Occur(Occur(c, Drives(id, ListsPods(true))), Drives(id, ListsNodes(true)));
      var r := Occur(chosen, Drives(id, CreatesPod(true)));
      && id in r.volumes && r.drivers == c.drivers - {id}
      && View(r, id) == View(c, id).(pod := Some(Pod(n, false, Pending, false, false)))
  {
    DriverPicks(c, id, n);
    var chosen := c.(drivers := c.drivers[id := Fleet.Chosen(n)]);
    DriverAsks(chosen, id, n);
    LooksSame(c, id, chosen.drivers);
    assert chosen.drivers - {id} == c.drivers - {id};
  }

  ghost function RunAll(c: Cluster, hs: seq<Happening>): Cluster {
    if hs == [] then c else Occur(RunAll(c, hs[..|hs| - 1]), Last(hs))
  }

  ghost predicate AllPermitted(c: Cluster, hs: seq<Happening>) {
    forall i | 0 <= i < |hs| :: MayOccur(RunAll(c, hs[..i]), hs[i])
  }

  lemma PermittedPrefix(c: Cluster, hs: seq<Happening>)
    requires hs != [] && AllPermitted(c, hs)
    ensures AllPermitted(c, hs[..|hs| - 1])
    ensures MayOccur(RunAll(c, hs[..|hs| - 1]), Last(hs))
  {
    var front := hs[..|hs| - 1];
    forall i | 0 <= i < |front| ensures MayOccur(RunAll(c, front[..i]), front[i]) {
      assert front[..i] == hs[..i] && front[i] == hs[i];
    }
  }

  /** The run of the whole cluster as volume `b` experiences it. */
  ghost function Share(c: Cluster, hs: seq<Happening>, b: string): seq<Event>
    requires AllPermitted(c, hs)
  {
    if hs == [] then []
    else
      PermittedPrefix(c, hs);
      Share(c, hs[..|hs| - 1], b) + EchoOf(RunAll(c, hs[..|hs| - 1]), Last(hs), b)
  }

  /** Every run of all controllers and of the CSI driver together is, for each
      volume, a run of that volume's own machine. So what holds of every run of
      the machine holds of every volume of the cluster, at the same time. */
  lemma {:induction false} EveryVolumeRuns(c: Cluster, hs: seq<Happening>, b: string)
    requires AllApart(c) && AllPermitted(c, hs) && b in c.volumes
    ensures RunAll(c, hs).volumes.Keys == c.volumes.Keys
    ensures View(RunAll(c, hs), b) == Run(View(c, b), Share(c, hs, b))
  {
    if hs == [] {
    } else {
      var front, last := hs[..|hs| - 1], Last(hs);
      PermittedPrefix(c, hs);
      EveryVolumeRuns(c, front, b);
      OccurEchoes(RunAll(c, front), last, b);
      RunAppend(View(c, b), Share(c, front, b), EchoOf(RunAll(c, front), last, b));
    }
  }
}
