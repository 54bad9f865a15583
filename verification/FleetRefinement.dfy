/** The calls of all controllers and of the CSI driver are moves of the fleet:
    so no two share-managers end up on one node. */
module FleetRefinement {
  import opened Base
  import opened Placement
  import opened KeyOrder
  import opened FailoverModel
  import opened Volumes
  import Fleet
  import Names

  function SeatOf(pod: Option<Pod>): Option<Fleet.Seat> {
    if pod.Some? then Some(Fleet.Seat(pod.value.target, pod.value.bound)) else None
  }

  /** How far the placement in progress has come, if there is one. */
  function PickOf(pc: Pc): Option<Fleet.Pick> {
    match pc
    case PickNodes(st, pods, _) => Some(Fleet.Listed(pods, st.prior))
    case SavePlaced(_, n) => Some(Fleet.Chosen(n))
    case CreatePod(n) => Some(Fleet.Chosen(n))
    case _ => None
  }

  type Pods = map<string, Option<Pod>>

  /** The seats of the volumes `ids`, whose pods go by the names `name`. */
  function Seats(pods: Pods, ids: set<string>, name: string -> string): map<string, Fleet.Seat> {
    map id | id in ids && At(pods, name(id), None).Some? :: SeatOf(At(pods, name(id), None)).value
  }

  function Picks(volumes: map<string, Local>): map<string, Fleet.Pick> {
    map id | id in volumes && PickOf(volumes[id].pc).Some? :: PickOf(volumes[id].pc).value
  }

  function FleetOf(c: Cluster): Fleet.Fleet {
    Fleet.Fleet(Seats(c.pods, c.volumes.Keys, PodName), Picks(c.volumes), c.drivers)
  }

  lemma SeatsAfter(pods: Pods, ids: set<string>, name: string -> string, a: string, p: Option<Pod>)
    requires a in ids && forall b | b in ids && b != a :: name(b) != name(a)
    ensures Seats(pods[name(a) := p], ids, name) == With(Seats(pods, ids, name), a, SeatOf(p))
  {
  }

  lemma PicksAfter(volumes: map<string, Local>, a: string, l: Local)
    requires a in volumes
    ensures Picks(volumes[a := l]) == With(Picks(volumes), a, PickOf(l.pc))
  {
  }

  function After(f: Fleet.Fleet, a: string, w: World): Fleet.Fleet {
    f.(pods := With(f.pods, a, SeatOf(w.pod)), picks := With(f.picks, a, PickOf(w.pc)))
  }

  /** A step changes the fleet at its own volume only. */
  lemma FleetAfter(c: Cluster, a: string, w: World)
    requires AllApart(c) && a in c.volumes
    ensures FleetOf(Put(c, a, w)) == After(FleetOf(c), a, w)
  {
    forall b | b in c.volumes && b != a ensures PodName(b) != PodName(a) { Names.NamesCollide(b, a); }
    var l := Local(w.claim, w.terminating, w.workloads, w.pc, w.trail, w.log);
    assert c.volumes[a := l].Keys == c.volumes.Keys;
    SeatsAfter(c.pods, c.volumes.Keys, PodName, a, w.pod);
    PicksAfter(c.volumes, a, l);
  }

  // -------------------------------------------------------- what a listing shows

  /** Every share-manager pod belongs to a volume. */
  ghost predicate OnlyVolumes(pods: Pods, ids: set<string>, name: string -> string) {
    forall x | x in pods && pods[x].Some? :: exists id :: id in ids && name(id) == x
  }

  ghost predicate Hosted(p: Option<Pod>, n: Node) {
    p.Some? && HostOf(p.value) == Some(n)
  }

  ghost predicate ListedAs(p: Option<Pod>, host: Option<Node>) {
    p.Some? && HostOf(p.value) == host
  }

  /** A listing has the hosts of the pods that are there, and no host for one that is not bound. */
  lemma {:induction false} ListsExactly(pods: Pods, names: seq<string>, host: Option<Node>)
    ensures host in Listing(pods, names) <==> exists x :: x in names && ListedAs(At(pods, x, None), host)
  {
    if names == [] {
    } else {
      ListsExactly(pods, names[1..], host);
      assert names == [names[0]] + names[1..];
    }
  }

  lemma Lists(pods: Pods, names: seq<string>, n: Node)
    ensures Some(n) in Listing(pods, names) <==> exists x :: x in names && Hosted(At(pods, x, None), n)
  {
    ListsExactly(pods, names, Some(n));
    assert forall x :: ListedAs(At(pods, x, None), Some(n)) == Hosted(At(pods, x, None), n);
  }

  lemma SeatsHost(pods: Pods, ids: set<string>, name: string -> string, n: Node)
    ensures Fleet.Hosts(Seats(pods, ids, name), n) <==> exists id :: id in ids && Hosted(At(pods, name(id), None), n)
  {
    var seats := Seats(pods, ids, name);
    forall id | id in ids && Hosted(At(pods, name(id), None), n)
      ensures id in seats && seats[id].bound && seats[id].target == n { }
  }

  /** One's own pod and the others together show the hosts of all bound pods. */
  lemma ListingShows(pods: Pods, ids: set<string>, name: string -> string, a: string, n: Node)
    requires a in ids && OnlyVolumes(pods, ids, name)
    ensures var seats := Seats(pods, ids, name);
      Hosted(At(pods, name(a), None), n) || Some(n) in Others(pods, name(a)) <==> Fleet.Hosts(seats, n)
  {
    var names := Ascending(pods.Keys - {name(a)});
    Lists(pods, names, n);
    SeatsHost(pods, ids, name, n);
    assert forall x :: x in names <==> x in ToSet(names);
    if Some(n) in Others(pods, name(a)) {
      var x :| x in names && Hosted(At(pods, x, None), n);
      var id :| id in ids && name(id) == x;
    }
    forall id | id in ids && Hosted(At(pods, name(id), None), n) && name(id) != name(a)
      ensures name(id) in names { }
  }

  // ---------------------------------------------------- every step is a fleet move

  /** The fleet move a step of volume `a` makes, if any. */
  function Move(a: string, w: World, e: Event): Option<Fleet.Event> {
    match e
    case Answer(ok) =>
      (match w.pc
       case PickPods(st, _) =>
         if ok then Some(Fleet.ListPods(Fleet.Controller, a, ShareManagerPods(w), st.prior)) else None
       case PickNodes(_, _, _) =>
         Some(if ok then Fleet.ListNodes(Fleet.Controller, a, w.nodes) else Fleet.GiveUp(Fleet.Controller, a))
       case SavePlaced(_, _) => if CanSave(w, ok) then None else Some(Fleet.GiveUp(Fleet.Controller, a))
       case CreatePod(_) => Some(if ok then Fleet.CreatePod(Fleet.Controller, a) else Fleet.GiveUp(Fleet.Controller, a))
       case _ => None)
    case Crash => Some(Fleet.GiveUp(Fleet.Controller, a))
    case PodBinds => Some(Fleet.Bind(a))
    case PodVanishes => Some(Fleet.Remove(a))
    case _ => None
  }

  /** The fleet knows of volume `a` what its view `w` shows. */
  ghost predicate Matches(f: Fleet.Fleet, a: string, w: World) {
    After(f, a, w) == f
  }

  ghost function Moved(f: Fleet.Fleet, m: Option<Fleet.Event>): Fleet.Fleet {
    if m.Some? then Fleet.Next(f, m.value) else f
  }

  /** A call that neither begins nor ends a placement leaves seat and pick alone. */
  lemma OtherCall(w: World, ok: bool)
    requires !w.pc.PickPods? && PickOf(w.pc) == None
    ensures PickOf(NextCall(w, ok)) == None && SeatOf(CallPod(w, ok)) == SeatOf(w.pod)
  {
  }

  lemma ListingMoves(f: Fleet.Fleet, a: string, w: World, ok: bool)
    requires Matches(f, a, w) && w.pc.PickPods? && Fleet.Shows(ShareManagerPods(w), f.pods)
    ensures After(f, a, Call(w, ok)) == Moved(f, Move(a, w, Answer(ok)))
  {
    assert CallPod(w, ok) == w.pod;
  }

  lemma ChoosingMoves(f: Fleet.Fleet, a: string, w: World, ok: bool)
    requires Matches(f, a, w) && w.pc.PickNodes?
    ensures After(f, a, Call(w, ok)) == Moved(f, Move(a, w, Answer(ok)))
  {
    assert CallPod(w, ok) == w.pod;
  }

  lemma PlacingMoves(f: Fleet.Fleet, a: string, w: World, ok: bool)
    requires Matches(f, a, w) && (w.pc.SavePlaced? || w.pc.CreatePod?)
    ensures After(f, a, Call(w, ok)) == Moved(f, Move(a, w, Answer(ok)))
  {
  }

  lemma CallMoves(f: Fleet.Fleet, a: string, w: World, ok: bool)
    requires Matches(f, a, w) && (w.pc.PickPods? ==> Fleet.Shows(ShareManagerPods(w), f.pods))
    ensures After(f, a, Call(w, ok)) == Moved(f, Move(a, w, Answer(ok)))
  {
    if w.pc.PickPods? { ListingMoves(f, a, w, ok); }
    else if w.pc.PickNodes? { ChoosingMoves(f, a, w, ok); }
    else if w.pc.SavePlaced? || w.pc.CreatePod? { PlacingMoves(f, a, w, ok); }
    else { OtherCall(w, ok); }
  }

  lemma EventMoves(f: Fleet.Fleet, a: string, w: World, e: Event)
    requires Matches(f, a, w) && !e.Answer? && !e.DriverCreates?
    ensures After(f, a, Next(w, e)) == Moved(f, Move(a, w, e))
  {
    if Move(a, w, e).None? { OtherEvent(a, w, e); }
  }

  lemma OtherEvent(a: string, w: World, e: Event)
    requires !e.Answer? && !e.DriverCreates? && Move(a, w, e).None?
    ensures SeatOf(Next(w, e).pod) == SeatOf(w.pod) && PickOf(Next(w, e).pc) == PickOf(w.pc)
  {
  }

  // ------------------------------------------------ so is every call of the driver

  /** The fleet move a call of the driver makes, if any. */
  function DriverMove(c: Cluster, a: string, call: DriverCall): Fleet.Event
    requires a in c.volumes
  {
    match call
    case ListsPods(ok) =>
      if ok then Fleet.ListPods(Fleet.Driver, a, ShareManagerPods(View(c, a)), []) else Fleet.GiveUp(Fleet.Driver, a)
    case ListsNodes(ok) =>
      if ok && a in c.drivers && c.drivers[a].Listed? then Fleet.ListNodes(Fleet.Driver, a, c.nodes)
      else Fleet.GiveUp(Fleet.Driver, a)
    case CreatesPod(ok) =>
      if ok && a in c.drivers && c.drivers[a].Chosen? then Fleet.CreatePod(Fleet.Driver, a)
      else Fleet.GiveUp(Fleet.Driver, a)
  }

  lemma DrivesOnly(c: Cluster, drivers: map<string, Fleet.Pick>)
    ensures FleetOf(c.(drivers := drivers)) == FleetOf(c).(drives := drivers)
  {
  }

  /** A call that creates no pod concerns the driver's own placement only. */
  lemma DriverLooks(c: Cluster, f: Fleet.Fleet, a: string, call: DriverCall)
    requires a in c.volumes && EventOf(c, Drives(a, call)) == None && f.drives == c.drivers
    requires Fleet.Shows(ShareManagerPods(View(c, a)), f.pods)
    ensures Fleet.Next(f, DriverMove(c, a, call)) == f.(drives := With(c.drivers, a, NextDrive(c, a, call)))
  {
  }

  /** The create puts the pod on the chosen node, unless one exists. */
  lemma DriverPlaces(f: Fleet.Fleet, a: string, w: World, n: Node)
    requires Matches(f, a, w) && a in f.drives && f.drives[a] == Fleet.Chosen(n)
    ensures After(f, a, Next(w, DriverCreates(n))).(drives := f.drives - {a})
      == Fleet.Next(f, Fleet.CreatePod(Fleet.Driver, a))
  {
  }

  // ------------------------------------------------------------- the whole cluster

  /** Share-manager pods belong to volumes; the fleet is in order. */
  ghost predicate InOrder(c: Cluster) {
    AllApart(c) && OnlyVolumes(c.pods, c.volumes.Keys, PodName) && Fleet.Inv(FleetOf(c))
  }

  /** A listing of the pods for a placement, by the controller or by the driver. */
  predicate ListsForPlacement(c: Cluster, h: Happening)
    requires h.id in c.volumes
  {
    match h
    case Happens(id, e) => c.volumes[id].pc.PickPods? && e == Answer(true)
    case Drives(_, call) => call == ListsPods(true)
  }

  /** A placement starts only when no other is under way and every pod is bound. */
  ghost predicate Serial(c: Cluster, h: Happening) {
    h.id in c.volumes && ListsForPlacement(c, h) ==>
      var f := FleetOf(c);
      f.picks == map[] && f.drives == map[] && forall v | v in f.pods :: f.pods[v].bound
  }

  lemma ViewMatches(c: Cluster, a: string)
    requires a in c.volumes
    ensures Matches(FleetOf(c), a, View(c, a))
  {
  }

  lemma ViewShows(c: Cluster, a: string)
    requires a in c.volumes && OnlyVolumes(c.pods, c.volumes.Keys, PodName)
    ensures Fleet.Shows(ShareManagerPods(View(c, a)), FleetOf(c).pods)
  {
    forall n ensures Some(n) in ShareManagerPods(View(c, a)) <==> Fleet.Hosts(FleetOf(c).pods, n) {
      ListingShows(c.pods, c.volumes.Keys, PodName, a, n);
    }
  }

  lemma PutKeepsNames(c: Cluster, a: string, w: World)
    requires a in c.volumes && OnlyVolumes(c.pods, c.volumes.Keys, PodName)
    ensures OnlyVolumes(Put(c, a, w).pods, Put(c, a, w).volumes.Keys, PodName)
  {
    NamesGrow(c.pods, c.volumes.Keys, PodName, a, w.pod);
    assert Put(c, a, w).volumes.Keys == c.volumes.Keys;
  }

  lemma NamesGrow(pods: Pods, ids: set<string>, name: string -> string, a: string, p: Option<Pod>)
    requires a in ids && OnlyVolumes(pods, ids, name)
    ensures OnlyVolumes(pods[name(a) := p], ids, name)
  {
  }

  lemma MoveKeepsInv(f: Fleet.Fleet, a: string, w: World, e: Event)
    requires Fleet.Inv(f) && Matches(f, a, w) && Fleet.Shows(ShareManagerPods(w), f.pods)
    requires Move(a, w, e).Some? ==> Fleet.InTurn(f, Move(a, w, e).value)
    requires !e.DriverCreates?
    ensures Fleet.Inv(After(f, a, Next(w, e)))
  {
    if e.Answer? { CallMoves(f, a, w, e.ok); } else { EventMoves(f, a, w, e); }
    var m := Move(a, w, e);
    if m.Some? { Fleet.NextKeepsInv(f, m.value); }
  }

  lemma StepKeepsNames(c: Cluster, a: string, e: Event)
    requires AllApart(c) && OnlyVolumes(c.pods, c.volumes.Keys, PodName)
    ensures var after := Step(c, a, e);
      && after.volumes.Keys == c.volumes.Keys && AllApart(after)
      && OnlyVolumes(after.pods, after.volumes.Keys, PodName)
  {
    VolumesStay(c, a, e);
    if a in c.volumes && !e.OthersChange? { PutKeepsNames(c, a, Next(View(c, a), e)); }
  }

  lemma MoveLists(a: string, w: World, e: Event)
    ensures Move(a, w, e).Some? && Move(a, w, e).value.ListPods? ==> w.pc.PickPods? && e == Answer(true)
  {
  }

  lemma HappeningKeepsFleet(c: Cluster, a: string, e: Event)
    requires InOrder(c) && a in c.volumes && Serial(c, Happens(a, e)) && !e.DriverCreates? && !e.OthersChange?
    ensures Fleet.Inv(FleetOf(Put(c, a, Next(View(c, a), e))))
  {
    var w := View(c, a);
    ViewMatches(c, a);
    ViewShows(c, a);
    MoveLists(a, w, e);
    MoveKeepsInv(FleetOf(c), a, w, e);
    FleetAfter(c, a, Next(w, e));
  }

  /** A step of a controller or of its surroundings keeps the fleet in order. */
  lemma HappeningKeepsOrder(c: Cluster, a: string, e: Event)
    requires InOrder(c) && Serial(c, Happens(a, e)) && !e.DriverCreates?
    ensures InOrder(Step(c, a, e))
  {
    StepKeepsNames(c, a, e);
    if a in c.volumes && !e.OthersChange? { HappeningKeepsFleet(c, a, e); }
  }

  lemma LookKeepsOrder(c: Cluster, a: string, call: DriverCall)
    requires InOrder(c) && a in c.volumes && Serial(c, Drives(a, call)) && EventOf(c, Drives(a, call)) == None
    ensures InOrder(Occur(c, Drives(a, call)))
  {
    ViewShows(c, a);
    DriverLooks(c, FleetOf(c), a, call);
    Fleet.NextKeepsInv(FleetOf(c), DriverMove(c, a, call));
    DrivesOnly(c, With(c.drivers, a, NextDrive(c, a, call)));
  }

  lemma PlaceKeepsOrder(c: Cluster, a: string, n: Node)
    requires InOrder(c) && a in c.volumes && a in c.drivers && c.drivers[a] == Fleet.Chosen(n)
    ensures InOrder(Step(c, a, DriverCreates(n)).(drivers := c.drivers - {a}))
  {
    var f, after := FleetOf(c), Step(c, a, DriverCreates(n));
    ViewMatches(c, a);
    DriverPlaces(f, a, View(c, a), n);
    FleetAfter(c, a, Next(View(c, a), DriverCreates(n)));
    DrivesOnly(after, c.drivers - {a});
    StepKeepsNames(c, a, DriverCreates(n));
    Fleet.NextKeepsInv(f, Fleet.CreatePod(Fleet.Driver, a));
  }

  /** So does every call of the driver. */
  lemma DriveKeepsOrder(c: Cluster, a: string, call: DriverCall)
    requires InOrder(c) && a in c.volumes && Serial(c, Drives(a, call))
    ensures InOrder(Occur(c, Drives(a, call)))
  {
    if EventOf(c, Drives(a, call)) == None { LookKeepsOrder(c, a, call); }
    else { PlaceKeepsOrder(c, a, c.drivers[a].n); }
  }

  lemma OccurKeepsOrder(c: Cluster, h: Happening)
    requires InOrder(c) && MayOccur(c, h) && Serial(c, h)
    ensures InOrder(Occur(c, h))
  {
    if h.Happens? { HappeningKeepsOrder(c, h.id, h.e); } else { DriveKeepsOrder(c, h.id, h.call); }
  }

  ghost predicate AllSerial(c: Cluster, hs: seq<Happening>) {
    forall i | 0 <= i < |hs| :: Serial(RunAll(c, hs[..i]), hs[i])
  }

  lemma SerialPrefix(c: Cluster, hs: seq<Happening>)
    requires hs != [] && AllSerial(c, hs)
    ensures AllSerial(c, hs[..|hs| - 1]) && Serial(RunAll(c, hs[..|hs| - 1]), Last(hs))
  {
    var front := hs[..|hs| - 1];
    forall i | 0 <= i < |front| ensures Serial(RunAll(c, front[..i]), front[i]) {
      assert front[..i] == hs[..i] && front[i] == hs[i];
    }
  }

  lemma {:induction false} RunKeepsOrder(c: Cluster, hs: seq<Happening>)
    requires InOrder(c) && AllPermitted(c, hs) && AllSerial(c, hs)
    ensures InOrder(RunAll(c, hs))
  {
    if hs == [] {
    } else {
      var front := hs[..|hs| - 1];
      PermittedPrefix(c, hs);
      SerialPrefix(c, hs);
      RunKeepsOrder(c, front);
      OccurKeepsOrder(RunAll(c, front), Last(hs));
    }
  }

  /** One share-manager per node, in every run of all controllers and of the CSI
      driver, call by call, in which each pick, creation and binding completes
      before the next pick; anything may move between the calls. */
  lemma OneShareManagerPerNode(c: Cluster, hs: seq<Happening>, a: string, b: string)
    requires InOrder(c) && AllPermitted(c, hs) && AllSerial(c, hs) && a in c.volumes && b in c.volumes && a != b
    ensures a in RunAll(c, hs).volumes && b in RunAll(c, hs).volumes
    ensures var p, q := View(RunAll(c, hs), a).pod, View(RunAll(c, hs), b).pod;
      p.Some? && q.Some? ==> p.value.target != q.value.target
  {
    RunKeepsOrder(c, hs);
    EveryVolumeRuns(c, hs, a);
    var seats := FleetOf(RunAll(c, hs)).pods;
    var p, q := View(RunAll(c, hs), a).pod, View(RunAll(c, hs), b).pod;
    if p.Some? && q.Some? { assert a in seats && b in seats; }
  }
}
