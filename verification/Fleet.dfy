/** All share-manager pods of the cluster. The CSI driver and the controller
    place them with the same picker: list the pods, list the nodes, create the
    pod; the scheduler binds it later (src/provision.rs, src/csi.rs,
    src/controller.rs). */
module Fleet {
  import opened Base
  import opened Placement

  type Volume = string

  /** What the picker can know of a pod: its node selector, and whether it is bound to it. */
  datatype Seat = Seat(target: Node, bound: bool)

  /** How far a placement has come; `avoid` is empty for the CSI driver. */
  datatype Pick = Listed(pods: PodListing, avoid: seq<Node>) | Chosen(n: Node)

  datatype Placer = Controller | Driver

  /** Pods and placements under way, of the controller and of the CSI driver. */
  datatype Fleet = Fleet(pods: map<Volume, Seat>, picks: map<Volume, Pick>, drives: map<Volume, Pick>)

  datatype Event =
    | ListPods(who: Placer, v: Volume, listing: PodListing, avoid: seq<Node>)
    | ListNodes(who: Placer, v: Volume, nodes: seq<NodeInfo>)
    | CreatePod(who: Placer, v: Volume)
    | GiveUp(who: Placer, v: Volume)       // the placement fails or its process dies
    | Bind(v: Volume)
    | Remove(v: Volume)

  function PicksBy(f: Fleet, who: Placer): map<Volume, Pick> {
    if who == Controller then f.picks else f.drives
  }

  function WithPicks(f: Fleet, who: Placer, picks: map<Volume, Pick>): Fleet {
    if who == Controller then f.(picks := picks) else f.(drives := picks)
  }

  ghost predicate Hosts(pods: map<Volume, Seat>, n: Node) {
    exists v :: v in pods && pods[v].bound && pods[v].target == n
  }

  /** A listing shows the hosts of the bound pods. */
  ghost predicate Shows(listing: PodListing, pods: map<Volume, Seat>) {
    forall n :: Some(n) in listing <==> Hosts(pods, n)
  }

  ghost function Next(f: Fleet, e: Event): Fleet {
    match e
    case ListPods(who, v, listing, avoid) =>
      if Shows(listing, f.pods) then WithPicks(f, who, PicksBy(f, who)[v := Listed(listing, avoid)]) else f
    case ListNodes(who, v, nodes) =>
      var picks := PicksBy(f, who);
      if v in picks && picks[v].Listed? then
        var r := PickNode(picks[v].pods, nodes, picks[v].avoid);
        WithPicks(f, who, if r.Some? then picks[v := Chosen(r.value)] else picks - {v})
      else f
    case CreatePod(who, v) =>
      var picks := PicksBy(f, who);
      if v in picks && picks[v].Chosen? then
        WithPicks(f.(pods := if v in f.pods then f.pods else f.pods[v := Seat(picks[v].n, false)]), who, picks - {v})
      else f
    case GiveUp(who, v) => WithPicks(f, who, PicksBy(f, who) - {v})
    case Bind(v) => if v in f.pods then f.(pods := f.pods[v := f.pods[v].(bound := true)]) else f
    case Remove(v) => f.(pods := f.pods - {v})
  }

  ghost function Run(f: Fleet, es: seq<Event>): Fleet {
    if es == [] then f else Next(Run(f, es[..|es| - 1]), Last(es))
  }

  /** No two pods are meant for the same node. */
  ghost predicate OneEach(pods: map<Volume, Seat>) {
    forall u, v | u in pods && v in pods && u != v :: pods[u].target != pods[v].target
  }

  /** A pick starts only when no other is under way and every pod is bound. */
  ghost predicate InTurn(f: Fleet, e: Event) {
    e.ListPods? ==> f.picks == map[] && f.drives == map[] && forall v | v in f.pods :: f.pods[v].bound
  }

  ghost predicate AllInTurn(f: Fleet, es: seq<Event>) {
    forall i | 0 <= i < |es| :: InTurn(Run(f, es[..i]), es[i])
  }

  /** A listing in use still shows every pod, and a chosen node is still free. */
  ghost predicate PickOk(p: Pick, pods: map<Volume, Seat>) {
    match p
    case Listed(listing, _) => forall u | u in pods :: Some(pods[u].target) in listing
    case Chosen(n) => forall u | u in pods :: pods[u].target != n
  }

  ghost predicate Inv(f: Fleet) {
    && OneEach(f.pods)
    && (f.picks == map[] || f.drives == map[])
    && AtMostOne(f.picks, f.pods) && AtMostOne(f.drives, f.pods)
  }

  ghost predicate AtMostOne(picks: map<Volume, Pick>, pods: map<Volume, Seat>) {
    && (forall u, v | u in picks && v in picks :: u == v)
    && (forall v | v in picks :: PickOk(picks[v], pods))
  }

  lemma ListingKeepsInv(f: Fleet, who: Placer, v: Volume, listing: PodListing, avoid: seq<Node>)
    requires Inv(f) && f.picks == map[] && f.drives == map[] && (forall u | u in f.pods :: f.pods[u].bound)
    ensures Inv(Next(f, ListPods(who, v, listing, avoid)))
  {
    if Shows(listing, f.pods) {
      forall u | u in f.pods ensures Some(f.pods[u].target) in listing { assert Hosts(f.pods, f.pods[u].target); }
    }
  }

  lemma CreationKeepsInv(f: Fleet, who: Placer, v: Volume)
    requires Inv(f)
    ensures Inv(Next(f, CreatePod(who, v)))
  {
  }

  lemma NextKeepsInv(f: Fleet, e: Event)
    requires Inv(f) && InTurn(f, e)
    ensures Inv(Next(f, e))
  {
    match e
    case ListPods(who, v, listing, avoid) => ListingKeepsInv(f, who, v, listing, avoid);
    case CreatePod(who, v) => CreationKeepsInv(f, who, v);
    case _ =>
  }

  /** One share-manager per node in every run in which each pick, creation and
      binding completes before the next pick. */
  lemma {:induction false} OnePerNode(f: Fleet, es: seq<Event>)
    requires OneEach(f.pods) && f.picks == map[] && f.drives == map[] && AllInTurn(f, es)
    ensures Inv(Run(f, es)) && OneEach(Run(f, es).pods)
  {
    if es == [] {
    } else {
      var front := es[..|es| - 1];
      forall i | 0 <= i < |front| ensures InTurn(Run(f, front[..i]), front[i]) { assert front[..i] == es[..i]; }
      OnePerNode(f, front);
      NextKeepsInv(Run(f, front), Last(es));
    }
  }

  /** A pod that is not bound yet is invisible to the picker. */
  lemma {:induction false} UnboundIsInvisible(pods: PodListing, nodes: seq<NodeInfo>, avoid: seq<Node>)
    ensures PickNode(pods + [None], nodes, avoid) == PickNode(pods, nodes, avoid)
  {
    if nodes == [] {
    } else {
      UnboundIsInvisible(pods, nodes[1..], avoid);
    }
  }

  function Attempt(who: Placer, v: Volume, n: Node): seq<Event> {
    [ListPods(who, v, [], []), ListNodes(who, v, [NodeInfo(n, true)]), CreatePod(who, v)]
  }

  lemma RunStep(f: Fleet, es: seq<Event>, e: Event)
    ensures Run(f, es + [e]) == Next(Run(f, es), e)
  {
    assert (es + [e])[..|es|] == es;
  }

  ghost predicate Quiet(f: Fleet) {
    f.picks == map[] && f.drives == map[] && forall u | u in f.pods :: !f.pods[u].bound
  }

  /** With no pod bound yet, every node looks free. */
  lemma AttemptChooses(g: Fleet, who: Placer, v: Volume, n: Node)
    requires Quiet(g)
    ensures Next(Next(g, Attempt(who, v, n)[0]), Attempt(who, v, n)[1]) == WithPicks(g, who, map[v := Chosen(n)])
  {
    assert Next(g, Attempt(who, v, n)[0]) == WithPicks(g, who, map[v := Listed([], [])]);
  }

  lemma AttemptCreates(g: Fleet, who: Placer, v: Volume, n: Node)
    requires Quiet(g) && v !in g.pods
    ensures var a := Attempt(who, v, n);
      Next(Next(Next(g, a[0]), a[1]), a[2]) == g.(pods := g.pods[v := Seat(n, false)])
  {
    AttemptChooses(g, who, v, n);
    var c := WithPicks(g, who, map[v := Chosen(n)]);
    assert Next(c, CreatePod(who, v)) == g.(pods := g.pods[v := Seat(n, false)]);
  }

  lemma RunThree(f: Fleet, es: seq<Event>, a: Event, b: Event, c: Event)
    ensures Run(f, es + [a] + [b] + [c]) == Next(Next(Next(Run(f, es), a), b), c)
  {
    RunStep(f, es, a);
    RunStep(f, es + [a], b);
    RunStep(f, es + [a] + [b], c);
  }

  lemma AttemptPlaces(f: Fleet, es: seq<Event>, who: Placer, v: Volume, n: Node)
    requires Quiet(Run(f, es)) && v !in Run(f, es).pods
    ensures Run(f, es + Attempt(who, v, n)) == Run(f, es).(pods := Run(f, es).pods[v := Seat(n, false)])
  {
    var a := Attempt(who, v, n);
    assert es + a == es + [a[0]] + [a[1]] + [a[2]];
    RunThree(f, es, a[0], a[1], a[2]);
    AttemptCreates(Run(f, es), who, v, n);
  }

  /** So the binding has to be awaited: two complete attempts, one after the
      other and by whichever placer, put any two volumes on any node when the
      first is not bound in time. */
  lemma UnboundPodsCollide(who: Placer, a: Volume, who': Placer, b: Volume, n: Node)
    requires a != b
    ensures var f := Run(Fleet(map[], map[], map[]), Attempt(who, a, n) + Attempt(who', b, n));
      && f == Fleet(map[a := Seat(n, false), b := Seat(n, false)], map[], map[])
      && !OneEach(f.pods)
  {
    var none := Fleet(map[], map[], map[]);
    assert [] + Attempt(who, a, n) == Attempt(who, a, n);
    AttemptPlaces(none, [], who, a, n);
    AttemptPlaces(none, Attempt(who, a, n), who', b, n);
    var pods := map[a := Seat(n, false), b := Seat(n, false)];
    assert a in pods && b in pods;
  }
}
