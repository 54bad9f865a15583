/** CreateVolume and DeleteVolume (src/csi.rs): objects created and deleted call
    by call, with bounded polling while the cluster moves underneath. */
module VolumeDriver {
  import opened Base
  import opened Placement
  import opened Names
  import opened Capacity

  datatype Kind = KPod | KClaim | KService | KStateCm

  /** A write request sent to the API server, whether or not it takes effect. */
  datatype Write =
    | Creates(kind: Kind, name: string)
    | Places(kind: Kind, name: string, node: Node)  // the creation of a pod
    | Deletes(kind: Kind, name: string)

  datatype Result = Created(id: string, bytes: int) | Internal | DeadlineExceeded

  type Pods = map<string, Pod>

  function NameOf(kind: Kind, id: string): string {
    var vn := VolumeName(id);
    match kind
    case KPod => SharePodName(vn)
    case KClaim => BackingClaimName(vn)
    case KService => vn
    case KStateCm => StateCmName(vn)
  }

  /** Every write is about an object of volume `id`. */
  ghost predicate OnlyAbout(writes: seq<Write>, id: string) {
    forall i | 0 <= i < |writes| :: writes[i].name == NameOf(writes[i].kind, id)
  }

  /** Writes about one volume never name an object of another, unless the ids
      agree up to '.', '_' and '-'. */
  lemma VolumesAreIsolated(writes: seq<Write>, a: string, b: string)
    requires OnlyAbout(writes, a) && !SameUpToDashes(a, b)
    ensures forall i | 0 <= i < |writes| :: writes[i].name != NameOf(writes[i].kind, b)
  {
    NamesCollide(a, b);
  }

  predicate IsNamed(w: Write, claim: string, service: string, pod: string) {
    match w.kind
    case KPod => w.name == pod
    case KClaim => w.name == claim
    case KService => w.name == service
    case KStateCm => false
  }

  ghost predicate Named(writes: seq<Write>, claim: string, service: string, pod: string) {
    forall i | 0 <= i < |writes| :: IsNamed(writes[i], claim, service, pod)
  }

  /** No claim and no service is deleted. */
  ghost predicate NoTeardown(writes: seq<Write>) {
    forall i | 0 <= i < |writes| :: writes[i].Deletes? ==> writes[i].kind == KPod
  }

  ghost predicate Runs(pods: Pods, pod: string) {
    pod in pods && pods[pod].phase == Running
  }

  ghost predicate Occupied(pods: Pods, n: Node) {
    exists p :: p in pods && pods[p].bound && pods[p].target == n
  }

  /** The deletions that undo a creation, in the order they are sent. */
  function CleanUpOf(id: string): seq<Write> {
    [Deletes(KPod, NameOf(KPod, id)), Deletes(KClaim, NameOf(KClaim, id)), Deletes(KService, NameOf(KService, id))]
  }

  // -------------------------------------------------- the pods, call by call

  /** What others make of the pods before call i. */
  type Drift = (nat, Pods) -> Pods

  /** Whether call i is answered. */
  type Answers = nat -> bool

  /** The pods, and the calls made so far. */
  datatype Moment = Moment(pods: Pods, clock: nat)

  /** One more call. */
  function Moved(drift: Drift, m: Moment): Moment {
    Moment(drift(m.clock, m.pods), m.clock + 1)
  }

  /** So many more calls. */
  function MovedBy(drift: Drift, m: Moment, calls: nat): Moment {
    if calls == 0 then m else Moved(drift, MovedBy(drift, m, calls - 1))
  }

  lemma FewMoves(drift: Drift, m: Moment)
    ensures MovedBy(drift, m, 1) == Moved(drift, m)
    ensures MovedBy(drift, m, 2) == Moved(drift, MovedBy(drift, m, 1))
    ensures MovedBy(drift, m, 3) == Moved(drift, MovedBy(drift, m, 2))
    ensures MovedBy(drift, m, 4) == Moved(drift, MovedBy(drift, m, 3))
    ensures forall k | 0 < k <= 4 :: MovedBy(drift, m, k).clock == m.clock + k
  {
    assert MovedBy(drift, m, 1) == Moved(drift, MovedBy(drift, m, 0));
    MovedOn(drift, m, 1);
    MovedOn(drift, m, 2);
    MovedOn(drift, m, 3);
    MovedOn(drift, m, 4);
  }

  function Marked(pods: Pods, name: string): Pods {
    if name in pods then pods[name := pods[name].(deleting := true)] else pods
  }

  /** Poll until a call finds the pod gone, or fails, at most `attempts` times. */
  function AwaitedGone(drift: Drift, answered: Answers, m: Moment, pod: string, attempts: nat): Moment
    decreases attempts
  {
    if attempts == 0 then m
    else
      var next := Moved(drift, m);
      if !answered(m.clock) || pod !in next.pods then next
      else AwaitedGone(drift, answered, next, pod, attempts - 1)
  }

  /** Poll number `i` from `m` on does not see the pod. */
  predicate SeesNone(drift: Drift, answered: Answers, m: Moment, pod: string, i: nat) {
    !answered(m.clock + i) || pod !in MovedBy(drift, m, i + 1).pods
  }

  lemma {:induction false} MovedOn(drift: Drift, m: Moment, calls: nat)
    ensures MovedBy(drift, Moved(drift, m), calls) == MovedBy(drift, m, calls + 1)
    ensures MovedBy(drift, m, calls).clock == m.clock + calls
  {
    if calls == 0 {
      assert MovedBy(drift, m, 1) == Moved(drift, MovedBy(drift, m, 0));
    } else {
      MovedOn(drift, m, calls - 1);
    }
  }

  /** The wait ends with the first poll that does not see the pod, or after `attempts` polls. */
  lemma {:induction false} AwaitedGoneMeans(drift: Drift, answered: Answers, m: Moment, pod: string, attempts: nat)
    returns (polls: nat)
    ensures polls <= attempts && AwaitedGone(drift, answered, m, pod, attempts) == MovedBy(drift, m, polls)
    ensures forall i: nat | i + 1 < polls :: !SeesNone(drift, answered, m, pod, i)
    ensures if polls < attempts then polls > 0 && SeesNone(drift, answered, m, pod, polls - 1)
            else forall i: nat | i + 1 < attempts :: !SeesNone(drift, answered, m, pod, i)
    decreases attempts
  {
    MovedOn(drift, m, 0);
    if attempts == 0 {
      polls := 0;
    } else if SeesNone(drift, answered, m, pod, 0) {
      polls := 1;
    } else {
      var next := Moved(drift, m);
      var rest := AwaitedGoneMeans(drift, answered, next, pod, attempts - 1);
      polls := rest + 1;
      MovedOn(drift, m, rest);
      forall i: nat | 0 < i <= rest
        ensures SeesNone(drift, answered, m, pod, i) <==> SeesNone(drift, answered, next, pod, i - 1)
      {
        MovedOn(drift, m, i);
      }
    }
  }

  /** A pod found pending is deleted and awaited. */
  function Unstuck(drift: Drift, answered: Answers, m: Moment, pod: string, attempts: nat): Moment {
    var look := Moved(drift, m);
    if answered(m.clock) && pod in look.pods && look.pods[pod].phase == Pending then
      var deleted := Moved(drift, look);
      var after := if answered(look.clock) then deleted.(pods := Marked(deleted.pods, pod)) else deleted;
      AwaitedGone(drift, answered, after, pod, attempts)
    else look
  }

  /** Some poll, of at most `attempts` from `m` on, finds the pod running. */
  ghost predicate SeenRunning(drift: Drift, answered: Answers, m: Moment, pod: string, attempts: nat) {
    exists i: nat :: i < attempts && RunsAt(drift, answered, m, pod, i)
  }

  /** Poll number `i` does: after i + 1 moves of the others. */
  ghost predicate RunsAt(drift: Drift, answered: Answers, m: Moment, pod: string, i: nat) {
    answered(m.clock + i) && Runs(MovedBy(drift, m, i + 1).pods, pod)
  }

  ghost predicate FirstRunsAt(drift: Drift, answered: Answers, m: Moment, pod: string, i: nat) {
    RunsAt(drift, answered, m, pod, i) && forall j: nat | j < i :: !RunsAt(drift, answered, m, pod, j)
  }

  /** The first ready node of the listing on which no listed pod is bound. */
  ghost function FirstFree(pods: Pods, nodes: seq<NodeInfo>): Option<Node> {
    if nodes == [] then None
    else if nodes[0].ready && !Occupied(pods, nodes[0].name) then Some(nodes[0].name)
    else FirstFree(pods, nodes[1..])
  }

  ghost predicate FreeAt(pods: Pods, nodes: seq<NodeInfo>, i: nat) {
    i < |nodes| && nodes[i].ready && !Occupied(pods, nodes[i].name)
  }

  /** None exactly when every ready node is occupied, else the first of the free ones. */
  lemma {:induction false} FirstFreeMeans(pods: Pods, nodes: seq<NodeInfo>)
    ensures FirstFree(pods, nodes) == None <==> AllOccupied(pods, nodes)
    ensures FirstFree(pods, nodes).Some? ==>
      exists i: nat :: FreeAt(pods, nodes, i) && nodes[i].name == FirstFree(pods, nodes).value
        && forall j: nat | j < i :: !FreeAt(pods, nodes, j)
  {
    if nodes == [] {
    } else if FreeAt(pods, nodes, 0) {
      assert nodes[0] == NodeInfo(nodes[0].name, true) && NodeReady(nodes, nodes[0].name);
    } else {
      var rest := nodes[1..];
      FirstFreeMeans(pods, rest);
      assert forall n | NodeReady(nodes, n) :: NodeReady(rest, n) || nodes[0] == NodeInfo(n, true);
      assert forall n | NodeReady(rest, n) :: NodeReady(nodes, n);
      assert forall i: nat | i > 0 :: FreeAt(pods, nodes, i) <==> FreeAt(pods, rest, i - 1);
      if FirstFree(pods, rest).Some? {
        var i: nat :| FreeAt(pods, rest, i) && rest[i].name == FirstFree(pods, rest).value
          && forall j: nat | j < i :: !FreeAt(pods, rest, j);
        assert FreeAt(pods, nodes, i + 1) && nodes[i + 1].name == rest[i].name;
        forall j: nat | j < i + 1 ensures !FreeAt(pods, nodes, j) {
          if j > 0 { assert FreeAt(pods, nodes, j) <==> FreeAt(pods, rest, j - 1); }
        }
      }
    }
  }

  /** A listing that shows the hosts of `pods`. */
  ghost predicate Shows(listing: PodListing, pods: Pods) {
    forall n :: Some(n) in listing <==> Occupied(pods, n)
  }

  /** Whatever the order of the listing, the picker takes the first free node. */
  lemma {:induction false} PickIsFirstFree(listing: PodListing, pods: Pods, nodes: seq<NodeInfo>)
    requires Shows(listing, pods)
    ensures PickNode(listing, nodes, []) == FirstFree(pods, nodes)
  {
    if nodes == [] {
    } else {
      PickIsFirstFree(listing, pods, nodes[1..]);
    }
  }

  ghost predicate AllOccupied(pods: Pods, nodes: seq<NodeInfo>) {
    forall n | NodeReady(nodes, n) :: Occupied(pods, n)
  }

  /** A pod the driver has just created. */
  function Fresh(n: Node): Pod {
    Pod(n, false, Pending, false, false)
  }

  /** The pods when they are listed for a placement that begins at `m`: the
      second call, after looking for the pod. */
  function ListedPods(drift: Drift, m: Moment): Pods {
    MovedBy(drift, m, 2).pods
  }

  /** The node chosen in a placement that begins at `m`; the third call lists the nodes. */
  ghost function ChosenNode(drift: Drift, answered: Answers, m: Moment, nodes: seq<NodeInfo>): Option<Node> {
    if answered(m.clock + 1) && answered(m.clock + 2) then FirstFree(ListedPods(drift, m), nodes) else None
  }

  /** The pod is found by the first call. */
  predicate Found(drift: Drift, answered: Answers, m: Moment, pod: string) {
    answered(m.clock) && pod in Moved(drift, m).pods
  }

  /** It is not, but a node is chosen, and the fourth call creates it. */
  ghost predicate Placeable(drift: Drift, answered: Answers, m: Moment, pod: string, nodes: seq<NodeInfo>) {
    && !Found(drift, answered, m, pod) && ChosenNode(drift, answered, m, nodes).Some?
    && answered(m.clock + 3) && pod !in MovedBy(drift, m, 4).pods
  }

  /** The moment the pod is known to exist. */
  ghost function WithPod(drift: Drift, answered: Answers, m: Moment, pod: string, nodes: seq<NodeInfo>): Moment
    requires Found(drift, answered, m, pod) || Placeable(drift, answered, m, pod, nodes)
  {
    if Found(drift, answered, m, pod) then Moved(drift, m)
    else
      var created := MovedBy(drift, m, 4);
      created.(pods := created.pods[pod := Fresh(ChosenNode(drift, answered, m, nodes).value)])
  }

  /** With all calls answered: the pod is missing, and every ready node is occupied
      when the pods are listed, or someone else has created it by the time of the create. */
  ghost predicate CannotPlace(drift: Drift, m: Moment, pod: string, nodes: seq<NodeInfo>) {
    && pod !in Moved(drift, m).pods
    && (AllOccupied(ListedPods(drift, m), nodes) || pod in MovedBy(drift, m, 4).pods)
  }

  lemma CannotPlaceMeans(drift: Drift, answered: Answers, m: Moment, pod: string, nodes: seq<NodeInfo>)
    requires forall i: nat :: answered(i)
    ensures CannotPlace(drift, m, pod, nodes) <==>
      !Found(drift, answered, m, pod) && !Placeable(drift, answered, m, pod, nodes)
  {
    FirstFreeMeans(ListedPods(drift, m), nodes);
  }

  /** Looking for a claim or a service takes a call, creating it one more. */
  function CallsFor(answered: Answers, clock: nat, have: bool): nat {
    if answered(clock) && have then 1 else 2
  }

  /** It is found, or is missing and gets created. */
  predicate Ensured(answered: Answers, clock: nat, have: bool) {
    if have then answered(clock) else answered(clock + 1)
  }

  predicate StorageOk(answered: Answers, clock: nat, haveClaim: bool, haveService: bool) {
    Ensured(answered, clock, haveClaim) && Ensured(answered, clock + CallsFor(answered, clock, haveClaim), haveService)
  }

  function WithStorage(drift: Drift, answered: Answers, m: Moment, haveClaim: bool, haveService: bool): Moment {
    var calls := CallsFor(answered, m.clock, haveClaim);
    MovedBy(drift, MovedBy(drift, m, calls), CallsFor(answered, m.clock + calls, haveService))
  }

  /** The moment CreateVolume turns to the pod, claim and service being there. */
  function AtPlacement(drift: Drift, answered: Answers, m: Moment, haveClaim: bool, haveService: bool, pod: string,
                       attempts: nat): Moment
  {
    Unstuck(drift, answered, WithStorage(drift, answered, m, haveClaim, haveService), pod, attempts)
  }

  /** A call of CreateVolume: what it starts from and what it asks for. */
  datatype Request = Request(
    m: Moment,
    haveClaim: bool,
    haveService: bool,
    pod: string,
    nodes: seq<NodeInfo>,
    attempts: nat)

  /** The moment the pod of the request is turned to. */
  function Turn(drift: Drift, answered: Answers, q: Request): Moment {
    AtPlacement(drift, answered, q.m, q.haveClaim, q.haveService, q.pod, q.attempts)
  }

  /** Claim, service and pod are there in the end. */
  ghost predicate Provisions(drift: Drift, answered: Answers, q: Request) {
    && StorageOk(answered, q.m.clock, q.haveClaim, q.haveService)
    && (Found(drift, answered, Turn(drift, answered, q), q.pod)
        || Placeable(drift, answered, Turn(drift, answered, q), q.pod, q.nodes))
  }

  /** And the pod is seen running in time. */
  ghost predicate StartsInTime(drift: Drift, answered: Answers, q: Request)
    requires Provisions(drift, answered, q)
  {
    var m := WithPod(drift, answered, Turn(drift, answered, q), q.pod, q.nodes);
    SeenRunning(drift, answered, m, q.pod, q.attempts)
  }

  /** With all calls answered, provisioning fails exactly when the pod cannot be placed. */
  lemma ReliableProvisions(drift: Drift, answered: Answers, q: Request)
    requires forall i: nat :: answered(i)
    ensures Provisions(drift, answered, q) <==> !CannotPlace(drift, Turn(drift, answered, q), q.pod, q.nodes)
  {
    CannotPlaceMeans(drift, answered, Turn(drift, answered, q), q.pod, q.nodes);
  }

  /** The size asked for, in numbers. */
  lemma SizeMeans(required: Option<int>)
    ensures required.None? || required.value <= 0 ==>
      RequestedGib(required) == 10 && ReportedBytes(RequestedGib(required)) == 10_737_418_240
    ensures required.Some? && 0 < required.value <= TWO63 - GIB ==>
      && LeastGib(ReportedBytes(RequestedGib(required)), required.value)
      && LeastGib(RequestedGib(required) * GIB, required.value)
  {
    if required.None? || required.value <= 0 { DefaultSize(required); }
    else if required.value <= TWO63 - GIB { CapacityIsExact(required.value); }
  }

  /** Each pod is created on the first free node of the pods listed for it. */
  ghost predicate WellPlaced(writes: seq<Write>, pods: Pods, nodes: seq<NodeInfo>) {
    forall i | 0 <= i < |writes| && writes[i].Places? :: FirstFree(pods, nodes) == Some(writes[i].node)
  }

  /** The moment after DeleteVolume, all calls answered: the pod is marked, three more calls follow. */
  function TornDown(drift: Drift, m: Moment, pod: string): Moment {
    var deleted := Moved(drift, m);
    MovedBy(drift, deleted.(pods := Marked(deleted.pods, pod)), 3)
  }

  /** The cleanup adds deletions of the volume's own objects to what was sent. */
  lemma CleanUpIsProper(before: seq<Write>, sent: seq<Write>, writes: seq<Write>, claim: string, service: string,
                        pod: string, nodes: seq<NodeInfo>)
    requires before <= sent && Named(sent[|before|..], claim, service, pod)
    requires writes == sent + [Deletes(KPod, pod), Deletes(KClaim, claim), Deletes(KService, service)]
    ensures before <= writes && Named(writes[|before|..], claim, service, pod)
    ensures forall pods | WellPlaced(sent[|before|..], pods, nodes) :: WellPlaced(writes[|before|..], pods, nodes)
  {
    var added := [Deletes(KPod, pod), Deletes(KClaim, claim), Deletes(KService, service)];
    assert writes[|before|..] == sent[|before|..] + added;
  }

  /** What is sent for the storage, and for the pod after that. */
  lemma StorageThenPod(before: seq<Write>, stored: seq<Write>, writes: seq<Write>, claim: string, service: string,
                       pod: string, pods: Pods, nodes: seq<NodeInfo>)
    requires before <= stored <= writes && NoTeardown(stored[|before|..])
    requires forall i | |before| <= i < |stored| ::
      !stored[i].Places? && stored[i].kind != KPod && IsNamed(stored[i], claim, service, "")
    requires forall i | |stored| <= i < |writes| :: writes[i].kind == KPod && writes[i].name == pod
    requires WellPlaced(writes[|stored|..], pods, nodes)
    ensures before <= writes && Named(writes[|before|..], claim, service, pod)
    ensures NoTeardown(writes[|before|..]) && WellPlaced(writes[|before|..], pods, nodes)
  {
    var all, first, last := writes[|before|..], stored[|before|..], writes[|stored|..];
    assert all == first + last;
    assert forall i | 0 <= i < |first| :: first[i] == stored[|before| + i];
    assert forall i | 0 <= i < |last| :: last[i] == writes[|stored| + i];
  }

  class Cluster {
    var claims: map<string, int>           // backing claims and their size in GiB
    var services: set<string>
    var pods: Pods
    var stateCms: set<string>
    var writes: seq<Write>                 // every write sent so far
    var clock: nat                         // API calls so far
    const drift: Drift
    const answered: Answers

    constructor (drift: Drift, answered: Answers)
      ensures claims == map[] && services == {} && pods == map[] && stateCms == {} && writes == [] && clock == 0
      ensures this.drift == drift && this.answered == answered
    {
      claims, services, pods, stateCms, writes, clock := map[], {}, map[], {}, [], 0;
      this.drift, this.answered := drift, answered;
    }

    ghost predicate Reliable() {
      forall i: nat :: answered(i)
    }

    function Now(): Moment
      reads this
    {
      Moment(pods, clock)
    }

    /** Nobody else stops a running pod of this name. */
    ghost predicate KeepsRunning(pod: string) {
      forall i: nat, m: Pods | Runs(m, pod) :: Runs(drift(i, m), pod)
    }

    /** The time until the next API call is answered, or fails. */
    method Await() returns (ok: bool)
      modifies this`pods, this`clock
      ensures Now() == Moved(drift, old(Now())) && ok == answered(old(clock))
    {
      ok, pods, clock := answered(clock), drift(clock, pods), clock + 1;
    }

    /** Look for the claim; if it is missing, or the look fails, create it. */
    method EnsureClaim(name: string, gib: int) returns (ok: bool)
      modifies this`claims, this`pods, this`clock, this`writes
      ensures var found := answered(old(clock)) && name in old(claims);
        var created := name !in old(claims) && answered(old(clock) + 1);
        && ok == (found || created)
        && Now() == MovedBy(drift, old(Now()), if found then 1 else 2)
        && writes == (if found then old(writes) else old(writes) + [Creates(KClaim, name)])
        && claims == if created then old(claims)[name := gib] else old(claims)
    {
      FewMoves(drift, old(Now()));
      ok := Await();
      if ok && name in claims { return; }
      writes := writes + [Creates(KClaim, name)];
      ok := Await();
      if !ok || name in claims { return false; }
      claims := claims[name := gib];
    }

    method EnsureService(name: string) returns (ok: bool)
      modifies this`services, this`pods, this`clock, this`writes
      ensures var found := answered(old(clock)) && name in old(services);
        var created := name !in old(services) && answered(old(clock) + 1);
        && ok == (found || created)
        && Now() == MovedBy(drift, old(Now()), if found then 1 else 2)
        && writes == (if found then old(writes) else old(writes) + [Creates(KService, name)])
        && services == if created then old(services) + {name} else old(services)
    {
      FewMoves(drift, old(Now()));
      ok := Await();
      if ok && name in services { return; }
      writes := writes + [Creates(KService, name)];
      ok := Await();
      if !ok || name in services { return false; }
      services := services + {name};
    }

    /** The API server marks a pod for deletion; the kubelet removes it later. */
    method DeletePod(name: string)
      modifies this`pods, this`clock, this`writes
      ensures writes == old(writes) + [Deletes(KPod, name)]
      ensures var after := Moved(drift, old(Now()));
        Now() == if answered(old(clock)) then after.(pods := Marked(after.pods, name)) else after
      ensures var after := Moved(drift, old(Now())).pods;
        && pods.Keys == after.Keys
        && (forall p | p in pods && p != name :: pods[p] == after[p])
        && (name in pods && answered(old(clock)) ==> pods[name] == after[name].(deleting := true))
    {
      writes := writes + [Deletes(KPod, name)];
      var ok := Await();
      if ok { pods := Marked(pods, name); }
    }

    method DeleteClaim(name: string)
      modifies this`claims, this`pods, this`clock, this`writes
      ensures writes == old(writes) + [Deletes(KClaim, name)] && Now() == Moved(drift, old(Now()))
      ensures claims == if answered(old(clock)) then old(claims) - {name} else old(claims)
    {
      writes := writes + [Deletes(KClaim, name)];
      var ok := Await();
      if ok { claims := claims - {name}; }
    }

    method DeleteService(name: string)
      modifies this`services, this`pods, this`clock, this`writes
      ensures writes == old(writes) + [Deletes(KService, name)] && Now() == Moved(drift, old(Now()))
      ensures services == if answered(old(clock)) then old(services) - {name} else old(services)
    {
      writes := writes + [Deletes(KService, name)];
      var ok := Await();
      if ok { services := services - {name}; }
    }

    /** A pod found pending, and no other, is stuck: delete it and wait for it to
        go, for at most `attempts` polls. */
    method RemoveStuckPod(pod: string, attempts: nat)
      modifies this`pods, this`clock, this`writes
      ensures var look := drift(old(clock), old(pods));
        writes == if answered(old(clock)) && pod in look && look[pod].phase == Pending
                  then old(writes) + [Deletes(KPod, pod)] else old(writes)
      ensures Now() == Unstuck(drift, answered, old(Now()), pod, attempts)
    {
      var ok := Await();
      if ok && pod in pods && pods[pod].phase == Pending {
        DeletePod(pod);
        AwaitGone(pod, attempts);
      }
    }

    method AwaitGone(pod: string, attempts: nat)
      modifies this`pods, this`clock
      ensures Now() == AwaitedGone(drift, answered, old(Now()), pod, attempts)
    {
      var i := 0;
      while i < attempts
        invariant 0 <= i <= attempts
        invariant AwaitedGone(drift, answered, Now(), pod, attempts - i)
               == AwaitedGone(drift, answered, old(Now()), pod, attempts)
      {
        var ok := Await();
        if !ok || pod !in pods { return; }
        i := i + 1;
      }
    }

    /** The hosts of the share-manager pods, in any order. */
    method ListPods() returns (listing: PodListing)
      ensures Shows(listing, pods)
    {
      listing := [];
      var rest := pods.Keys;
      while rest != {}
        invariant rest <= pods.Keys
        invariant forall n :: Some(n) in listing <==>
          exists p :: p in pods && p !in rest && pods[p].bound && pods[p].target == n
        decreases |rest|
      {
        var p :| p in rest;
        rest := rest - {p};
        if pods[p].bound { listing := listing + [Some(pods[p].target)]; }
      }
    }

    /** The picker: list the pods, list the nodes, choose. */
    method Choose(nodes: seq<NodeInfo>) returns (node: Option<Node>)
      modifies this`pods, this`clock
      ensures var listed := answered(old(clock));
        && Now() == MovedBy(drift, old(Now()), if listed then 2 else 1)
        && node == if listed && answered(old(clock) + 1) then FirstFree(Moved(drift, old(Now())).pods, nodes) else None
    {
      FewMoves(drift, old(Now()));
      var ok := Await();
      if !ok { return None; }
      ghost var seen := pods;
      var listing := ListPods();
      ok := Await();
      if !ok { return None; }
      node := PickNode(listing, nodes, []);
      PickIsFirstFree(listing, seen, nodes);
    }

    /** Create the pod unless it is there already, on the node the picker chooses
        from the pods as they are at the listing. */
    method EnsurePod(pod: string, nodes: seq<NodeInfo>) returns (ok: bool)
      modifies this`pods, this`clock, this`writes
      ensures var m := old(Now());
        var found, node := Found(drift, answered, m, pod), ChosenNode(drift, answered, m, nodes);
        && ok == (found || Placeable(drift, answered, m, pod, nodes))
        && (ok ==> Now() == WithPod(drift, answered, m, pod, nodes))
        && (ok && !found ==> pod in pods && pods[pod] == Pod(node.value, false, Pending, false, false))
        && writes == if found || node.None? then old(writes) else old(writes) + [Places(KPod, pod, node.value)]
    {
      FewMoves(drift, old(Now()));
      ok := Await();
      if ok && pod in pods { return; }
      FewMoves(drift, Now());
      MovedOn(drift, old(Now()), 1);
      MovedOn(drift, old(Now()), 2);
      var node := Choose(nodes);
      if node.None? { return false; }
      writes := writes + [Places(KPod, pod, node.value)];
      ok := Await();
      if !ok || pod in pods { return false; }
      pods := pods[pod := Fresh(node.value)];
    }

    /** Poll for the pod to run, for at most `attempts` polls, up to the first that
        finds it running. */
    method AwaitRunning(pod: string, attempts: nat) returns (running: bool)
      modifies this`pods, this`clock
      ensures running == SeenRunning(drift, answered, old(Now()), pod, attempts)
      ensures running ==> Runs(pods, pod) && exists i: nat ::
        i < attempts && FirstRunsAt(drift, answered, old(Now()), pod, i) && Now() == MovedBy(drift, old(Now()), i + 1)
      ensures !running ==> Now() == MovedBy(drift, old(Now()), attempts)
    {
      var i := 0;
      while i < attempts
        invariant 0 <= i <= attempts
        invariant Now() == MovedBy(drift, old(Now()), i)
        invariant forall j: nat | j < i :: !RunsAt(drift, answered, old(Now()), pod, j)
      {
        MovedOn(drift, old(Now()), i);
        var ok := Await();
        if ok && pod in pods && pods[pod].phase == Running {
          assert FirstRunsAt(drift, answered, old(Now()), pod, i);
          return true;
        }
        i := i + 1;
      }
      return false;
    }

    /** Reuse the pod, or replace it if it is missing or stuck. */
    method ReplacePod(pod: string, nodes: seq<NodeInfo>, attempts: nat) returns (ok: bool)
      modifies this`pods, this`clock, this`writes
      ensures old(writes) <= writes
      ensures forall i | |old(writes)| <= i < |writes| :: writes[i].kind == KPod && writes[i].name == pod
      ensures var m := Unstuck(drift, answered, old(Now()), pod, attempts);
        && ok == (Found(drift, answered, m, pod) || Placeable(drift, answered, m, pod, nodes))
        && (ok ==> Now() == WithPod(drift, answered, m, pod, nodes))
        && WellPlaced(writes[|old(writes)|..], ListedPods(drift, m), nodes)
      ensures Reliable() && KeepsRunning(pod) && Runs(old(pods), pod) ==> ok && Runs(pods, pod) && writes == old(writes)
    {
      RemoveStuckPod(pod, attempts);
      ok := EnsurePod(pod, nodes);
    }

    method EnsureStorage(claim: string, service: string, gib: int) returns (ok: bool)
      modifies this`claims, this`services, this`pods, this`clock, this`writes
      ensures old(writes) <= writes && NoTeardown(writes[|old(writes)|..])
      ensures forall i | |old(writes)| <= i < |writes| ::
        !writes[i].Places? && writes[i].kind != KPod && IsNamed(writes[i], claim, service, "")
      ensures claims == old(claims) || (claim !in old(claims) && claims == old(claims)[claim := gib])
      ensures services == old(services) || services == old(services) + {service}
      ensures ok == StorageOk(answered, old(clock), claim in old(claims), service in old(services))
      ensures ok ==>
        && claim in claims && service in services
        && Now() == WithStorage(drift, answered, old(Now()), claim in old(claims), service in old(services))
      ensures Reliable() && claim in old(claims) && service in old(services) ==> writes == old(writes)
    {
      FewMoves(drift, Now());
      ok := EnsureClaim(claim, gib);
      if !ok { return; }
      ok := EnsureService(service);
    }

    /** The claim, the service and the pod, in this order. */
    method Provision(claim: string, service: string, pod: string, gib: int, nodes: seq<NodeInfo>, attempts: nat)
      returns (ok: bool)
      modifies this`claims, this`services, this`pods, this`clock, this`writes
      ensures old(writes) <= writes && Named(writes[|old(writes)|..], claim, service, pod)
      ensures NoTeardown(writes[|old(writes)|..])
      ensures claims == old(claims) || (claim !in old(claims) && claims == old(claims)[claim := gib])
      ensures services == old(services) || services == old(services) + {service}
      ensures ok || Reliable() ==> claim in claims && service in services
      ensures var q := Request(old(Now()), claim in old(claims), service in old(services), pod, nodes, attempts);
        && ok == Provisions(drift, answered, q)
        && WellPlaced(writes[|old(writes)|..], ListedPods(drift, Turn(drift, answered, q)), nodes)
        && (ok ==> Now() == WithPod(drift, answered, Turn(drift, answered, q), pod, nodes))
      ensures Reliable() && KeepsRunning(pod) && Runs(old(pods), pod)
        && claim in old(claims) && service in old(services)
        ==> ok && Runs(pods, pod) && writes == old(writes)
    {
      RunsThroughStorage(pod, claim in claims, service in services);
      ghost var q := Request(Now(), claim in claims, service in services, pod, nodes, attempts);
      ok := EnsureStorage(claim, service, gib);
      ghost var stored := writes;
      if ok { ok := ReplacePod(pod, nodes, attempts); }
      StorageThenPod(old(writes), stored, writes, claim, service, pod, ListedPods(drift, Turn(drift, answered, q)), nodes);
    }

    /** The cleanup that lets a later attempt start afresh. */
    method CleanUp(claim: string, service: string, pod: string)
      modifies this`claims, this`services, this`pods, this`clock, this`writes
      ensures writes == old(writes) + [Deletes(KPod, pod), Deletes(KClaim, claim), Deletes(KService, service)]
      ensures claims == if answered(old(clock) + 1) then old(claims) - {claim} else old(claims)
      ensures services == if answered(old(clock) + 2) then old(services) - {service} else old(services)
      ensures var after := Moved(drift, old(Now()));
        var deleted := if answered(old(clock)) then after.(pods := Marked(after.pods, pod)) else after;
        Now() == MovedBy(drift, deleted, 2) && clock == old(clock) + 3
    {
      DeletePod(pod);
      FewMoves(drift, Now());
      DeleteClaim(claim);
      DeleteService(service);
    }

    /** What a call of CreateVolume for this id starts from. */
    function RequestFor(id: string, nodes: seq<NodeInfo>, attempts: nat): Request
      reads this
    {
      Request(Now(), NameOf(KClaim, id) in claims, NameOf(KService, id) in services, NameOf(KPod, id), nodes, attempts)
    }

    /** CreateVolume. On success the claim and the service exist and the pod was
        just seen running; on a deadline the deletion of all three was the last
        thing asked for; repeating it on a running volume changes nothing. */
    method CreateVolume(id: string, required: Option<int>, nodes: seq<NodeInfo>, attempts: nat) returns (r: Result)
      modifies this`claims, this`services, this`pods, this`clock, this`writes
      ensures old(writes) <= writes && OnlyAbout(writes[|old(writes)|..], id)
      // which result, for all answers: provisioning fails, the pod is seen running in time, or not
      ensures var q := old(RequestFor(id, nodes, attempts));
        && (r.Internal? <==> !Provisions(drift, answered, q))
        && (r.Created? <==> Provisions(drift, answered, q) && StartsInTime(drift, answered, q))
        && (r.DeadlineExceeded? <==> Provisions(drift, answered, q) && !StartsInTime(drift, answered, q))
      ensures r.Created? ==>
        && r.id == id && r.bytes == ReportedBytes(RequestedGib(required))
        && NameOf(KClaim, id) in claims && NameOf(KService, id) in services && Runs(pods, NameOf(KPod, id))
      // the size reported: 10 GiB by default, else the least whole number of GiB that suffices
      ensures r.Created? && (required.None? || required.value <= 0) ==> r.bytes == 10_737_418_240
      ensures r.Created? && required.Some? && 0 < required.value <= TWO63 - GIB ==> LeastGib(r.bytes, required.value)
      ensures r.DeadlineExceeded? ==> |old(writes)| + 3 <= |writes| && writes[|writes| - 3..] == CleanUpOf(id)
      ensures r.DeadlineExceeded? && Reliable() ==> NameOf(KClaim, id) !in claims && NameOf(KService, id) !in services
      // any other failure cleans nothing up
      ensures r.Internal? ==>
        NoTeardown(writes[|old(writes)|..]) && old(claims).Keys <= claims.Keys && old(services) <= services
      ensures r.Internal? && Reliable() ==> NameOf(KClaim, id) in claims && NameOf(KService, id) in services
      ensures Reliable() ==> (r.Internal? <==> LeavesBehind(old(RequestFor(id, nodes, attempts))))
      // a pod is created only where the picker says, given the pods listed for it
      ensures var q := old(RequestFor(id, nodes, attempts));
        WellPlaced(writes[|old(writes)|..], ListedPods(drift, Turn(drift, answered, q)), nodes)
      // a claim that was there keeps its size, a new one has the size asked for, in GiB
      ensures var claim := NameOf(KClaim, id);
        claim in claims ==>
          if claim in old(claims) then claims[claim] == old(claims)[claim]
          else
            && claims[claim] == RequestedGib(required)
            && (required.None? || required.value <= 0 ==> claims[claim] == 10)
            && (required.Some? && 0 < required.value <= TWO63 - GIB ==> LeastGib(claims[claim] * GIB, required.value))
      // repeating the call on a running volume
      ensures attempts > 0 && Reliable() && KeepsRunning(NameOf(KPod, id)) && Runs(old(pods), NameOf(KPod, id))
        && NameOf(KClaim, id) in old(claims) && NameOf(KService, id) in old(services)
        ==> r.Created? && writes == old(writes) && claims == old(claims) && services == old(services)
      // everything else stays as it was
      ensures claims - {NameOf(KClaim, id)} == old(claims) - {NameOf(KClaim, id)}
      ensures services - {NameOf(KService, id)} == old(services) - {NameOf(KService, id)}
    {
      var claim, service, pod := NameOf(KClaim, id), NameOf(KService, id), NameOf(KPod, id);
      SizeMeans(required);
      r := Create(claim, service, pod, id, RequestedGib(required), nodes, attempts);
    }

    /** With all calls answered, CreateVolume gives up and leaves claim and service
        behind exactly then: the pod cannot be placed when its turn comes. */
    ghost predicate LeavesBehind(q: Request) {
      CannotPlace(drift, Turn(drift, answered, q), q.pod, q.nodes)
    }

    method Create(claim: string, service: string, pod: string, id: string, gib: int, nodes: seq<NodeInfo>,
                  attempts: nat)
      returns (r: Result)
      modifies this`claims, this`services, this`pods, this`clock, this`writes
      ensures old(writes) <= writes && Named(writes[|old(writes)|..], claim, service, pod)
      ensures var q := Request(old(Now()), claim in old(claims), service in old(services), pod, nodes, attempts);
        && (r.Internal? <==> !Provisions(drift, answered, q))
        && (r.Created? <==> Provisions(drift, answered, q) && StartsInTime(drift, answered, q))
        && WellPlaced(writes[|old(writes)|..], ListedPods(drift, Turn(drift, answered, q)), nodes)
        && (Reliable() ==> (r.Internal? <==> LeavesBehind(q)))
      ensures r.Created? ==>
        r.id == id && r.bytes == ReportedBytes(gib) && claim in claims && service in services && Runs(pods, pod)
      ensures r.DeadlineExceeded? ==>
        && |old(writes)| + 3 <= |writes|
        && writes[|writes| - 3..] == [Deletes(KPod, pod), Deletes(KClaim, claim), Deletes(KService, service)]
      ensures r.DeadlineExceeded? && Reliable() ==> claim !in claims && service !in services
      ensures r.Internal? ==>
        NoTeardown(writes[|old(writes)|..]) && old(claims).Keys <= claims.Keys && old(services) <= services
      ensures r.Internal? && Reliable() ==> claim in claims && service in services
      ensures claim in claims ==> claims[claim] == if claim in old(claims) then old(claims)[claim] else gib
      ensures attempts > 0 && Reliable() && KeepsRunning(pod) && Runs(old(pods), pod)
        && claim in old(claims) && service in old(services)
        ==> r.Created? && writes == old(writes) && claims == old(claims) && services == old(services)
      ensures claims - {claim} == old(claims) - {claim} && services - {service} == old(services) - {service}
    {
      ghost var q := Request(Now(), claim in claims, service in services, pod, nodes, attempts);
      if Reliable() { ReliableProvisions(drift, answered, q); }
      var ok := Provision(claim, service, pod, gib, nodes, attempts);
      if !ok { return Internal; }
      StaysUp(pod, attempts);
      ghost var sent := writes;
      ok := Start(claim, service, pod, attempts);
      if ok { return Created(id, ReportedBytes(gib)); }
      CleanUpIsProper(old(writes), sent, writes, claim, service, pod, nodes);
      r := DeadlineExceeded;
    }

    /** Wait for the pod to run; if it does not in time, clean everything up. */
    method Start(claim: string, service: string, pod: string, attempts: nat) returns (running: bool)
      modifies this`claims, this`services, this`pods, this`clock, this`writes
      ensures running == SeenRunning(drift, answered, old(Now()), pod, attempts)
      ensures running ==>
        Runs(pods, pod) && writes == old(writes) && claims == old(claims) && services == old(services)
      ensures !running ==>
        && writes == old(writes) + [Deletes(KPod, pod), Deletes(KClaim, claim), Deletes(KService, service)]
        && (claims == old(claims) || claims == old(claims) - {claim})
        && (services == old(services) || services == old(services) - {service})
        && (Reliable() ==> claim !in claims && service !in services)
    {
      running := AwaitRunning(pod, attempts);
      if !running { CleanUp(claim, service, pod); }
    }

    lemma {:induction false} RunsOn(m: Moment, pod: string, calls: nat)
      requires KeepsRunning(pod) && Runs(m.pods, pod)
      ensures Runs(MovedBy(drift, m, calls).pods, pod)
    {
      if calls == 0 {
      } else {
        RunsOn(m, pod, calls - 1);
      }
    }

    lemma RunsThroughStorage(pod: string, haveClaim: bool, haveService: bool)
      ensures KeepsRunning(pod) && Runs(pods, pod) ==>
        Runs(WithStorage(drift, answered, Now(), haveClaim, haveService).pods, pod)
    {
      if KeepsRunning(pod) && Runs(pods, pod) {
        var calls := CallsFor(answered, clock, haveClaim);
        RunsOn(Now(), pod, calls);
        RunsOn(MovedBy(drift, Now(), calls), pod, CallsFor(answered, clock + calls, haveService));
      }
    }

    /** A pod that runs and is left alone is seen at the first poll. */
    lemma StaysUp(pod: string, attempts: nat)
      ensures attempts > 0 && Reliable() && KeepsRunning(pod) && Runs(pods, pod) ==>
        SeenRunning(drift, answered, Now(), pod, attempts)
    {
      if attempts > 0 && Reliable() && KeepsRunning(pod) && Runs(pods, pod) {
        FewMoves(drift, Now());
        assert RunsAt(drift, answered, Now(), pod, 0);
      }
    }

    /** DeleteVolume: the pod is marked, everything else is gone at once. */
    method DeleteVolume(id: string)
      modifies this
      ensures writes == old(writes) + CleanUpOf(id) + [Deletes(KStateCm, NameOf(KStateCm, id))]
      ensures claims == if answered(old(clock) + 1) then old(claims) - {NameOf(KClaim, id)} else old(claims)
      ensures services == if answered(old(clock) + 2) then old(services) - {NameOf(KService, id)} else old(services)
      ensures stateCms == if answered(old(clock) + 3) then old(stateCms) - {NameOf(KStateCm, id)} else old(stateCms)
      ensures Reliable() ==> Now() == TornDown(drift, old(Now()), NameOf(KPod, id))
    {
      CleanUp(NameOf(KClaim, id), NameOf(KService, id), NameOf(KPod, id));
      ghost var after := Moved(drift, old(Now()));
      FewMoves(drift, after.(pods := Marked(after.pods, NameOf(KPod, id))));
      writes := writes + [Deletes(KStateCm, NameOf(KStateCm, id))];
      var ok := Await();
      if ok { stateCms := stateCms - {NameOf(KStateCm, id)}; }
    }
  }

  /** Without a ready node the volume is never placed, whatever moves meanwhile,
      as long as nobody else creates its pod. */
  lemma NoNodeCannotPlace(drift: Drift, m: Moment, pod: string, nodes: seq<NodeInfo>)
    requires (forall n :: !NodeReady(nodes, n)) && forall i: nat, p: Pods :: pod !in drift(i, p)
    ensures CannotPlace(drift, m, pod, nodes)
  {
  }

  /** For example in an empty cluster: the call fails, and claim and service stay. */
  method LeaveBehind(id: string, attempts: nat) returns (r: Result, c: Cluster)
    ensures fresh(c) && r.Internal?
    ensures NameOf(KClaim, id) in c.claims && c.claims[NameOf(KClaim, id)] == 10 && NameOf(KService, id) in c.services
  {
    c := new Cluster((_, _) => map[], _ => true);
    var q := c.RequestFor(id, [], attempts);
    NoNodeCannotPlace(c.drift, Turn(c.drift, c.answered, q), q.pod, []);
    r := c.CreateVolume(id, None, [], attempts);
  }
}
