/** Tearing a volume down (`delete_volume` in src/csi.rs against the controller):
    what is deleted stays deleted once no pass is in flight, and what a pass in
    flight can still bring back. */
module Teardown {
  import opened Base
  import opened Placement
  import opened FailoverModel
  import opened PlacementSafety
  import opened Passes
  import opened Surroundings

  /** The claim is marked for deletion and no pass is in flight. */
  predicate Quiescent(w: World) {
    w.terminating && w.pc == Idle
  }

  predicate Gone(w: World, obj: Object) {
    match obj
    case ThePod => w.pod == None
    case TheBackingClaim => w.backing == NoClaim
    case TheService => !w.svc
    case TheStateCm => w.cm == Absent
  }

  /** The event that makes an object disappear: the pod only once its deletion is carried out. */
  function Removal(obj: Object): Event {
    if obj == ThePod then PodVanishes else DriverDeletes(obj)
  }

  /** CreateVolume does not run against DeleteVolume. */
  predicate NoCreation(es: seq<Event>) {
    forall e | e in es :: !e.DriverCreates?
  }

  // ------------------------------------------------- what a pass can bring back

  /** The pass in flight has yet to make the call that creates the object, and
      can still get there: the pod is only created after the record is saved. */
  predicate CanReturn(w: World, obj: Object) {
    match obj
    case ThePod =>
      || w.pc.LoadGet? || w.pc.LoadCreate? || w.pc.CreatePod?
      || (!w.cm.Absent? && (Looking(w.pc) || FoundMissing(w.pc)))
    case TheBackingClaim => false
    case TheService => w.pc.LoadGet? || w.pc.LoadCreate? || w.pc.SvcGet? || w.pc.SvcCreate?
    case TheStateCm => w.pc.LoadGet? || w.pc.LoadCreate?
  }

  lemma PodStaysGone(w: World, ok: bool)
    requires w.pod == None && !CanReturn(w, ThePod)
    ensures CallPod(w, ok) == None && !CanReturn(Call(w, ok), ThePod)
  {
  }

  lemma CallStaysGone(w: World, ok: bool, obj: Object)
    requires Gone(w, obj) && !CanReturn(w, obj)
    ensures Gone(Call(w, ok), obj) && !CanReturn(Call(w, ok), obj)
  {
    if obj == ThePod { PodStaysGone(w, ok); }
  }

  lemma EventStaysGone(w: World, e: Event, obj: Object)
    requires w.terminating && Gone(w, obj) && !CanReturn(w, obj) && !e.DriverCreates? && !e.Answer?
    ensures Gone(Next(w, e), obj) && !CanReturn(Next(w, e), obj)
  {
  }

  lemma StaysTerminating(w: World, e: Event)
    requires w.terminating
    ensures Next(w, e).terminating
  {
  }

  lemma {:induction false} RunStaysGone(w: World, es: seq<Event>, obj: Object)
    requires w.terminating && Gone(w, obj) && !CanReturn(w, obj) && NoCreation(es)
    ensures Run(w, es).terminating && Gone(Run(w, es), obj) && !CanReturn(Run(w, es), obj)
  {
    if es == [] {
    } else {
      var v := Run(w, es[..|es| - 1]);
      RunStaysGone(w, es[..|es| - 1], obj);
      StaysTerminating(v, Last(es));
      if Last(es).Answer? { CallStaysGone(v, Last(es).ok, obj); } else { EventStaysGone(v, Last(es), obj); }
    }
  }

  // ------------------------------------------------------- and how it does that

  function Longest(names: seq<string>): nat {
    if names == [] then 0
    else
      var rest := Longest(names[1..]);
      if |names[0]| > rest then |names[0]| else rest
  }

  lemma {:induction false} LongestBounds(names: seq<string>, n: string)
    requires n in names
    ensures |n| <= Longest(names)
  {
    if names[0] == n {
    } else {
      LongestBounds(names[1..], n);
    }
  }

  function Hosts(pods: PodListing): seq<Node> {
    if pods == [] then [] else (if pods[0].Some? then [pods[0].value] else []) + Hosts(pods[1..])
  }

  lemma {:induction false} HostsHold(pods: PodListing, n: Node)
    requires Some(n) in pods
    ensures n in Hosts(pods)
  {
    if pods[0] == Some(n) {
    } else {
      HostsHold(pods[1..], n);
    }
  }

  /** Some node is neither occupied nor tried. */
  lemma FreshNode(pods: PodListing, prior: seq<Node>) returns (n: Node)
    ensures PickNode(pods, [NodeInfo(n, true)], prior) == Some(n)
  {
    var names := Hosts(pods) + prior;
    n := seq(Longest(names) + 1, _ => 'n');
    if n in names { LongestBounds(names, n); }
    if Some(n) in pods { HostsHold(pods, n); }
    assert Eligible(pods, [NodeInfo(n, true)], n);
  }

  /** What to let happen before the next call, and how to answer it. */
  lemma Helpful(w: World) returns (before: seq<Event>, ok: bool)
    ensures NoCreation(before)
    ensures var v := Run(w, before);
      && v == w.(nodes := v.nodes)
      && (w.pc.PickNodes? ==> ok && PickNode(w.pc.pods, v.nodes, w.pc.st.prior).Some?)
      && (w.pc.CheckPv? || w.pc.CheckVas? <==> !ok)
  {
    before, ok := [], !w.pc.CheckPv? && !w.pc.CheckVas?;
    if w.pc.PickNodes? {
      var n := FreshNode(w.pc.pods, w.pc.st.prior);
      before := [NodesChange([NodeInfo(n, true)])];
      assert before[..0] == [];
      assert Run(w, before) == Next(Run(w, []), before[0]);
    }
  }

  lemma HelpfulCall(w: World, ok: bool, obj: Object)
    requires CanReturn(w, obj) && Gone(w, obj)
    requires w.pc.PickNodes? ==> ok && PickNode(w.pc.pods, w.nodes, w.pc.st.prior).Some?
    requires w.pc.CheckPv? || w.pc.CheckVas? <==> !ok
    ensures !Gone(Call(w, ok), obj) || CanReturn(Call(w, ok), obj)
  {
  }

  /** One helpful call: it brings the object back, or the pass closer to that. */
  lemma ReturnStep(w: World, obj: Object) returns (es: seq<Event>)
    requires CanReturn(w, obj) && Gone(w, obj)
    ensures NoCreation(es)
    ensures var next := Run(w, es);
      !Gone(next, obj) || (CanReturn(next, obj) && Closer(w.pc, next.pc))
  {
    var before, ok := Helpful(w);
    var v := Run(w, before);
    HelpfulCall(v, ok, obj);
    CallCloser(v, ok);
    es := before + [Answer(ok)];
    RunAppend(w, before, [Answer(ok)]);
    RunOne(v, Answer(ok));
    AnswerCalls(v, ok);
  }

  lemma AnswerCalls(w: World, ok: bool)
    ensures Next(w, Answer(ok)) == Call(w, ok)
  {
  }

  /** If the pass can, there is a run in which it does. */
  lemma {:induction false} Returns(w: World, obj: Object) returns (es: seq<Event>)
    requires CanReturn(w, obj) && Gone(w, obj)
    ensures NoCreation(es) && !Gone(Run(w, es), obj)
    decreases Distance(w.pc), Remaining(w.pc)
  {
    es := ReturnStep(w, obj);
    if Gone(Run(w, es), obj) {
      var rest := Returns(Run(w, es), obj);
      RunAppend(w, es, rest);
      es := es + rest;
    }
  }

  /** An object that is gone from a terminating claim can come back if and only
      if the pass in flight has yet to create it. */
  lemma ReturnsExactlyWhen(w: World, obj: Object)
    requires w.terminating && Gone(w, obj)
    ensures (exists es :: NoCreation(es) && !Gone(Run(w, es), obj)) <==> CanReturn(w, obj)
  {
    if CanReturn(w, obj) {
      var es := Returns(w, obj);
    } else {
      forall es | NoCreation(es) ensures Gone(Run(w, es), obj) { RunStaysGone(w, es, obj); }
    }
  }

  lemma DeletesPod(w: World)
    ensures Run(w, [DriverDeletes(ThePod), PodVanishes]) == w.(pod := None)
  {
    if w.pod.Some? {
      DeletedThenGone(w, true);
    } else {
      assert Next(w, DriverDeletes(ThePod)) == w;
      RunTwo(w, DriverDeletes(ThePod), PodVanishes);
    }
  }

  lemma DeletesRest(w: World)
    ensures Run(w, [DriverDeletes(TheBackingClaim), DriverDeletes(TheService), DriverDeletes(TheStateCm)])
      == w.(backing := NoClaim, svc := false, cm := Absent)
  {
    RunThree(w, DriverDeletes(TheBackingClaim), DriverDeletes(TheService), DriverDeletes(TheStateCm));
  }

  /** `delete_volume` on a claim that is being deleted, with no pass in flight,
      removes everything the volume consists of, once its pod is really gone. */
  lemma DeletionsRemoveAll(w: World)
    requires w.pc == Idle
    ensures var es := [Terminates] + [DriverDeletes(ThePod), PodVanishes]
                      + [DriverDeletes(TheBackingClaim), DriverDeletes(TheService), DriverDeletes(TheStateCm)];
      Run(w, es) == w.(terminating := true, pod := None, backing := NoClaim, svc := false, cm := Absent)
  {
    var rest := [DriverDeletes(TheBackingClaim), DriverDeletes(TheService), DriverDeletes(TheStateCm)];
    RunAppend(w, [Terminates] + [DriverDeletes(ThePod), PodVanishes], rest);
    RunAppend(w, [Terminates], [DriverDeletes(ThePod), PodVanishes]);
    RunOne(w, Terminates);
    DeletesPod(w.(terminating := true));
    DeletesRest(w.(terminating := true, pod := None));
  }

  // --------------------------------------------------------- nothing in flight

  lemma GoneStaysGone(w: World, e: Event, obj: Object)
    requires Quiescent(w) && !e.DriverCreates?
    ensures Quiescent(Next(w, e))
    ensures Gone(w, obj) || e == Removal(obj) ==> Gone(Next(w, e), obj)
  {
    if e.Answer? { assert Call(w, e.ok) == w; }
  }

  /** Whatever else happens, once the claim is terminating and no pass is in
      flight, every object whose removal occurs in the run is absent at its end. */
  lemma {:induction false} TeardownIsStable(w: World, es: seq<Event>, obj: Object)
    requires Quiescent(w) && NoCreation(es)
    ensures Quiescent(Run(w, es))
    ensures Gone(w, obj) || Removal(obj) in es ==> Gone(Run(w, es), obj)
  {
    if es == [] {
    } else {
      var front := es[..|es| - 1];
      TeardownIsStable(w, front, obj);
      assert Removal(obj) in es ==> Removal(obj) in front || Last(es) == Removal(obj);
      GoneStaysGone(Run(w, front), Last(es), obj);
    }
  }
}
