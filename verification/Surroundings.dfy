/** What can happen around the controller: nothing in the cluster is beyond the
    reach of the events, and each leaves alone what it is not about. */
module Surroundings {
  import opened Base
  import opened Placement
  import opened FailoverModel

  lemma RunTwo(w: World, e: Event, f: Event)
    ensures Run(w, [e, f]) == Next(Next(w, e), f)
  {
    assert [e, f][..1] == [e];
    RunOne(w, e);
  }

  lemma RunThree(w: World, e: Event, f: Event, g: Event)
    ensures Run(w, [e, f, g]) == Next(Next(Next(w, e), f), g)
  {
    assert [e, f, g][..2] == [e, f];
    RunTwo(w, e, f);
  }

  /** Nodes, other pods and the claim's namespace can come to look like anything. */
  lemma AnythingAround(w: World, nodes: seq<NodeInfo>, others: PodListing, workloads: seq<Workload>)
    ensures Run(w, [NodesChange(nodes), OthersChange(others), WorkloadsChange(workloads)])
      == w.(nodes := nodes, others := others, workloads := workloads)
  {
    RunThree(w, NodesChange(nodes), OthersChange(others), WorkloadsChange(workloads));
  }

  /** The pod can be bound, to its own target only, and can get into every phase from every other. */
  lemma AnyPhase(w: World, phase: Phase)
    requires w.pod.Some?
    ensures var pod := w.pod.value;
      Run(w, [PodBinds, PodPhase(phase)]) == w.(pod := Some(Pod(pod.target, true, phase, pod.deleting, pod.ours)))
  {
    RunTwo(w, PodBinds, PodPhase(phase));
  }

  /** Whoever deletes the pod, it is only marked at first, and gone later. */
  lemma DeletedThenGone(w: World, byDriver: bool)
    requires w.pod.Some?
    ensures var deletes := if byDriver then DriverDeletes(ThePod) else PodDeletes;
      && Run(w, [deletes]) == w.(pod := Some(w.pod.value.(deleting := true)))
      && Run(w, [deletes, PodVanishes]) == w.(pod := None)
  {
    var deletes := if byDriver then DriverDeletes(ThePod) else PodDeletes;
    var marked := w.(pod := Some(w.pod.value.(deleting := true)));
    assert Next(w, deletes) == marked && Next(marked, PodVanishes) == w.(pod := None);
    RunOne(w, deletes);
    RunTwo(w, deletes, PodVanishes);
  }

  lemma {:induction false} UnknownName(vas: seq<Attachment>, va: Attachment)
    requires forall a | a in vas :: a.name != va.name
    ensures WithoutAttachment(vas, va.name) == vas
    ensures WithoutAttachment(vas + [va], va.name) == vas
  {
    if vas == [] {
      assert vas + [va] == [va];
    } else {
      assert (vas + [va])[1..] == vas[1..] + [va];
      UnknownName(vas[1..], va);
    }
  }

  /** An attachment with a new name comes and goes: all others stay as they are. */
  lemma AttachedAndDetached(w: World, va: Attachment)
    requires Enabled(w, Attaches(va)) && forall a | a in w.vas :: a.name != va.name
    ensures Run(w, [Attaches(va)]) == w.(vas := w.vas + [va])
    ensures Run(w, [Attaches(va), Detaches(va.name)]) == w
  {
    RunOne(w, Attaches(va));
    RunTwo(w, Attaches(va), Detaches(va.name));
    UnknownName(w.vas, va);
  }

  /** The backing claim is bound once, to a volume that is attached nowhere yet;
      from then on the attacher attaches it only where the pod runs. */
  lemma BoundThenAttached(w: World, va: Attachment)
    requires w.backing.Unbound? && AttachmentsOf(w.vas, va.pv) == []
    ensures var runs := w.pod.Some? && w.pod.value.bound && w.pod.value.target == va.node;
      Run(w, [ClaimBinds(va.pv), Attaches(va)])
        == w.(backing := Bound(va.pv), vas := if runs then w.vas + [va] else w.vas)
  {
    RunTwo(w, ClaimBinds(va.pv), Attaches(va));
  }

  /** A crash loses the pass in progress with the record in hand, and nothing else;
      the next pass starts from what is stored. */
  lemma CrashedAndRestarted(w: World)
    ensures Run(w, [Crash, Begin]) == w.(pc := if w.terminating then Idle else LoadGet)
  {
    RunTwo(w, Crash, Begin);
  }
}
