/** When a pass fails over: exactly when it finds the pod dead, or cannot see its
    node ready. A pod that is still pending is never replaced. */
module FailoverTriggers {
  import opened Base
  import opened Placement
  import opened FailoverModel

  predicate Dead(p: Pod) {
    p.phase in {Failed, Unknown, Succeeded}
  }

  /** The node read fails, or shows the node not ready. */
  predicate NodeLost(w: World, e: Event) {
    w.pc.NodeGet? && e.Answer? && !(e.ok && NodeReady(w.nodes, w.pc.n))
  }

  /** A call starts the failover if and only if it is the answered look at a dead
      pod, or the look at its node, failed or not ready. */
  lemma StartsFailoverExactlyWhen(w: World, ok: bool)
    ensures !Fails(w.pc) && Fails(NextCall(w, ok)) <==>
      || (w.pc.PodGet? && ok && w.pod.Some? && Dead(w.pod.value))
      || NodeLost(w, Answer(ok))
  {
  }

  /** Nobody else touches the pod; everything else moves, calls fail, the
      controller crashes. */
  predicate HandsOffPod(e: Event) {
    match e
    case Begin => false
    case PodBinds => false
    case PodPhase(_) => false
    case PodDeletes => false
    case PodVanishes => false
    case DriverDeletes(obj) => obj != ThePod
    case _ => true
  }

  /** The pass ends before its failover is complete: a crash, a failed look, a
      record that cannot be saved, a failed listing, a failed deletion of the pod. */
  predicate CutShort(w: World, e: Event) {
    match e
    case Crash => !w.pc.Idle?
    case Answer(ok) =>
      (match w.pc
       case LoadGet => !ok
       case LoadCreate => !ok
       case SvcCreate(_) => !ok
       case PodGet(_) => !ok
       case SaveFailing(_) => !CanSave(w, ok)
       case DetachList(_, _) => !ok
       case EvictList(_) => !ok
       case PodDelete => !ok
       case _ => false)
    case _ => false
  }

  /** Where a pass over the pod `p` can be, given that its node was found `lost`
      and the pass `cut` short, or not. */
  ghost predicate OnTrack(w: World, p: Pod, lost: bool, cut: bool) {
    if w.pc.Idle? then w.pod == Some(p.(deleting := p.deleting || ((Dead(p) || lost) && !cut)))
    else
      && w.pod == Some(p) && !cut
      && (|| (Looking(w.pc) && !lost)
          || (w.pc.NodeGet? && !lost && !Dead(p))
          || (w.pc.SaveRunning? && !lost && !Dead(p))
          || (Fails(w.pc) && (Dead(p) || lost)))
  }

  lemma CallOnTrack(w: World, ok: bool, p: Pod, lost: bool, cut: bool)
    requires OnTrack(w, p, lost, cut) && !w.pc.Idle?
    ensures OnTrack(Call(w, ok), p, lost || NodeLost(w, Answer(ok)), cut || CutShort(w, Answer(ok)))
  {
  }

  lemma OutsideOnTrack(w: World, e: Event, p: Pod, lost: bool, cut: bool)
    requires OnTrack(w, p, lost, cut) && HandsOffPod(e) && !e.Answer?
    ensures OnTrack(Next(w, e), p, lost, cut || CutShort(w, e))
  {
  }

  lemma {:induction false} RunOnTrack(w: World, es: seq<Event>, p: Pod)
    requires OnTrack(w, p, false, false) && forall e | e in es :: HandsOffPod(e)
    ensures OnTrack(Run(w, es), p, Occurs(w, es, NodeLost), Occurs(w, es, CutShort))
  {
    if es == [] {
    } else {
      var front, e := es[..|es| - 1], Last(es);
      var v := Run(w, front);
      RunOnTrack(w, front, p);
      StepOnTrack(v, e, p, Occurs(w, front, NodeLost), Occurs(w, front, CutShort));
    }
  }

  lemma StepOnTrack(v: World, e: Event, p: Pod, lost: bool, cut: bool)
    requires OnTrack(v, p, lost, cut) && HandsOffPod(e)
    ensures OnTrack(Next(v, e), p, lost || NodeLost(v, e), cut || CutShort(v, e))
  {
    if !e.Answer? { OutsideOnTrack(v, e, p, lost, cut); }
    else if !v.pc.Idle? { CallOnTrack(v, e.ok, p, lost, cut); }
    else { assert Call(v, e.ok) == v; }
  }

  /** A pass that finds a pod marks it for deletion if and only if the pod is dead
      or the look at its node failed or showed it not ready, and the pass was
      not cut short; for all answers and whatever else moves between its calls. */
  lemma FailsOverExactlyWhen(w: World, es: seq<Event>)
    requires w.pc == Idle && !w.terminating && w.pod.Some? && forall e | e in es :: HandsOffPod(e)
    ensures var v, p := Next(w, Begin), w.pod.value;
      var r := Run(v, es);
      var marks := (Dead(p) || Occurs(v, es, NodeLost)) && !Occurs(v, es, CutShort);
      r.pc == Idle ==> r.pod == Some(p.(deleting := p.deleting || marks))
  {
    RunOnTrack(Next(w, Begin), es, w.pod.value);
  }

  // ----------------------------------------------------------- pending pods

  /** The pod stays pending and nobody else deletes it; passes begin, fail and
      crash, nodes come and go, the CSI driver does what it likes with the rest. */
  predicate StaysPending(w: World, e: Event) {
    match e
    case PodPhase(p) => p.Pending?
    case PodDeletes => false
    case PodVanishes => false
    case DriverDeletes(obj) => obj != ThePod
    case _ => true
  }

  ghost predicate Waits(w: World, p: Pod) {
    && w.pod.Some? && w.pod.value.(bound := p.bound) == p && p.phase.Pending?
    && (w.pc.Idle? || Looking(w.pc))
  }

  lemma NextWaits(w: World, e: Event, p: Pod)
    requires Waits(w, p) && StaysPending(w, e)
    ensures Waits(Next(w, e), p)
  {
    if e.Answer? { CallWaits(w, e.ok, p); }
  }

  lemma CallWaits(w: World, ok: bool, p: Pod)
    requires Waits(w, p)
    ensures Waits(Call(w, ok), p)
  {
  }

  /** In any run at all, a pod that stays pending is never marked for deletion
      and never replaced, ready node or not. */
  lemma {:induction false} PendingIsNeverReplaced(w: World, es: seq<Event>)
    requires w.pc == Idle && w.pod.Some? && w.pod.value.phase.Pending? && Throughout(w, es, StaysPending)
    ensures var r := Run(w, es);
      && r.pod.Some? && r.pod.value.target == w.pod.value.target && r.pod.value.deleting == w.pod.value.deleting
      && Waits(r, w.pod.value)
  {
    if es == [] {
    } else {
      ThroughoutPrefix(w, es, StaysPending);
      PendingIsNeverReplaced(w, es[..|es| - 1]);
      NextWaits(Run(w, es[..|es| - 1]), Last(es), w.pod.value);
    }
  }
}
