/** What the eviction does to the pods themselves, not only to the log. */
module EvictionEffect {
  import opened Base
  import opened Placement
  import opened FailoverModel
  import opened EvictionSafety
  import opened EvictionDebts

  /** `after` is `pods` with those of the given names marked for deletion as well. */
  ghost predicate MarksExactly(pods: seq<Workload>, after: seq<Workload>, names: set<string>) {
    && |after| == |pods|
    && forall i | 0 <= i < |pods| ::
         && after[i].name == pods[i].name && after[i].claims == pods[i].claims
         && (after[i].deleting <==> pods[i].deleting || pods[i].name in names)
  }

  /** Which pods a call marks: none, or those of the name it deletes. */
  function DeletedNow(w: World, ok: bool): set<string> {
    if w.pc.Evict? && ok && w.pc.todo != [] then {w.pc.todo[0]} else {}
  }

  /** When the deletion of a pod is answered, exactly the pods of that name become
      marked; every other pod stays as it is, and so do all pods on all other calls. */
  lemma CallMarksExactly(w: World, ok: bool)
    ensures MarksExactly(w.workloads, Call(w, ok).workloads, DeletedNow(w, ok))
  {
  }

  // ------------------------------------------------------------ over a whole run

  /** The deleting loop has victims only. */
  ghost predicate OnlyVictims(pc: Pc, claim: string) {
    pc.Evict? ==> forall n | n in pc.todo :: n in Victims(pc.listed, claim)
  }

  lemma NextOnlyVictims(w: World, e: Event)
    requires OnlyVictims(w.pc, w.claim.name)
    ensures OnlyVictims(Next(w, e).pc, Next(w, e).claim.name) && Next(w, e).claim == w.claim
  {
    if e.Answer? { CallOnlyVictims(w, e.ok); }
  }

  lemma CallOnlyVictims(w: World, ok: bool)
    requires OnlyVictims(w.pc, w.claim.name)
    ensures OnlyVictims(NextCall(w, ok), w.claim.name)
  {
  }

  lemma {:induction false} RunOnlyVictims(w: World, es: seq<Event>)
    requires OnlyVictims(w.pc, w.claim.name)
    ensures OnlyVictims(Run(w, es).pc, w.claim.name) && Run(w, es).claim == w.claim
  {
    if es == [] {
    } else {
      RunOnlyVictims(w, es[..|es| - 1]);
      NextOnlyVictims(Run(w, es[..|es| - 1]), Last(es));
    }
  }

  ghost predicate Mounts(listed: seq<Workload>, name: string, claim: string) {
    exists p :: p in listed && p.name == name && claim in p.claims
  }

  /** A change is a mark, on a pod of the name being deleted. */
  lemma MarkedOne(pods: seq<Workload>, after: seq<Workload>, names: set<string>, i: nat)
    requires MarksExactly(pods, after, names) && i < |pods| && after[i] != pods[i]
    ensures after[i] == pods[i].(deleting := true) && pods[i].name in names
  {
  }

  lemma CallMarksMounting(v: World, ok: bool, i: nat)
    requires OnlyVictims(v.pc, v.claim.name) && i < |v.workloads| && i < |CallWorkloads(v, ok)|
    ensures var after := CallWorkloads(v, ok);
      after[i] != v.workloads[i] ==>
        && after[i] == v.workloads[i].(deleting := true)
        && v.pc.Evict? && Mounts(v.pc.listed, after[i].name, v.claim.name)
  {
    var after := CallWorkloads(v, ok);
    if after[i] != v.workloads[i] {
      CallMarksExactly(v, ok);
      MarkedOne(v.workloads, after, DeletedNow(v, ok), i);
      assert v.pc.todo[0] in v.pc.todo && after[i].name == v.pc.todo[0];
      VictimsExact(v.pc.listed, v.claim.name);
    }
  }

  /** In every run, a call changes a pod of the claim's namespace only by marking
      it, and only if a pod of that name was listed as mounting the claim. */
  lemma OnlyMountingPodsMarked(w: World, es: seq<Event>, ok: bool)
    requires w.pc == Idle
    ensures var v := Run(w, es);
      var after := Call(v, ok).workloads;
      |after| == |v.workloads| && forall i | 0 <= i < |after| && after[i] != v.workloads[i] ::
        && after[i] == v.workloads[i].(deleting := true)
        && v.pc.Evict? && Mounts(v.pc.listed, after[i].name, w.claim.name)
  {
    var v := Run(w, es);
    RunOnlyVictims(w, es);
    forall i: nat | i < |v.workloads| && i < |CallWorkloads(v, ok)|
      ensures CallWorkloads(v, ok)[i] != v.workloads[i] ==>
        && CallWorkloads(v, ok)[i] == v.workloads[i].(deleting := true)
        && v.pc.Evict? && Mounts(v.pc.listed, CallWorkloads(v, ok)[i].name, w.claim.name)
    {
      CallMarksMounting(v, ok, i);
    }
  }

  // ------------------------------------------------------------ a whole eviction

  /** Anything inside the pass, but nobody else moves the workloads. */
  predicate WorkloadsStill(es: seq<Event>) {
    forall e | e in es :: Inside(e) && !e.WorkloadsChange?
  }

  lemma StillEvent(w: World, e: Event)
    requires Inside(e) && !e.WorkloadsChange? && !e.Answer?
    ensures Next(w, e).workloads == w.workloads
  {
  }

  lemma MarksOneMore(pods: seq<Workload>, mid: seq<Workload>, after: seq<Workload>, names: set<string>,
                     more: set<string>)
    requires MarksExactly(pods, mid, names) && MarksExactly(mid, after, more)
    ensures MarksExactly(pods, after, names + more)
  {
  }

  /** The names a step of the loop deletes. */
  lemma StepDeletes(v: World, e: Event, k: Then, listed: seq<Workload>, todo: seq<string>, log: seq<Entry>,
                    oks: seq<bool>)
    requires LoopAt(v, k, listed, todo, log, oks) && e.Answer?
    ensures Done(todo, oks) + DeletedNow(v, e.ok) == Done(todo, oks + [e.ok])
  {
    if |oks| < |todo| { DoneMore(todo, oks, e.ok); } else { DoneNoMore(todo, oks, e.ok); }
  }

  lemma {:induction false} LoopMarks(w: World, es: seq<Event>, k: Then, listed: seq<Workload>, todo: seq<string>,
                                     log: seq<Entry>)
    requires LoopAt(w, k, listed, todo, log, []) && WorkloadsStill(es)
    ensures MarksExactly(w.workloads, Run(w, es).workloads, Done(todo, Oks(es)))
  {
    if es == [] {
      assert Done(todo, []) == {};
    } else {
      var front, e := es[..|es| - 1], Last(es);
      var v := Run(w, front);
      LoopMarks(w, front, k, listed, todo, log);
      LoopRun(w, front, k, listed, todo, log);
      if e.Answer? {
        CallMarksExactly(v, e.ok);
        StepDeletes(v, e, k, listed, todo, log, Oks(front));
        MarksOneMore(w.workloads, v.workloads, Call(v, e.ok).workloads, Done(todo, Oks(front)), DeletedNow(v, e.ok));
      } else {
        StillEvent(v, e);
      }
    }
  }

  /** From an answered listing on, as long as nobody else moves the workloads: the
      pods marked are exactly those of the names whose deletion was answered. If
      one was for each victim, a pod of the listing ends up marked if and only if
      it was before, or a listed pod of its name mounts the claim. */
  lemma EvictionMarksExactly(w: World, k: Then, rest: seq<Event>)
    requires w.pc == EvictList(k) && WorkloadsStill(rest)
    ensures var r := Run(Call(w, true), rest);
      var todo, oks := Victims(w.workloads, w.claim.name), Oks(rest);
      && MarksExactly(w.workloads, r.workloads, Done(todo, oks))
      && (EachAnswered(todo, oks) ==> forall i | 0 <= i < |r.workloads| ::
            r.workloads[i].deleting <==>
              w.workloads[i].deleting || Mounts(w.workloads, w.workloads[i].name, w.claim.name))
  {
    var todo, oks := Victims(w.workloads, w.claim.name), Oks(rest);
    ListingStarts(w, k);
    LoopMarks(Call(w, true), rest, k, w.workloads, todo, w.log);
    if EachAnswered(todo, oks) {
      DoneAll(todo, oks);
      VictimsExact(w.workloads, w.claim.name);
    }
  }
}
