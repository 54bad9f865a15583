/** Before every placement the controller evicts exactly the workload pods that
    mount the claim. */
module EvictionSafety {
  import opened Base
  import opened Placement
  import opened FailoverModel
  import opened PlacementSafety

  /** "failing_over" is stored but the eviction that goes with it is not done. */
  predicate Owing(pc: Pc) {
    || pc.EvictList? || pc.Evict?
    || (pc.DetachPv? && pc.k.Failing?) || (pc.DetachList? && pc.k.Failing?) || (pc.Detach? && pc.k.Failing?)
  }

  /** The pass is not cut short while it owes an eviction: no crash, and no
      failure of a call whose error ends the pass or spares a victim. */
  ghost predicate Uninterrupted(w: World, e: Event) {
    && DriverBehaves(w, e)
    && (Owing(w.pc) ==> e != Crash && (e == Answer(false) ==> w.pc.DetachPv? || w.pc.Detach?))
  }

  ghost predicate PlacedAfterEviction(log: seq<Entry>) {
    forall i | 0 <= i < |log| && log[i].Placed? :: i > 0 && log[i - 1].Evicted?
  }

  ghost predicate EvictedExactly(log: seq<Entry>, claim: string) {
    forall i | 0 <= i < |log| && log[i].Evicted? :: log[i].deleted == ToSet(Victims(log[i].listed, claim))
  }

  predicate Paid(log: seq<Entry>) {
    log != [] && Last(log).Evicted?
  }

  /** What the log says at each call. */
  ghost predicate Settled(pc: Pc, stage: Stage, log: seq<Entry>, claim: string) {
    && (stage == FailingOver && !Owing(pc) ==> Paid(log))
    && (pc.PickPods? || pc.PickNodes? || pc.SavePlaced? ==> Paid(log))
    && (pc.Evict? ==> pc.todo != [] && ToSet(pc.todo) + pc.deleted == ToSet(Victims(pc.listed, claim)))
    && (pc.Detach? ==> pc.todo != [])
  }

  ghost predicate LogInv(w: World) {
    && Named(w.claim)
    && PlacedAfterEviction(w.log) && EvictedExactly(w.log, w.claim.name)
    && Settled(w.pc, Stored(w).stage, w.log, w.claim.name)
  }

  // ----------------------------------------------------------- the evicting calls

  /** The log once the victims `todo` remain and `deleted` are gone. */
  lemma EvictNextLogs(k: Then, listed: seq<Workload>, todo: seq<string>, deleted: set<string>,
                      stage: Stage, log: seq<Entry>, claim: string)
    requires PlacedAfterEviction(log) && EvictedExactly(log, claim)
    requires ToSet(todo) + deleted == ToSet(Victims(listed, claim))
    ensures var next := if todo == [] then log + [Evicted(listed, deleted)] else log;
      && PlacedAfterEviction(next) && EvictedExactly(next, claim)
      && Settled(EvictNext(k, listed, todo, deleted), stage, next, claim)
  {
    if todo == [] { assert ToSet(todo) == {}; }
  }

  lemma EvictListLogs(w: World, k: Then)
    requires LogInv(w) && w.pc == EvictList(k)
    ensures LogInv(Call(w, true))
  {
    EvictNextLogs(k, w.workloads, Victims(w.workloads, w.claim.name), {}, Stored(w).stage, w.log, w.claim.name);
  }

  lemma EvictLogs(w: World, k: Then, listed: seq<Workload>, todo: seq<string>, deleted: set<string>)
    requires LogInv(w) && w.pc == Evict(k, listed, todo, deleted)
    ensures LogInv(Call(w, true))
  {
    assert todo == [todo[0]] + todo[1..];
    assert ToSet(todo[1..]) + (deleted + {todo[0]}) == ToSet(todo) + deleted;
    EvictNextLogs(k, listed, todo[1..], deleted + {todo[0]}, Stored(w).stage, w.log, w.claim.name);
  }

  // ------------------------------------------------------------- all other calls

  /** The detaching calls neither write the log nor settle a debt. */
  lemma DetachSettles(w: World, ok: bool)
    requires LogInv(w) && (w.pc.DetachPv? || w.pc.DetachList? || w.pc.Detach?)
    requires ok || w.pc.DetachPv? || w.pc.Detach? || w.pc.k.Missing?
    ensures Settled(NextCall(w, ok), Stored(w).stage, w.log, w.claim.name)
  {
  }

  lemma QuietSettles(w: World, ok: bool)
    requires LogInv(w) && PassOk(w.pc, Stored(w), w.pod) && !Sweeps(w.pc) && Saves(w.pc).None?
    ensures Settled(NextCall(w, ok), Stored(w).stage, w.log, w.claim.name)
  {
  }

  lemma SaveLogs(w: World, ok: bool)
    requires LogInv(w) && PassOk(w.pc, Stored(w), w.pod) && Saves(w.pc).Some?
    ensures LogInv(Call(w, ok))
  {
  }

  lemma CallLogs(w: World, ok: bool)
    requires LogInv(w) && PassOk(w.pc, Stored(w), w.pod) && Uninterrupted(w, Answer(ok))
    ensures LogInv(Call(w, ok))
  {
    if Saves(w.pc).Some? { SaveLogs(w, ok); }
    else if w.pc.EvictList? { EvictListLogs(w, w.pc.k); }
    else if w.pc.Evict? { EvictLogs(w, w.pc.k, w.pc.listed, w.pc.todo, w.pc.deleted); }
    else {
      if Sweeps(w.pc) { DetachSettles(w, ok); } else { QuietSettles(w, ok); }
      assert Call(w, ok).log == w.log && Stored(Call(w, ok)).stage == Stored(w).stage;
    }
  }

  lemma NextLogs(w: World, e: Event)
    requires LogInv(w) && PassOk(w.pc, Stored(w), w.pod) && Uninterrupted(w, e)
    ensures LogInv(Next(w, e))
  {
    if e.Answer? { CallLogs(w, e.ok); }
    else {
      assert Next(w, e).log == w.log && Next(w, e).cm == w.cm && Next(w, e).claim == w.claim;
      assert Next(w, e).pc == w.pc || (!Owing(w.pc) && (Next(w, e).pc == Idle || Next(w, e).pc == LoadGet));
    }
  }

  lemma {:induction false} ClaimIsFixed(w: World, es: seq<Event>)
    ensures Run(w, es).claim == w.claim
  {
    if es == [] {
    } else {
      ClaimIsFixed(w, es[..|es| - 1]);
    }
  }

  lemma {:induction false} RunLogs(w: World, es: seq<Event>)
    requires Inv(w) && LogInv(w) && Throughout(w, es, Uninterrupted)
    ensures Inv(Run(w, es)) && LogInv(Run(w, es))
  {
    if es == [] {
    } else {
      var front := es[..|es| - 1];
      ThroughoutPrefix(w, es, Uninterrupted);
      RunLogs(w, front);
      NextKeepsInv(Run(w, front), Last(es));
      NextLogs(Run(w, front), Last(es));
    }
  }

  lemma {:induction false} VictimsExact(pods: seq<Workload>, claim: string)
    ensures forall n :: n in Victims(pods, claim) <==> exists p :: p in pods && p.name == n && claim in p.claims
  {
    if pods == [] {
    } else {
      VictimsExact(pods[1..], claim);
      assert forall p :: p in pods <==> p == pods[0] || p in pods[1..];
    }
  }

  /** In every run whose passes are not cut short while they owe an eviction,
      each placement comes right after an eviction (so there is one before the
      first placement and one between any two), and every eviction deleted the
      listed pods that mount the claim and no others. */
  lemma EvictionBeforePlacement(w: World, es: seq<Event>)
    requires JustBound(w) && Named(w.claim) && Throughout(w, es, Uninterrupted)
    ensures var log := Run(w, es).log;
      && (forall i | 0 <= i < |log| && log[i].Placed? :: i > 0 && log[i - 1].Evicted?)
      && (forall i, n | 0 <= i < |log| && log[i].Evicted? ::
            n in log[i].deleted <==> exists p :: p in log[i].listed && p.name == n && w.claim.name in p.claims)
  {
    RunLogs(w, es);
    ClaimIsFixed(w, es);
    var log := Run(w, es).log;
    forall i, n | 0 <= i < |log| && log[i].Evicted?
      ensures n in log[i].deleted <==> exists p :: p in log[i].listed && p.name == n && w.claim.name in p.claims
    {
      VictimsExact(log[i].listed, w.claim.name);
    }
  }
}
