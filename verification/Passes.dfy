/** Whole reconcile passes: the calls of one pass, all answered and with
    nothing happening in between. */
module Passes {
  import opened Base
  import opened Placement
  import opened FailoverModel
  import opened EvictionEffect

  /** A call that fails leaves the cluster as it is; a failed deletion is logged
      as none when it is the last of its loop. */
  lemma FailedCallChangesNothing(w: World)
    ensures Call(w, false) == w.(pc := NextCall(w, false), log := Call(w, false).log)
    ensures Call(w, false).log ==
      if w.pc.Evict? && |w.pc.todo| <= 1 then w.log + [Evicted(w.pc.listed, w.pc.deleted)] else w.log
  {
  }

  /** So does a call that comes too late: to create what is there already, to
      patch or to delete what is gone. */
  lemma LateCallChangesNothing(w: World, ok: bool)
    requires || (w.pc.LoadCreate? && !w.cm.Absent?) || (Saves(w.pc).Some? && w.cm.Absent?)
             || (w.pc.CreatePod? && w.pod.Some?) || (w.pc.PodDelete? && w.pod.None?)
    ensures Call(w, ok) == w.(pc := Call(w, ok).pc)
    ensures Call(w, ok).pc == if w.pc.LoadCreate? && ok then SvcGet(ShareState(None, [], Starting)) else Idle
  {
  }

  /** How far a pass is from its end; the sweeping loops count down by list length. */
  function Distance(pc: Pc): nat {
    match pc
    case Idle => 0
    case CreatePod(_) => 1
    case SavePlaced(_, _) => 2
    case PickNodes(_, _, first) => if first then 5 else 3
    case PickPods(_, first) => if first then 6 else 4
    case CheckVas(_, _) => 7
    case CheckPv(_) => 8
    case Detach(k, _) => if k.Failing? then 4 else 9
    case DetachList(k, _) => if k.Failing? then 5 else 10
    case DetachPv(k) => if k.Failing? then 6 else 11
    case Evict(k, _, _, _) => if k.Failing? then 2 else 12
    case EvictList(k) => if k.Failing? then 3 else 13
    case PodDelete => 1
    case SaveRunning(_) => 1
    case SaveFailing(_) => 7
    case SaveMissing(_) => 14
    case NodeGet(_, _) => 8
    case PodGet(_) => 15
    case SvcCreate(_) => 16
    case SvcGet(_) => 17
    case LoadCreate => 18
    case LoadGet => 19
  }

  function Remaining(pc: Pc): nat {
    match pc
    case Evict(_, _, todo, _) => |todo|
    case Detach(_, todo) => |todo|
    case _ => 0
  }

  ghost predicate Closer(pc: Pc, next: Pc) {
    Distance(next) < Distance(pc) || (Distance(next) == Distance(pc) && Remaining(next) < Remaining(pc))
  }

  lemma SweepCloser(w: World, ok: bool)
    requires w.pc.EvictList? || w.pc.Evict? || w.pc.DetachPv? || w.pc.DetachList? || w.pc.Detach?
    ensures Closer(w.pc, NextCall(w, ok))
  {
  }

  lemma OtherCloser(w: World, ok: bool)
    requires !(w.pc.EvictList? || w.pc.Evict? || w.pc.DetachPv? || w.pc.DetachList? || w.pc.Detach?) && !w.pc.Idle?
    ensures Closer(w.pc, NextCall(w, ok))
  {
  }

  /** Every call, answered or failed, brings the pass closer to its end. */
  lemma CallCloser(w: World, ok: bool)
    requires !w.pc.Idle?
    ensures Closer(w.pc, Call(w, ok).pc)
  {
    if w.pc.EvictList? || w.pc.Evict? || w.pc.DetachPv? || w.pc.DetachList? || w.pc.Detach? {
      SweepCloser(w, ok);
    } else {
      OtherCloser(w, ok);
    }
  }

  /** The rest of the pass in progress, every call answered. */
  function Finish(w: World): World
    decreases Distance(w.pc), Remaining(w.pc)
  {
    if w.pc.Idle? then w else CallCloser(w, true); Finish(Call(w, true))
  }

  function Pass(w: World): World {
    Finish(Next(w, Begin))
  }

  lemma {:induction false} FinishIsRun(w: World)
    ensures exists es :: Finish(w) == Run(w, es) && forall e | e in es :: e == Answer(true)
    decreases Distance(w.pc), Remaining(w.pc)
  {
    if w.pc.Idle? {
      assert Run(w, []) == w;
    } else {
      CallCloser(w, true);
      var next := Call(w, true);
      FinishIsRun(next);
      var es :| Finish(next) == Run(next, es) && forall e | e in es :: e == Answer(true);
      RunCons(w, Answer(true), es);
      assert Finish(w) == Run(w, [Answer(true)] + es);
    }
  }

  lemma {:induction false} RunCons(w: World, e: Event, es: seq<Event>)
    ensures Run(w, [e] + es) == Run(Next(w, e), es)
  {
    if es == [] {
      assert [e] + es == [e] && [e][..0] == [];
      assert Run(w, [e]) == Next(Run(w, []), e);
    } else {
      var all := [e] + es;
      assert all[..|all| - 1] == [e] + es[..|es| - 1];
      RunCons(w, e, es[..|es| - 1]);
    }
  }

  /** A pass is a run of the machine that ends idle. */
  lemma PassIsRun(w: World)
    ensures exists es :: Pass(w) == Run(w, [Begin] + es) && forall e | e in es :: e == Answer(true)
  {
    var next := Next(w, Begin);
    FinishIsRun(next);
    var es :| Finish(next) == Run(next, es) && forall e | e in es :: e == Answer(true);
    RunCons(w, Begin, es);
  }

  // -------------------------------------------------- the sweeping sub-loops

  /** `b` is `a` with exactly the attachments of the given names marked as well. */
  ghost predicate Marks(a: seq<Attachment>, b: seq<Attachment>, names: set<string>) {
    && |b| == |a|
    && forall i | 0 <= i < |a| :: b[i] == a[i].(deleting := a[i].deleting || a[i].name in names)
  }

  lemma MarkOne(vas: seq<Attachment>, name: string)
    ensures Marks(vas, MarkAttachment(vas, name), {name})
  {
  }

  lemma MarkMore(a: seq<Attachment>, b: seq<Attachment>, c: seq<Attachment>, names: set<string>, more: set<string>)
    requires Marks(a, b, names) && Marks(b, c, more)
    ensures Marks(a, c, names + more)
  {
  }

  lemma FirstAndRest<T>(s: seq<T>)
    requires s != []
    ensures ToSet(s) == {s[0]} + ToSet(s[1..])
  {
  }

  /** The undisturbed pass gets from `w` to `v` on its way to the end. */
  ghost predicate Leads(w: World, v: World) {
    forall u: World {:trigger Shown(u)} | Shown(u) && u == w :: Finish(u) == Finish(v)
  }

  lemma LeadsOn(w: World, v: World)
    requires !w.pc.Idle? && Call(w, true) == v
    ensures Leads(w, v)
  {
  }

  /** Calls that only read. */
  predicate Reads(pc: Pc) {
    || pc.LoadGet? || pc.SvcGet? || pc.PodGet? || pc.NodeGet? || pc.DetachPv? || pc.DetachList?
    || pc.CheckPv? || pc.CheckVas? || pc.PickPods? || pc.PickNodes?
  }

  lemma LeadsReading(w: World, pc: Pc)
    requires Reads(w.pc) && NextCall(w, true) == pc
    ensures Leads(w, w.(pc := pc))
  {
    LeadsOn(w, w.(pc := pc));
  }

  lemma LeadsOver(u: World, v: World, w: World)
    requires Leads(u, v) && Leads(v, w)
    ensures Leads(u, w)
  {
    assert Shown(u) && Shown(v);
  }

  lemma LeadsSelf(w: World)
    ensures Leads(w, w)
  {
  }

  lemma LeadsToEnd(w: World, v: World)
    requires Leads(w, v) && v.pc.Idle?
    ensures Finish(w) == v
  {
    assert Shown(w);
  }

  /** Deleting the named attachments, one call each. */
  lemma {:induction false} DetachLeads(w: World, k: Then, todo: seq<string>) returns (next: World)
    requires w.pc == DetachNext(w.claim, k, todo)
    ensures Leads(w, next)
    ensures next == w.(pc := AfterDetach(w.claim, k), vas := next.vas)
    ensures Marks(w.vas, next.vas, ToSet(todo))
    decreases |todo|
  {
    if todo == [] {
      next := w;
      LeadsSelf(w);
    } else {
      var w1 := w.(pc := DetachNext(w.claim, k, todo[1..]), vas := MarkAttachment(w.vas, todo[0]));
      LeadsOn(w, w1);
      MarkOne(w.vas, todo[0]);
      next := DetachLeads(w1, k, todo[1..]);
      LeadsOver(w, w1, next);
      MarkMore(w.vas, w1.vas, next.vas, {todo[0]}, ToSet(todo[1..]));
      FirstAndRest(todo);
    }
  }

  /** The log after the loop over `todo`; its last call writes the entry. */
  function Logged(log: seq<Entry>, listed: seq<Workload>, todo: seq<string>, deleted: set<string>): seq<Entry> {
    if todo == [] then log else log + [Evicted(listed, deleted + ToSet(todo))]
  }

  lemma LoggedOneMore(log: seq<Entry>, listed: seq<Workload>, todo: seq<string>, deleted: set<string>)
    requires todo != []
    ensures var done := deleted + {todo[0]};
      Logged(if |todo| == 1 then log + [Evicted(listed, done)] else log, listed, todo[1..], done)
      == Logged(log, listed, todo, deleted)
  {
    FirstAndRest(todo);
    if |todo| == 1 { assert todo[1..] == [] && ToSet(todo) == {todo[0]}; }
    assert deleted + {todo[0]} + ToSet(todo[1..]) == deleted + ToSet(todo);
  }

  /** Deleting the listed victims, one call each. */
  lemma {:induction false} EvictLeads(w: World, k: Then, listed: seq<Workload>, todo: seq<string>, deleted: set<string>)
    returns (next: World)
    requires w.pc == EvictNext(k, listed, todo, deleted)
    ensures Leads(w, next)
    ensures next == w.(pc := AfterEvict(k), workloads := next.workloads, log := next.log)
    ensures MarksExactly(w.workloads, next.workloads, ToSet(todo))
    ensures next.log == Logged(w.log, listed, todo, deleted)
    decreases |todo|
  {
    if todo == [] {
      next := w;
      LeadsSelf(w);
    } else {
      var w1 := Call(w, true);
      var done := deleted + {todo[0]};
      LeadsOn(w, w1);
      FirstAndRest(todo);
      CallMarksExactly(w, true);
      next := EvictLeads(w1, k, listed, todo[1..], done);
      LeadsOver(w, w1, next);
      MarksOneMore(w.workloads, w1.workloads, next.workloads, {todo[0]}, ToSet(todo[1..]));
      LoggedOneMore(w.log, listed, todo, deleted);
    }
  }
}
