/** Exactly when a pass evicts, and exactly which placements come without an
    eviction. */
module EvictionDebts {
  import opened Base
  import opened Placement
  import opened FailoverModel
  import opened PlacementSafety
  import opened EvictionSafety

  /** Anything that can happen during a pass except its end by a crash. */
  predicate Inside(e: Event) {
    !e.Begin? && !e.Crash? && !e.DriverDeletes?
  }

  predicate AllInside(es: seq<Event>) {
    forall e | e in es :: Inside(e)
  }

  /** Only the surroundings move. */
  predicate AllAround(es: seq<Event>) {
    forall e | e in es :: Inside(e) && !e.Answer?
  }

  /** The answers of a stretch of a pass, in order. */
  function Oks(es: seq<Event>): seq<bool> {
    if es == [] then []
    else if Last(es).Answer? then Oks(es[..|es| - 1]) + [Last(es).ok]
    else Oks(es[..|es| - 1])
  }

  // -------------------------------------------------------- the deleting loop

  /** What is deleted of `todo` by calls answered `oks`. */
  function Done(todo: seq<string>, oks: seq<bool>): set<string> {
    set i | 0 <= i < |todo| && i < |oks| && oks[i] :: todo[i]
  }

  lemma DoneMore(todo: seq<string>, oks: seq<bool>, ok: bool)
    requires |oks| < |todo|
    ensures Done(todo, oks + [ok]) == Done(todo, oks) + (if ok then {todo[|oks|]} else {})
  {
    var more := oks + [ok];
    forall n | n in Done(todo, more) ensures n in Done(todo, oks) + (if ok then {todo[|oks|]} else {}) {
      var i :| 0 <= i < |todo| && i < |more| && more[i] && todo[i] == n;
      if i < |oks| { assert oks[i]; }
    }
    forall n | n in Done(todo, oks) + (if ok then {todo[|oks|]} else {}) ensures n in Done(todo, more) {
      if n in Done(todo, oks) {
        var i :| 0 <= i < |todo| && i < |oks| && oks[i] && todo[i] == n;
        assert more[i];
      } else {
        assert more[|oks|];
      }
    }
  }

  lemma DoneNoMore(todo: seq<string>, oks: seq<bool>, ok: bool)
    requires |todo| <= |oks|
    ensures Done(todo, oks + [ok]) == Done(todo, oks)
  {
    var more := oks + [ok];
    assert forall i | 0 <= i < |todo| :: more[i] == oks[i];
  }

  /** After the eviction, or without one: no more of it in this pass. */
  predicate PastEviction(pc: Pc) {
    match pc
    case Idle => true
    case PodDelete => true
    case DetachPv(k) => k.Missing?
    case DetachList(k, _) => k.Missing?
    case Detach(k, _) => k.Missing?
    case CheckPv(_) => true
    case CheckVas(_, _) => true
    case PickPods(_, _) => true
    case PickNodes(_, _, _) => true
    case SavePlaced(_, _) => true
    case CreatePod(_) => true
    case _ => false
  }

  /** Nothing but placements follows the first `n` entries. */
  ghost predicate OnlyPlaced(log: seq<Entry>, n: nat) {
    n <= |log| && forall i | n <= i < |log| :: log[i].Placed?
  }

  lemma EventAround(w: World, e: Event)
    requires Inside(e) && !e.Answer?
    ensures Next(w, e).pc == w.pc && Next(w, e).log == w.log && Next(w, e).claim == w.claim
  {
  }

  lemma PastCall(w: World, ok: bool)
    requires PastEviction(w.pc)
    ensures PastEviction(NextCall(w, ok))
    ensures CallLog(w, ok) == w.log || exists n :: CallLog(w, ok) == w.log + [Placed(n)]
  {
  }

  lemma PastStays(w: World, e: Event)
    requires PastEviction(w.pc) && Inside(e)
    ensures var next := Next(w, e);
      && PastEviction(next.pc)
      && (next.log == w.log || exists n :: next.log == w.log + [Placed(n)])
  {
    if e.Answer? { PastCall(w, e.ok); } else { EventAround(w, e); }
  }

  lemma {:induction false} PastRun(w: World, es: seq<Event>)
    requires PastEviction(w.pc) && AllInside(es)
    ensures var r := Run(w, es);
      PastEviction(r.pc) && w.log <= r.log && OnlyPlaced(r.log, |w.log|)
  {
    if es == [] {
    } else {
      PastRun(w, es[..|es| - 1]);
      PastStays(Run(w, es[..|es| - 1]), Last(es));
    }
  }

  /** Where the deleting loop stands after the answers `oks`. */
  ghost predicate LoopAt(w: World, k: Then, listed: seq<Workload>, todo: seq<string>, log: seq<Entry>, oks: seq<bool>) {
    if |oks| < |todo| then w.pc == Evict(k, listed, todo[|oks|..], Done(todo, oks)) && w.log == log
    else
      && PastEviction(w.pc) && log + [Evicted(listed, Done(todo, oks))] <= w.log
      && OnlyPlaced(w.log, |log| + 1)
  }

  lemma LoopCall(w: World, ok: bool, k: Then, listed: seq<Workload>, todo: seq<string>, log: seq<Entry>, oks: seq<bool>)
    requires LoopAt(w, k, listed, todo, log, oks) && |oks| < |todo|
    ensures LoopAt(Call(w, ok), k, listed, todo, log, oks + [ok])
  {
    DoneMore(todo, oks, ok);
    var rest := todo[|oks|..];
    assert rest[0] == todo[|oks|] && Rest(rest) == todo[|oks| + 1..];
    assert Deleted(rest, ok, Done(todo, oks)) == Done(todo, oks + [ok]);
    if |rest| == 1 { assert CallLog(w, ok) == log + [Evicted(listed, Done(todo, oks + [ok]))]; }
  }

  lemma LoopStep(w: World, e: Event, k: Then, listed: seq<Workload>, todo: seq<string>, log: seq<Entry>, oks: seq<bool>)
    requires LoopAt(w, k, listed, todo, log, oks) && Inside(e)
    ensures LoopAt(Next(w, e), k, listed, todo, log, if e.Answer? then oks + [e.ok] else oks)
  {
    if |oks| >= |todo| {
      PastStays(w, e);
      if e.Answer? { DoneNoMore(todo, oks, e.ok); }
    } else if e.Answer? {
      LoopCall(w, e.ok, k, listed, todo, log, oks);
    } else {
      EventAround(w, e);
    }
  }

  lemma {:induction false} LoopRun(w: World, es: seq<Event>, k: Then, listed: seq<Workload>, todo: seq<string>,
                                   log: seq<Entry>)
    requires LoopAt(w, k, listed, todo, log, []) && AllInside(es)
    ensures LoopAt(Run(w, es), k, listed, todo, log, Oks(es))
  {
    if es == [] {
    } else {
      LoopRun(w, es[..|es| - 1], k, listed, todo, log);
      LoopStep(Run(w, es[..|es| - 1]), Last(es), k, listed, todo, log, Oks(es[..|es| - 1]));
    }
  }

  // ------------------------------------------------------ exactly when a pass evicts

  ghost predicate Answered(todo: seq<string>, oks: seq<bool>, name: string) {
    exists i :: 0 <= i < |todo| && i < |oks| && todo[i] == name && oks[i]
  }

  /** All deletions were sent, and one of every victim was answered. */
  ghost predicate EachAnswered(todo: seq<string>, oks: seq<bool>) {
    |todo| <= |oks| && forall n | n in todo :: Answered(todo, oks, n)
  }

  lemma DoneAll(todo: seq<string>, oks: seq<bool>)
    requires |todo| <= |oks|
    ensures Done(todo, oks) == ToSet(todo) <==> EachAnswered(todo, oks)
  {
    forall n ensures n in Done(todo, oks) <==> Answered(todo, oks, n) {
      if Answered(todo, oks, n) {
        var i :| 0 <= i < |todo| && i < |oks| && todo[i] == n && oks[i];
        assert todo[i] in Done(todo, oks);
      }
    }
    assert Done(todo, oks) <= ToSet(todo);
  }

  /** The log has gained an eviction that deleted every victim. */
  ghost predicate EvictsAll(log: seq<Entry>, after: seq<Entry>, claim: string) {
    exists i :: |log| <= i < |after| && after[i].Evicted? && after[i].deleted == ToSet(Victims(after[i].listed, claim))
  }

  lemma NoEviction(log: seq<Entry>, after: seq<Entry>, claim: string)
    requires OnlyPlaced(after, |log|)
    ensures !EvictsAll(log, after, claim)
  {
  }

  lemma OneEviction(log: seq<Entry>, listed: seq<Workload>, deleted: set<string>, after: seq<Entry>, claim: string)
    requires log + [Evicted(listed, deleted)] <= after && OnlyPlaced(after, |log| + 1)
    ensures EvictsAll(log, after, claim) <==> deleted == ToSet(Victims(listed, claim))
  {
    assert after[|log|] == Evicted(listed, deleted);
  }

  lemma LoopEvictsExactlyWhen(r: World, k: Then, listed: seq<Workload>, todo: seq<string>, log: seq<Entry>,
                              oks: seq<bool>, claim: string)
    requires LoopAt(r, k, listed, todo, log, oks) && todo == Victims(listed, claim)
    ensures EvictsAll(log, r.log, claim) <==> EachAnswered(todo, oks)
  {
    if |oks| < |todo| {
      NoEviction(log, r.log, claim);
    } else {
      OneEviction(log, listed, Done(todo, oks), r.log, claim);
      DoneAll(todo, oks);
    }
  }

  /** From the listing on: all victims are evicted in this pass if and only if
      the listing is answered and so is a deletion of each. */
  lemma ListingEvictsExactlyWhen(w: World, k: Then, listed: bool, rest: seq<Event>)
    requires w.pc == EvictList(k) && AllInside(rest)
    ensures var r := Run(Call(w, listed), rest);
      EvictsAll(w.log, r.log, w.claim.name) <==>
        listed && EachAnswered(Victims(w.workloads, w.claim.name), Oks(rest))
  {
    var todo, v := Victims(w.workloads, w.claim.name), Call(w, listed);
    if !listed {
      PastRun(v, rest);
      NoEviction(w.log, Run(v, rest).log, w.claim.name);
    } else {
      ListingStarts(w, k);
      LoopRun(v, rest, k, w.workloads, todo, w.log);
      LoopEvictsExactlyWhen(Run(v, rest), k, w.workloads, todo, w.log, Oks(rest), w.claim.name);
    }
  }

  lemma ListingStarts(w: World, k: Then)
    requires w.pc == EvictList(k)
    ensures LoopAt(Call(w, true), k, w.workloads, Victims(w.workloads, w.claim.name), w.log, [])
  {
    var todo := Victims(w.workloads, w.claim.name);
    assert Done(todo, []) == {};
    assert todo[0..] == todo;
  }

  lemma {:induction false} AroundKeeps(w: World, es: seq<Event>)
    requires AllAround(es)
    ensures Run(w, es).pc == w.pc && Run(w, es).log == w.log && Run(w, es).claim == w.claim
  {
    if es == [] {
    } else {
      AroundKeeps(w, es[..|es| - 1]);
      EventAround(Run(w, es[..|es| - 1]), Last(es));
    }
  }

  /** A pass that finds no pod evicts all victims if and only if no earlier pass
      has recorded "failing_over", its own record is saved, the claim is named,
      the listing is answered and so is a deletion of each victim; whatever
      moves between its calls. A pass that finds the record trusts that the
      eviction took place. */
  lemma EvictsExactlyWhen(w: World, st: ShareState, around: seq<Event>, saved: bool, around': seq<Event>,
                          listed: bool, rest: seq<Event>)
    requires w.pc == PodGet(st) && w.pod == None && AllAround(around) && AllAround(around') && AllInside(rest)
    ensures var v := Run(Call(w, true), around);
      var l := Run(Call(v, saved), around');
      var r := Run(Call(l, listed), rest);
      EvictsAll(w.log, r.log, w.claim.name) <==>
        && st.stage != FailingOver && CanSave(v, saved) && Named(w.claim)
        && listed && EachAnswered(Victims(l.workloads, w.claim.name), Oks(rest))
  {
    var v := Run(Call(w, true), around);
    AroundKeeps(Call(w, true), around);
    var l := Run(Call(v, saved), around');
    AroundKeeps(Call(v, saved), around');
    if st.stage != FailingOver && CanSave(v, saved) && Named(w.claim) {
      ListingEvictsExactlyWhen(l, l.pc.k, listed, rest);
    } else {
      PastTwice(v, saved, l, listed);
      PastRun(Call(l, listed), rest);
      NoEviction(w.log, Run(Call(l, listed), rest).log, w.claim.name);
    }
  }

  lemma PastTwice(v: World, saved: bool, l: World, listed: bool)
    requires l.pc == NextCall(v, saved) && l.log == CallLog(v, saved)
    requires PastEviction(v.pc) || (v.pc.SaveMissing? && !(CanSave(v, saved) && Named(v.claim)))
    ensures PastEviction(NextCall(l, listed))
    ensures OnlyPlaced(CallLog(l, listed), |v.log|) && v.log <= CallLog(l, listed)
  {
    if PastEviction(v.pc) { PastCall(v, saved); }
    assert PastEviction(l.pc) && OnlyPlaced(l.log, |v.log|) && v.log <= l.log;
    PastCall(l, listed);
  }

  // ------------------------------------------- which placements lack an eviction

  /** Whether a placement of the pass that begins at `v` will follow an eviction. */
  predicate WillBePaid(v: World) {
    Paid(v.log) || (Stored(v).stage != FailingOver && Named(v.claim))
  }

  /** What the pass that began at `v` has done to the log so far. */
  ghost predicate Ledger(v: World, w: World) {
    && w.claim == v.claim
    && (Looking(w.pc) ==> w.log == v.log && Stored(w) == Stored(v))
    && (w.pc.SaveMissing? ==> w.log == v.log && Stored(v).stage != FailingOver)
    && ((w.pc.EvictList? || w.pc.Evict?) && w.pc.k.Missing? ==>
          w.log == v.log && Stored(v).stage != FailingOver && Named(v.claim))
    && (FoundMissing(w.pc) && PastEviction(w.pc) ==> Paid(w.log) == WillBePaid(v))
  }

  lemma LookLedger(v: World, w: World, ok: bool)
    requires Ledger(v, w) && PassOk(w.pc, Stored(w), w.pod) && (Looking(w.pc) || w.pc.SaveMissing?)
    ensures Ledger(v, Call(w, ok))
  {
  }

  lemma SweepLedger(v: World, w: World, ok: bool)
    requires Ledger(v, w) && FoundMissing(w.pc) && !w.pc.SaveMissing?
    ensures Ledger(v, Call(w, ok))
  {
  }

  lemma OtherLedger(v: World, w: World, ok: bool)
    requires Ledger(v, w) && !Looking(w.pc) && !FoundMissing(w.pc)
    ensures Ledger(v, Call(w, ok))
  {
  }

  lemma NextLedger(v: World, w: World, e: Event)
    requires Ledger(v, w) && PassOk(w.pc, Stored(w), w.pod) && Inside(e)
    ensures Ledger(v, Next(w, e))
  {
    if !e.Answer? { EventAround(w, e); }
    else if Looking(w.pc) || w.pc.SaveMissing? { LookLedger(v, w, e.ok); }
    else if FoundMissing(w.pc) { SweepLedger(v, w, e.ok); }
    else { OtherLedger(v, w, e.ok); }
  }

  ghost predicate DuringPass(w: World, e: Event) {
    Inside(e) && DriverBehaves(w, e)
  }

  lemma {:induction false} RunLedger(v: World, w: World, es: seq<Event>)
    requires Inv(w) && Ledger(v, w) && Throughout(w, es, DuringPass)
    ensures Inv(Run(w, es)) && Ledger(v, Run(w, es))
  {
    if es == [] {
    } else {
      ThroughoutPrefix(w, es, DuringPass);
      RunLedger(v, w, es[..|es| - 1]);
      NextKeepsInv(Run(w, es[..|es| - 1]), Last(es));
      NextLedger(v, Run(w, es[..|es| - 1]), Last(es));
    }
  }

  /** A placement comes directly after an eviction if and only if its pass began
      with the log ending in one, or with a record other than "failing_over" and
      a named claim. So the placements without an eviction are exactly those of
      passes that find "failing_over" on record and the eviction unpaid (or a
      claim without a name). */
  lemma PlacedUnpaidExactlyWhen(v: World, es: seq<Event>)
    requires Inv(v) && v.pc == Idle && !v.terminating && Throughout(Next(v, Begin), es, DuringPass)
    ensures var w := Run(Next(v, Begin), es);
      w.pc.SavePlaced? ==> (Paid(w.log) <==> Paid(v.log) || (Stored(v).stage != FailingOver && Named(v.claim)))
  {
    NextKeepsInv(v, Begin);
    RunLedger(v, Next(v, Begin), es);
  }
}
