/** When the stored history is cut: over the whole rest of a pass that has come
    to its pick, with any answers and anything moving in between. */
module HistoryReset {
  import opened Base
  import opened Placement
  import opened FailoverModel
  import opened Passes
  import opened Witnesses

  /** The first attempt to pick fails: a listing does, or leaves nothing untried. */
  predicate FirstAttemptFails(w: World, e: Event) {
    && e.Answer?
    && (|| (w.pc.PickPods? && w.pc.first && !e.ok)
        || (w.pc.PickNodes? && w.pc.first && !(e.ok && PickNode(w.pc.pods, w.nodes, w.pc.st.prior).Some?)))
  }

  /** That is: it fails if and only if a listing does, or every node the two
      listings leave eligible has been tried. */
  lemma FirstAttemptFailsExactlyWhen(w: World, e: Event)
    ensures FirstAttemptFails(w, e) <==>
      && e.Answer?
      && (|| (w.pc.PickPods? && w.pc.first && !e.ok)
          || (w.pc.PickNodes? && w.pc.first
              && (!e.ok || forall n | Eligible(w.pc.pods, w.nodes, n) :: n in w.pc.st.prior)))
  {
    if w.pc.PickNodes? {
      var n := PickNode(w.pc.pods, w.nodes, w.pc.st.prior);
      assert n.Some? ==> Eligible(w.pc.pods, w.nodes, n.value) && n.value !in w.pc.st.prior;
    }
  }

  /** The record of a placement is saved. */
  predicate SavesPlacement(w: World, e: Event) {
    e.Answer? && w.pc.SavePlaced? && CanSave(w, e.ok)
  }

  /** The pass goes on or crashes, and nobody deletes the record. */
  predicate KeepsRecord(e: Event) {
    !e.Begin? && e != DriverDeletes(TheStateCm)
  }

  function Kept(prior: seq<Node>, cut: bool): seq<Node>
    requires prior != []
  {
    if cut then Reset(prior) else prior
  }

  /** Where the pick stands, given that the first attempt failed (`cut`) and a
      placement was saved, or not. */
  ghost predicate PickAt(w: World, s: ShareState, prior: seq<Node>, cut: bool, saved: bool)
    requires prior != []
  {
    if saved then Stored(w).prior == Kept(prior, cut) && (w.pc.CreatePod? || w.pc.Idle?)
    else
      && Stored(w) == s
      && (match w.pc
          case Idle => true
          case PickPods(st, first) => st.prior == Kept(prior, cut) && first == !cut
          case PickNodes(st, _, first) => st.prior == Kept(prior, cut) && first == !cut
          case SavePlaced(st, _) => st.prior == Kept(prior, cut)
          case _ => false)
  }

  lemma CallPicks(w: World, ok: bool, s: ShareState, prior: seq<Node>, cut: bool, saved: bool)
    requires |prior| > 1 && PickAt(w, s, prior, cut, saved)
    ensures var e := Answer(ok);
      PickAt(Call(w, ok), s, prior, cut || FirstAttemptFails(w, e), saved || SavesPlacement(w, e))
  {
  }

  lemma OutsidePicks(w: World, e: Event, s: ShareState, prior: seq<Node>, cut: bool, saved: bool)
    requires |prior| > 1 && PickAt(w, s, prior, cut, saved) && KeepsRecord(e) && !e.Answer?
    ensures PickAt(Next(w, e), s, prior, cut, saved)
  {
    RecordStays(w, e);
  }

  lemma RecordStays(w: World, e: Event)
    requires KeepsRecord(e) && !e.Answer?
    ensures Next(w, e).cm == w.cm && (Next(w, e).pc == w.pc || Next(w, e).pc == Idle)
  {
  }

  lemma {:induction false} RunPicks(w: World, es: seq<Event>, s: ShareState, prior: seq<Node>)
    requires |prior| > 1 && PickAt(w, s, prior, false, false) && forall e | e in es :: KeepsRecord(e)
    ensures PickAt(Run(w, es), s, prior, Occurs(w, es, FirstAttemptFails), Occurs(w, es, SavesPlacement))
  {
    if es == [] {
    } else {
      var front, e := es[..|es| - 1], Last(es);
      var v := Run(w, front);
      RunPicks(w, front, s, prior);
      StepPicks(v, e, s, prior, Occurs(w, front, FirstAttemptFails), Occurs(w, front, SavesPlacement));
    }
  }

  lemma StepPicks(v: World, e: Event, s: ShareState, prior: seq<Node>, cut: bool, saved: bool)
    requires |prior| > 1 && PickAt(v, s, prior, cut, saved) && KeepsRecord(e)
    ensures PickAt(Next(v, e), s, prior, cut || FirstAttemptFails(v, e), saved || SavesPlacement(v, e))
  {
    if e.Answer? { CallPicks(v, e.ok, s, prior, cut, saved); } else { OutsidePicks(v, e, s, prior, cut, saved); }
  }

  /** The stored record stays as it is unless a placement is saved, and then the
      history in it is cut to its latest entry if and only if the first attempt
      to pick failed. */
  lemma StoredHistoryExactly(w: World, st: ShareState, es: seq<Event>)
    requires w.pc == PickPods(st, true) && |st.prior| > 1 && forall e | e in es :: KeepsRecord(e)
    ensures var r := Run(w, es);
      if !Occurs(w, es, SavesPlacement) then Stored(r) == Stored(w)
      else Stored(r).prior == if Occurs(w, es, FirstAttemptFails) then [Last(st.prior)] else st.prior
  {
    RunPicks(w, es, Stored(w), st.prior);
  }

  // ---------------------------------------- forgotten although a node is untried

  lemma ToPlacementRecord(w: World, st: ShareState, x: Node) returns (r: World)
    requires w.pc == PickPods(st, false) && w.pod == None && !w.cm.Absent?
    requires w.others == [] && w.nodes == [NodeInfo(x, true)] && x !in st.prior
    ensures Reaches(w, 3, r) && Stored(r) == st.(node := Some(x), stage := Starting)
  {
    var t := st.(node := Some(x), stage := Starting);
    var q, s := w.(pc := PickNodes(st, [], false)), w.(pc := SavePlaced(t, x));
    ReachOn(w, q);
    PicksOnly(q, st, x);
    ReachOver(w, 1, q, 1, s);
    r := Saved(s, t);
    ReachOver(w, 2, s, 1, r);
  }

  lemma Saved(s: World, t: ShareState) returns (r: World)
    requires Saves(s.pc) == Some(t) && !s.cm.Absent?
    ensures Reaches(s, 1, r) && Stored(r) == t
  {
    r := Call(s, true);
    ReachOn(s, r);
  }

  lemma PicksOnly(q: World, st: ShareState, x: Node)
    requires q.pc == PickNodes(st, [], false) && q.nodes == [NodeInfo(x, true)] && x !in st.prior
    ensures Reaches(q, 1, q.(pc := SavePlaced(st.(node := Some(x), stage := Starting), x)))
  {
    assert PickNode([], q.nodes, st.prior) == Some(x);
    ReachOn(q, q.(pc := SavePlaced(st.(node := Some(x), stage := Starting), x)));
  }

  /** One failed listing of the pods cuts the stored history although the ready
      and free node `x` has never been tried. */
  lemma UntriedNodeForgotten(w: World, st: ShareState, x: Node)
    requires w.pc == PickPods(st, true) && |st.prior| > 1 && w.pod == None && !w.cm.Absent?
    requires w.others == [] && w.nodes == [NodeInfo(x, true)] && x !in st.prior
    ensures Eligible(ShareManagerPods(w), w.nodes, x)
    ensures Stored(Run(w, [Answer(false)] + Answers(3))).prior == [Last(st.prior)]
  {
    var t := st.(prior := Reset(st.prior));
    var p := w.(pc := PickPods(t, false));
    var r := ToPlacementRecord(p, t, x);
    ReachRun(w, Answer(false), p, 3, r);
  }
}
