/** What the stored record keeps in all runs whatsoever: with failures, crashes,
    the CSI driver creating pods anywhere and tearing the volume down. */
module RecordHistory {
  import opened Base
  import opened Placement
  import opened FailoverModel
  import opened PlacementSafety

  /** The record the pass in progress carries. */
  function InHand(pc: Pc): Option<ShareState> {
    match pc
    case SvcGet(st) => Some(st)
    case SvcCreate(st) => Some(st)
    case PodGet(st) => Some(st)
    case NodeGet(st, _) => Some(st)
    case EvictList(k) => OfThen(k)
    case Evict(k, _, _, _) => OfThen(k)
    case DetachPv(k) => OfThen(k)
    case DetachList(k, _) => OfThen(k)
    case Detach(k, _) => OfThen(k)
    case CheckPv(st) => Some(st)
    case CheckVas(st, _) => Some(st)
    case PickPods(st, _) => Some(st)
    case PickNodes(st, _, _) => Some(st)
    case _ => Saves(pc)
  }

  function OfThen(k: Then): Option<ShareState> {
    if k.Missing? then Some(k.st) else None
  }

  /** A record derived from `st`: the same history, the history with the recorded
      node added, or its latest entry only. */
  ghost predicate Derived(st: ShareState, next: ShareState) {
    next.prior == st.prior || next.prior == History(st) || (st.prior != [] && next.prior == Reset(st.prior))
  }

  ghost predicate CarriesOn(w: World, next: Pc) {
    InHand(next).Some? ==>
      || InHand(next).value == Stored(w) || InHand(next).value == Fresh
      || (InHand(w.pc).Some? && Derived(InHand(w.pc).value, InHand(next).value))
  }

  lemma LookCarriesOn(w: World, ok: bool)
    requires Looking(w.pc) || w.pc.NodeGet?
    ensures CarriesOn(w, NextCall(w, ok))
  {
  }

  /** Evicting, detaching and saving hand the record on as it is, or drop it. */
  lemma SweepKeepsHand(w: World, ok: bool)
    requires Sweeps(w.pc) || Saves(w.pc).Some?
    ensures var next := NextCall(w, ok);
      && (InHand(next) == None || InHand(next) == InHand(w.pc))
      && !next.SaveRunning? && (w.pc.SaveRunning? ==> next == Idle)
  {
  }

  lemma SweepCarriesOn(w: World, ok: bool)
    requires Sweeps(w.pc) || Saves(w.pc).Some?
    ensures CarriesOn(w, NextCall(w, ok))
  {
    SweepKeepsHand(w, ok);
  }

  lemma PickCarriesOn(w: World, ok: bool)
    requires Picks(w.pc)
    ensures CarriesOn(w, NextCall(w, ok))
  {
  }

  /** A pass carries on the stored record, or the one in its hands. */
  lemma PassCarriesOn(w: World, ok: bool)
    ensures CarriesOn(w, NextCall(w, ok))
  {
    if Looking(w.pc) || w.pc.NodeGet? { LookCarriesOn(w, ok); }
    else if Sweeps(w.pc) || Saves(w.pc).Some? { SweepCarriesOn(w, ok); }
    else if Picks(w.pc) { PickCarriesOn(w, ok); }
  }

  // ------------------------------------------------------ no node twice, ever

  ghost predicate NoRepeats(w: World) {
    Distinct(Stored(w).prior) && (InHand(w.pc).Some? ==> Distinct(InHand(w.pc).value.prior))
  }

  lemma CallRepeatsNothing(w: World, ok: bool)
    requires NoRepeats(w)
    ensures NoRepeats(Call(w, ok))
  {
    PassCarriesOn(w, ok);
    var after := Stored(Call(w, ok));
    assert after == Stored(w) || after == Fresh || InHand(w.pc) == Some(after);
  }

  /** Nothing around the controller writes the record, except that it may be deleted. */
  lemma RecordAround(w: World, e: Event)
    requires !e.Answer?
    ensures Stored(Next(w, e)) == Stored(w) || Stored(Next(w, e)) == Fresh
    ensures Next(w, e).pc == w.pc || InHand(Next(w, e).pc) == None
  {
  }

  /** In every run at all the stored history has no duplicates. */
  lemma {:induction false} HistoryNeverRepeats(w: World, es: seq<Event>)
    requires NoRepeats(w)
    ensures NoRepeats(Run(w, es)) && Distinct(Stored(Run(w, es)).prior)
  {
    if es == [] {
    } else {
      var v, e := Run(w, es[..|es| - 1]), Last(es);
      HistoryNeverRepeats(w, es[..|es| - 1]);
      if e.Answer? { CallRepeatsNothing(v, e.ok); } else { RecordAround(v, e); }
    }
  }

  // ------------------------------------------- the recorded node is new or last

  predicate NewOrLast(st: ShareState) {
    st.node.Some? && st.node.value in st.prior ==> st.node.value == Last(st.prior)
  }

  /** What the pass is about to save, unless it records where the pod runs. */
  ghost predicate SoundHand(pc: Pc) {
    InHand(pc).Some? ==> Distinct(InHand(pc).value.prior) && (!pc.SaveRunning? ==> NewOrLast(InHand(pc).value))
  }

  /** A node that is recorded because the pod runs there is new or the latest failure. */
  predicate RecordsNewOrLast(w: World, e: Event) {
    e.Answer? && w.pc.SaveRunning? && CanSave(w, e.ok) ==> NewOrLast(w.pc.st)
  }

  lemma SweepStaysSound(w: World, ok: bool)
    requires SoundHand(w.pc) && (Sweeps(w.pc) || Saves(w.pc).Some?)
    ensures SoundHand(NextCall(w, ok))
  {
    SweepKeepsHand(w, ok);
  }

  lemma LoadStaysSound(w: World, ok: bool)
    requires Sound(Stored(w)) && SoundHand(w.pc) && Looking(w.pc) && !w.pc.PodGet?
    ensures SoundHand(NextCall(w, ok))
  {
  }

  lemma SeenStaysSound(st: ShareState, pod: Option<Pod>)
    requires Sound(st)
    ensures SoundHand(SeenPod(st, pod))
  {
    SoundHistory(st);
  }

  lemma NodeStaysSound(st: ShareState, n: Node, ready: bool)
    requires Sound(st)
    ensures SoundHand(if ready then RecordRunning(st, Some(n)) else StartFailover(st))
  {
    SoundHistory(st);
  }

  lemma ChosenStaysSound(st: ShareState, n: Option<Node>, first: bool)
    requires Sound(st) && (n.Some? ==> n.value !in st.prior)
    ensures SoundHand(Chosen(st, n, first))
  {
  }

  lemma TakenStaysSound(st: ShareState)
    requires Sound(st)
    ensures SoundHand(PickPods(TakeNode(st), true))
  {
    SoundHistory(st);
  }

  lemma CheckStaysSound(w: World, ok: bool)
    requires SoundHand(w.pc) && (w.pc.CheckPv? || w.pc.CheckVas?)
    ensures SoundHand(NextCall(w, ok))
  {
    TakenStaysSound(w.pc.st);
  }

  lemma PickStaysSound(w: World, ok: bool)
    requires SoundHand(w.pc) && (w.pc.PickPods? || w.pc.PickNodes?)
    ensures SoundHand(NextCall(w, ok))
  {
    match w.pc
    case PickPods(st, first) => ChosenStaysSound(st, None, first);
    case PickNodes(st, pods, first) =>
      ChosenStaysSound(st, if ok then PickNode(pods, w.nodes, st.prior) else None, first);
  }

  lemma HandStaysSound(w: World, ok: bool)
    requires Sound(Stored(w)) && SoundHand(w.pc)
    ensures SoundHand(NextCall(w, ok))
  {
    if w.pc.PodGet? { SeenStaysSound(w.pc.st, w.pod); }
    else if w.pc.NodeGet? { NodeStaysSound(w.pc.st, w.pc.n, ok && NodeReady(w.nodes, w.pc.n)); }
    else if Looking(w.pc) { LoadStaysSound(w, ok); }
    else if Sweeps(w.pc) || Saves(w.pc).Some? { SweepStaysSound(w, ok); }
    else if w.pc.CheckPv? || w.pc.CheckVas? { CheckStaysSound(w, ok); }
    else if Picks(w.pc) { PickStaysSound(w, ok); }
  }

  lemma CallStaysSound(w: World, ok: bool)
    requires Sound(Stored(w)) && SoundHand(w.pc) && RecordsNewOrLast(w, Answer(ok))
    ensures Sound(Stored(Call(w, ok))) && SoundHand(Call(w, ok).pc)
  {
    HandStaysSound(w, ok);
  }

  lemma {:induction false} RunStaysSound(w: World, es: seq<Event>)
    requires Sound(Stored(w)) && SoundHand(w.pc) && Throughout(w, es, RecordsNewOrLast)
    ensures Sound(Stored(Run(w, es))) && SoundHand(Run(w, es).pc)
  {
    if es == [] {
    } else {
      var v, e := Run(w, es[..|es| - 1]), Last(es);
      ThroughoutPrefix(w, es, RecordsNewOrLast);
      RunStaysSound(w, es[..|es| - 1]);
      if e.Answer? { CallStaysSound(v, e.ok); } else { RecordAround(v, e); }
    }
  }

  lemma RecordingShows(w: World, e: Event)
    requires e.Answer? && w.pc.SaveRunning? && CanSave(w, e.ok)
    ensures Stored(Next(w, e)) == w.pc.st
  {
  }

  lemma ThroughoutUpTo(w: World, es: seq<Event>, i: nat, p: (World, Event) -> bool)
    requires Throughout(w, es, p) && i <= |es|
    ensures Throughout(w, es[..i], p)
  {
    var front := es[..i];
    forall j | 0 <= j < |front| ensures p(Run(w, front[..j]), front[j]) {
      assert front[..j] == es[..j] && front[j] == es[j];
    }
  }

  /** The recorded node is new or the latest failure at every moment of a run if
      and only if every node recorded because the pod runs there is. */
  lemma RecordSoundExactlyWhen(w: World, es: seq<Event>)
    requires w.pc == Idle && Sound(Stored(w))
    ensures (forall i | 0 <= i <= |es| :: NewOrLast(Stored(Run(w, es[..i])))) <==> Throughout(w, es, RecordsNewOrLast)
  {
    if Throughout(w, es, RecordsNewOrLast) {
      forall i | 0 <= i <= |es| ensures NewOrLast(Stored(Run(w, es[..i]))) {
        ThroughoutUpTo(w, es, i, RecordsNewOrLast);
        RunStaysSound(w, es[..i]);
      }
    }
    if forall i | 0 <= i <= |es| :: NewOrLast(Stored(Run(w, es[..i]))) {
      forall i | 0 <= i < |es| ensures RecordsNewOrLast(Run(w, es[..i]), es[i]) {
        assert NewOrLast(Stored(Run(w, es[..i + 1])));
        RecordedIsStored(w, es, i);
      }
    }
  }

  lemma RecordedIsStored(w: World, es: seq<Event>, i: nat)
    requires i < |es| && NewOrLast(Stored(Run(w, es[..i + 1])))
    ensures RecordsNewOrLast(Run(w, es[..i]), es[i])
  {
    var v, e := Run(w, es[..i]), es[i];
    assert es[..i + 1][..i] == es[..i];
    if e.Answer? && v.pc.SaveRunning? && CanSave(v, e.ok) { RecordingShows(v, e); }
  }
}
