/** The backing volume is never attached to a node other than the one its
    share-manager pod is placed on. */
module AttachmentSafety {
  import opened Base
  import opened Placement
  import opened FailoverModel
  import opened PlacementSafety

  ghost predicate Aligned(vas: seq<Attachment>, pv: Option<string>, n: Node) {
    forall a | a in vas && Some(a.pv) == pv :: a.node == n
  }

  ghost predicate Unattached(vas: seq<Attachment>, pv: Option<string>) {
    forall a | a in vas :: Some(a.pv) != pv
  }

  /** The calls between the "still attached?" answer and the creation of the pod. */
  predicate Committed(pc: Pc) {
    pc.PickPods? || pc.PickNodes? || pc.SavePlaced?
  }

  ghost predicate AttachOk(vas: seq<Attachment>, pv: Option<string>, pod: Option<Pod>, pc: Pc) {
    && (pod.Some? ==> Aligned(vas, pv, pod.value.target))
    && PassAttachOk(vas, pv, pc)
  }

  ghost predicate PassAttachOk(vas: seq<Attachment>, pv: Option<string>, pc: Pc) {
    && (Committed(pc) ==> Unattached(vas, pv))
    && (pc.CreatePod? ==> Aligned(vas, pv, pc.n))
    && (pc.CheckVas? ==> pv == Some(pc.pv))
  }

  ghost predicate AttachInv(w: World) {
    AttachOk(w.vas, PvOf(w), w.pod, w.pc)
  }

  /** Both reads of the "still attached?" question are answered, and the CSI
      driver creates no pod away from where its volume is attached. */
  ghost predicate ChecksAnswered(w: World, e: Event) {
    && DriverBehaves(w, e)
    && (e == Answer(false) ==> !w.pc.CheckPv? && !w.pc.CheckVas?)
    && (e.DriverCreates? && w.pod == None ==> Aligned(w.vas, PvOf(w), e.n))
  }

  lemma {:induction false} ListedAttachments(vas: seq<Attachment>, pv: string)
    ensures AttachmentsOf(vas, pv) == [] <==> Unattached(vas, Some(pv))
  {
    if vas == [] {
    } else {
      ListedAttachments(vas[1..], pv);
      assert vas[0] in vas;
      assert forall a :: a in vas <==> a == vas[0] || a in vas[1..];
    }
  }

  lemma {:induction false} RemovedAttachments(vas: seq<Attachment>, name: string)
    ensures forall a | a in WithoutAttachment(vas, name) :: a in vas
  {
    if vas == [] {
    } else {
      RemovedAttachments(vas[1..], name);
      assert forall a :: a in vas <==> a == vas[0] || a in vas[1..];
    }
  }

  /** Marking an attachment for deletion leaves its volume and node alone. */
  lemma MarkedAttachments(vas: seq<Attachment>, name: string, pv: Option<string>, n: Node)
    ensures Aligned(vas, pv, n) ==> Aligned(MarkAttachment(vas, name), pv, n)
    ensures Unattached(vas, pv) ==> Unattached(MarkAttachment(vas, name), pv)
  {
    var marked := MarkAttachment(vas, name);
    forall a | a in marked ensures exists b :: b in vas && b.pv == a.pv && b.node == a.node {
      var i :| 0 <= i < |marked| && marked[i] == a;
      assert vas[i] in vas && vas[i].pv == a.pv && vas[i].node == a.node;
    }
  }

  lemma MarkingKeeps(vas: seq<Attachment>, name: string, pv: Option<string>, pod: Option<Pod>, pc: Pc)
    requires AttachOk(vas, pv, pod, pc)
    ensures AttachOk(MarkAttachment(vas, name), pv, pod, pc)
  {
    MarkedAttachments(vas, name, pv, if pod.Some? then pod.value.target else "");
    MarkedAttachments(vas, name, pv, if pc.CreatePod? then pc.n else "");
  }

  /** A new attachment of the volume is where its pod is. */
  lemma AttachingKeeps(vas: seq<Attachment>, va: Attachment, pv: Option<string>, pod: Option<Pod>, pc: Pc,
                       s: ShareState)
    requires AttachOk(vas, pv, pod, pc) && PassOk(pc, s, pod)
    requires pv == Some(va.pv) ==> pod.Some? && pod.value.target == va.node
    ensures AttachOk(vas + [va], pv, pod, pc)
  {
  }

  lemma RemovingKeeps(vas: seq<Attachment>, name: string, pv: Option<string>, pod: Option<Pod>, pc: Pc)
    requires AttachOk(vas, pv, pod, pc)
    ensures AttachOk(WithoutAttachment(vas, name), pv, pod, pc)
  {
    RemovedAttachments(vas, name);
  }

  /** A volume that is being bound is not attached yet. */
  lemma BindingKeeps(vas: seq<Attachment>, pv: string, pod: Option<Pod>, pc: Pc)
    requires AttachOk(vas, None, pod, pc) && AttachmentsOf(vas, pv) == []
    ensures AttachOk(vas, Some(pv), pod, pc)
  {
    ListedAttachments(vas, pv);
  }

  /** Only the two reads and the calls after them lead to a placement. */
  lemma NextCommits(w: World, ok: bool)
    ensures var pc := NextCall(w, ok);
      && (Committed(pc) ==> w.pc.CheckPv? || w.pc.CheckVas? || Committed(w.pc))
      && (pc.CreatePod? ==> w.pc.SavePlaced?)
      && (pc.CheckVas? ==> w.pc.CheckPv? && PvOf(w) == Some(pc.pv))
  {
  }

  lemma CallCommits(w: World, ok: bool)
    requires AttachInv(w) && (w.pc.CheckPv? || w.pc.CheckVas? ==> ok)
    ensures PassAttachOk(w.vas, PvOf(w), NextCall(w, ok))
  {
    NextCommits(w, ok);
    if w.pc.CheckVas? { ListedAttachments(w.vas, w.pc.pv); }
  }

  lemma CallAttaches(w: World, ok: bool)
    requires AttachInv(w) && (w.pc.CheckPv? || w.pc.CheckVas? ==> ok)
    ensures AttachInv(Call(w, ok))
  {
    CallCommits(w, ok);
    if w.pc.Detach? && w.pc.todo != [] {
      MarkingKeeps(w.vas, w.pc.todo[0], PvOf(w), w.pod, NextCall(w, ok));
    }
  }

  predicate MovesAttachments(e: Event) {
    e.Attaches? || e.AttachmentDeletes? || e.Detaches? || e.ClaimBinds?
  }

  lemma AttachmentEvent(w: World, e: Event)
    requires AttachInv(w) && PassOk(w.pc, Stored(w), w.pod) && MovesAttachments(e)
    ensures AttachInv(Next(w, e))
  {
    match e
    case AttachmentDeletes(name) => MarkingKeeps(w.vas, name, PvOf(w), w.pod, w.pc);
    case Detaches(name) => RemovingKeeps(w.vas, name, PvOf(w), w.pod, w.pc);
    case ClaimBinds(pv) => if Enabled(w, e) { BindingKeeps(w.vas, pv, w.pod, w.pc); }
    case Attaches(va) => if Enabled(w, e) { AttachingKeeps(w.vas, va, PvOf(w), w.pod, w.pc, Stored(w)); }
  }

  lemma CalmEvent(w: World, e: Event)
    requires !e.Answer? && !e.DriverDeletes? && !MovesAttachments(e)
    ensures var next := Next(w, e);
      && next.vas == w.vas && PvOf(next) == PvOf(w)
      && (next.pc == w.pc || next.pc == Idle || next.pc == LoadGet)
      && (next.pod.Some? ==>
            || (w.pod.Some? && next.pod.value.target == w.pod.value.target)
            || (w.pod == None && e.DriverCreates? && next.pod.value.target == e.n))
  {
  }

  lemma NextAttaches(w: World, e: Event)
    requires AttachInv(w) && PassOk(w.pc, Stored(w), w.pod) && ChecksAnswered(w, e)
    ensures AttachInv(Next(w, e))
  {
    if e.Answer? { CallAttaches(w, e.ok); }
    else if MovesAttachments(e) { AttachmentEvent(w, e); }
    else { CalmEvent(w, e); }
  }

  lemma {:induction false} RunAttaches(w: World, es: seq<Event>)
    requires Inv(w) && AttachInv(w) && Throughout(w, es, ChecksAnswered)
    ensures Inv(Run(w, es)) && AttachInv(Run(w, es))
  {
    if es == [] {
    } else {
      var front := es[..|es| - 1];
      ThroughoutPrefix(w, es, ChecksAnswered);
      RunAttaches(w, front);
      NextKeepsInv(Run(w, front), Last(es));
      NextAttaches(Run(w, front), Last(es));
    }
  }

  /** In every interleaving in which the two reads before a placement are
      answered, all attachments of the backing volume are to the node of the
      share-manager pod. */
  lemma SingleAttachment(w: World, es: seq<Event>)
    requires JustBound(w) && (w.pod.Some? ==> Aligned(w.vas, PvOf(w), w.pod.value.target))
    requires Throughout(w, es, ChecksAnswered)
    ensures var r := Run(w, es);
      r.pod.Some? ==> forall a | a in r.vas && PvOf(r) == Some(a.pv) :: a.node == r.pod.value.target
  {
    RunAttaches(w, es);
  }
}
