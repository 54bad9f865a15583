/** The controller of one volume leaves the attachments of all other volumes
    alone (`force_detach_backing_pvc` in src/controller.rs lists the attachments
    of the whole cluster). */
module Isolation {
  import opened Base
  import opened Placement
  import opened FailoverModel
  import opened PlacementSafety
  import AttachmentSafety

  /** The names `todo` are of attachments of `p`. */
  ghost predicate AllOf(todo: seq<string>, owner: string -> string, p: string) {
    forall n | n in todo :: owner(n) == p
  }

  /** The backing volume is `p`, a name belongs to one volume, and the pass in
      progress is only about to delete attachments of `p`. */
  ghost predicate Confined(w: World, owner: string -> string, p: string) {
    && (w.backing.Bound? ==> w.backing.pv == p)
    && (forall a | a in w.vas :: a.pv == owner(a.name))
    && PassConfined(w.pc, owner, p)
  }

  ghost predicate PassConfined(pc: Pc, owner: string -> string, p: string) {
    && (pc.DetachList? ==> pc.pv == p)
    && (pc.Detach? ==> AllOf(pc.todo, owner, p))
  }

  /** An attachment's name is derived from its volume. */
  ghost predicate Proper(owner: string -> string, p: string, e: Event) {
    && (e.Attaches? ==> e.va.pv == owner(e.va.name))
    && (e.ClaimBinds? ==> e.pv == p)
  }

  /** `after` is `vas` except for attachments of `p`. */
  ghost predicate OnlyTouches(vas: seq<Attachment>, after: seq<Attachment>, p: string) {
    |after| == |vas| && forall j | 0 <= j < |vas| && vas[j].pv != p :: after[j] == vas[j]
  }

  lemma {:induction false} ListedAreOurs(vas: seq<Attachment>, owner: string -> string, p: string)
    requires forall a | a in vas :: a.pv == owner(a.name)
    ensures AllOf(AttachmentsOf(vas, p), owner, p)
  {
    if vas == [] {
    } else {
      assert vas[0] in vas;
      assert forall a | a in vas[1..] :: a in vas;
      ListedAreOurs(vas[1..], owner, p);
    }
  }

  lemma MarkTouches(vas: seq<Attachment>, name: string, owner: string -> string, p: string)
    requires (forall a | a in vas :: a.pv == owner(a.name)) && owner(name) == p
    ensures OnlyTouches(vas, MarkAttachment(vas, name), p)
    ensures forall a | a in MarkAttachment(vas, name) :: a.pv == owner(a.name)
  {
    var marked := MarkAttachment(vas, name);
    MarkKeepsOwners(vas, name, owner);
    forall j | 0 <= j < |vas| && vas[j].pv != p ensures marked[j] == vas[j] { assert vas[j] in vas; }
  }

  /** Whichever call comes next, it is about attachments of `p` if about any. */
  lemma PassStaysConfined(w: World, ok: bool, owner: string -> string, p: string)
    requires Confined(w, owner, p)
    ensures PassConfined(NextCall(w, ok), owner, p)
  {
    if w.pc.DetachList? { ListedAreOurs(w.vas, owner, p); }
  }

  lemma CallConfined(w: World, ok: bool, owner: string -> string, p: string)
    requires Confined(w, owner, p)
    ensures Confined(Call(w, ok), owner, p) && OnlyTouches(w.vas, Call(w, ok).vas, p)
  {
    PassStaysConfined(w, ok, owner, p);
    if w.pc.Detach? && w.pc.todo != [] { MarkTouches(w.vas, w.pc.todo[0], owner, p); }
  }

  lemma MarkKeepsOwners(vas: seq<Attachment>, name: string, owner: string -> string)
    requires forall a | a in vas :: a.pv == owner(a.name)
    ensures forall a | a in MarkAttachment(vas, name) :: a.pv == owner(a.name)
  {
    var marked := MarkAttachment(vas, name);
    forall a | a in marked ensures a.pv == owner(a.name) {
      var j :| 0 <= j < |marked| && marked[j] == a;
      assert vas[j] in vas;
    }
  }

  lemma NextConfined(w: World, e: Event, owner: string -> string, p: string)
    requires Confined(w, owner, p) && Proper(owner, p, e)
    ensures Confined(Next(w, e), owner, p)
  {
    match e
    case Answer(ok) => CallConfined(w, ok, owner, p);
    case Detaches(name) => AttachmentSafety.RemovedAttachments(w.vas, name);
    case AttachmentDeletes(name) => MarkKeepsOwners(w.vas, name, owner);
    case _ =>
  }

  lemma {:induction false} RunConfined(w: World, es: seq<Event>, owner: string -> string, p: string)
    requires Confined(w, owner, p) && forall e | e in es :: Proper(owner, p, e)
    ensures Confined(Run(w, es), owner, p)
  {
    if es == [] {
    } else {
      RunConfined(w, es[..|es| - 1], owner, p);
      NextConfined(Run(w, es[..|es| - 1]), Last(es), owner, p);
    }
  }

  /** In every run, no call of the controller changes an attachment of a volume
      other than the backing volume `p`, even though the listing it works from
      may be out of date by the time it deletes. */
  lemma ForeignAttachmentsUntouched(w: World, es: seq<Event>, ok: bool, owner: string -> string, p: string)
    requires Confined(w, owner, p) && w.pc == Idle && forall e | e in es :: Proper(owner, p, e)
    ensures OnlyTouches(Run(w, es).vas, Next(Run(w, es), Answer(ok)).vas, p)
  {
    RunConfined(w, es, owner, p);
    CallConfined(Run(w, es), ok, owner, p);
  }
}
