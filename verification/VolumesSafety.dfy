/** What the many-volume view gives: the safety of every volume at once,
    attachments that no other volume's controller touches, and one
    share-manager per node. */
module VolumesSafety {
  import opened Base
  import opened Placement
  import opened FailoverModel
  import opened PlacementSafety
  import opened Isolation
  import opened Volumes
  import opened Names
  import VolumeDriver

  /** The CSI driver and the controller mean the same objects by a volume's id;
      the service goes by the volume's name itself. */
  lemma DriverAndControllerAgree(id: string)
    ensures VolumeDriver.NameOf(VolumeDriver.KPod, id) == PodName(id) == "share-manager-" + VolumeName(id)
    ensures VolumeDriver.NameOf(VolumeDriver.KClaim, id) == ClaimName(id) == VolumeName(id) + "-backing"
    ensures VolumeDriver.NameOf(VolumeDriver.KStateCm, id) == CmName(id) == "state-" + VolumeName(id)
    ensures VolumeDriver.NameOf(VolumeDriver.KService, id) == VolumeName(id)
  {
  }

  // --------------------------------------------------------- placement safety

  /** What the CSI driver does to volume `b` itself respects its controller. */
  ghost predicate DriverBehavesFor(c: Cluster, hs: seq<Happening>, b: string) {
    forall i | 0 <= i < |hs| && hs[i].id == b :: FitsWhen(RunAll(c, hs[..i]), hs[i])
  }

  ghost predicate FitsWhen(c: Cluster, h: Happening) {
    h.id in c.volumes && EventOf(c, h).Some? ==> DriverBehaves(View(c, h.id), EventOf(c, h).value)
  }

  lemma SplitRun(w: World, es: seq<Event>, fs: seq<Event>, i: nat)
    requires |es| <= i < |es + fs|
    ensures (es + fs)[i] == fs[i - |es|] && Run(w, (es + fs)[..i]) == Run(Run(w, es), fs[..i - |es|])
  {
    assert (es + fs)[..i] == es + fs[..i - |es|];
    RunAppend(w, es, fs[..i - |es|]);
  }

  lemma ThroughoutAppend(w: World, es: seq<Event>, fs: seq<Event>, p: (World, Event) -> bool)
    requires Throughout(w, es, p) && Throughout(Run(w, es), fs, p)
    ensures Throughout(w, es + fs, p)
  {
    var all := es + fs;
    forall i | 0 <= i < |all| ensures p(Run(w, all[..i]), all[i]) {
      if i < |es| {
        assert all[..i] == es[..i] && all[i] == es[i];
      } else {
        SplitRun(w, es, fs, i);
      }
    }
  }

  /** Another volume's step never looks like one of the driver. */
  lemma EchoBehaves(c: Cluster, h: Happening, b: string)
    requires h.id in c.volumes && b in c.volumes && (h.id == b ==> FitsWhen(c, h))
    ensures Throughout(View(c, b), EchoOf(c, h, b), DriverBehaves)
  {
    var w, es := View(c, b), EchoOf(c, h, b);
    forall i | 0 <= i < |es| ensures DriverBehaves(Run(w, es[..i]), es[i]) {
      if h.id == b {
        assert es[..0] == [];
      } else {
        EchoIsNoDriver(c, h, b, es[i]);
      }
    }
  }

  lemma RelayKinds(w: World, e: Event, x: Event)
    requires x in Relay(w, e)
    ensures x.AttachmentDeletes? || (x == e && (x.NodesChange? || x.Attaches? || x.Detaches?))
  {
  }

  lemma EchoIsNoDriver(c: Cluster, h: Happening, b: string, e: Event)
    requires h.id in c.volumes && h.id != b && e in EchoOf(c, h, b)
    ensures !e.DriverDeletes? && !e.DriverCreates?
  {
    var w, x := View(c, h.id), EventOf(c, h).value;
    if e in Relay(w, x) { RelayKinds(w, x, e); }
  }

  lemma BehavesForPrefix(c: Cluster, hs: seq<Happening>, b: string)
    requires hs != [] && DriverBehavesFor(c, hs, b)
    ensures DriverBehavesFor(c, hs[..|hs| - 1], b)
    ensures Last(hs).id == b ==> FitsWhen(RunAll(c, hs[..|hs| - 1]), Last(hs))
  {
    var front := hs[..|hs| - 1];
    forall i | 0 <= i < |front| && front[i].id == b ensures FitsWhen(RunAll(c, front[..i]), front[i]) {
      assert front[..i] == hs[..i] && front[i] == hs[i];
    }
  }

  lemma {:induction false} ShareBehaves(c: Cluster, hs: seq<Happening>, b: string)
    requires AllApart(c) && AllPermitted(c, hs) && b in c.volumes && DriverBehavesFor(c, hs, b)
    ensures Throughout(View(c, b), Share(c, hs, b), DriverBehaves)
  {
    if hs == [] {
    } else {
      var front, last := hs[..|hs| - 1], Last(hs);
      PermittedPrefix(c, hs);
      BehavesForPrefix(c, hs, b);
      ShareBehaves(c, front, b);
      EveryVolumeRuns(c, front, b);
      EchoBehaves(RunAll(c, front), last, b);
      ThroughoutAppend(View(c, b), Share(c, front, b), EchoOf(RunAll(c, front), last, b), DriverBehaves);
    }
  }

  /** Placement safety of every volume in every run of all controllers and the
      CSI driver; the driver has to behave towards that volume only. */
  lemma EveryVolumeIsPlacedSafely(c: Cluster, hs: seq<Happening>, b: string)
    requires AllApart(c) && AllPermitted(c, hs) && b in c.volumes && JustBound(View(c, b))
    requires DriverBehavesFor(c, hs, b)
    ensures b in RunAll(c, hs).volumes
    ensures var r := View(RunAll(c, hs), b);
      && Sound(Stored(r)) && NoStutter(r.trail)
      && (r.pod.Some? && r.pod.value.ours ==> OnRecord(Stored(r), r.pod.value.target))
  {
    EveryVolumeRuns(c, hs, b);
    ShareBehaves(c, hs, b);
    PlacementSafe(View(c, b), Share(c, hs, b));
  }

  // ------------------------------------------------------------- attachments

  /** An event a volume experiences comes from a happening of its own, or is one
      of the few that all volumes see. */
  ghost predicate ComesFrom(hs: seq<Happening>, b: string, e: Event) {
    || e.OthersChange? || e.AttachmentDeletes? || e.DriverCreates?
    || exists h :: h in hs && h.Happens? && h.e == e && (h.id == b || e.NodesChange? || e.Attaches? || e.Detaches?)
  }

  lemma EchoComesFrom(c: Cluster, h: Happening, b: string, e: Event)
    requires h.id in c.volumes && e in EchoOf(c, h, b)
    ensures ComesFrom([h], b, e)
  {
    var w, x := View(c, h.id), EventOf(c, h).value;
    assert h in [h];
    if h.id != b && e in Relay(w, x) { RelayKinds(w, x, e); }
  }

  lemma ComesFromMore(hs: seq<Happening>, more: seq<Happening>, b: string, e: Event)
    requires ComesFrom(hs, b, e) && forall h | h in hs :: h in more
    ensures ComesFrom(more, b, e)
  {
  }

  lemma {:induction false} ShareComesFrom(c: Cluster, hs: seq<Happening>, b: string, e: Event)
    requires AllPermitted(c, hs)
    ensures e in Share(c, hs, b) ==> ComesFrom(hs, b, e)
  {
    if hs == [] {
    } else {
      var front, last := hs[..|hs| - 1], Last(hs);
      PermittedPrefix(c, hs);
      ShareComesFrom(c, front, b, e);
      if e in Share(c, front, b) {
        ComesFromMore(front, hs, b, e);
      } else if e in EchoOf(RunAll(c, front), last, b) {
        EchoComesFrom(RunAll(c, front), last, b, e);
        ComesFromMore([last], hs, b, e);
      }
    }
  }

  /** Every attachment name belongs to one volume, and `a` is bound to `p` only. */
  predicate Orderly(hs: seq<Happening>, owner: string -> string, a: string, p: string) {
    forall h | h in hs && h.Happens? ::
      && (h.e.Attaches? ==> h.e.va.pv == owner(h.e.va.name))
      && (h.e.ClaimBinds? && h.id == a ==> h.e.pv == p)
  }

  /** In every run of all controllers, no call for volume `a` touches an
      attachment of a volume other than its own `p`. */
  lemma AttachmentsIsolated(c: Cluster, hs: seq<Happening>, a: string, ok: bool, owner: string -> string, p: string)
    requires AllApart(c) && AllPermitted(c, hs) && Orderly(hs, owner, a, p)
    requires a in c.volumes && c.volumes[a].pc == Idle && Confined(View(c, a), owner, p)
    ensures var r := RunAll(c, hs);
      OnlyTouches(r.vas, Step(r, a, Answer(ok)).vas, p)
  {
    var w, es := View(c, a), Share(c, hs, a);
    EveryVolumeRuns(c, hs, a);
    forall e | e in es ensures Proper(owner, p, e) { ShareComesFrom(c, hs, a, e); }
    ForeignAttachmentsUntouched(w, es, ok, owner, p);
  }
}
