/** What one undisturbed reconcile pass achieves, by the state it starts in. */
module PassOutcomes {
  import opened Base
  import opened Placement
  import opened FailoverModel
  import opened PlacementSafety
  import opened AttachmentSafety
  import opened EvictionSafety
  import opened EvictionEffect
  import opened Passes

  ghost predicate NamesOne(vas: seq<Attachment>, name: string, pv: Option<string>) {
    exists a :: a in vas && a.name == name && pv == Some(a.pv)
  }

  /** The attachments once those of the volume `pv` are marked for deletion as well. */
  ghost predicate Detaching(vas: seq<Attachment>, pv: Option<string>, after: seq<Attachment>) {
    && |after| == |vas|
    && forall i | 0 <= i < |vas| ::
         after[i] == vas[i].(deleting := vas[i].deleting || NamesOne(vas, vas[i].name, pv))
  }

  /** The names of the pods that mount the claim. */
  function Mounting(pods: seq<Workload>, claim: string): set<string> {
    set p | p in pods && claim in p.claims :: p.name
  }

  /** The pods and the log once the pods that mount the claim are evicted; a claim
      without a name or a namespace is left alone. */
  ghost predicate Evicting(w: World, pods: seq<Workload>, log: seq<Entry>) {
    if w.claim.name == "" || w.claim.ns == "" then pods == w.workloads && log == w.log
    else
      && |pods| == |w.workloads|
      && (forall i | 0 <= i < |pods| :: pods[i].name == w.workloads[i].name && pods[i].claims == w.workloads[i].claims)
      && (forall i | 0 <= i < |pods| ::
            pods[i].deleting <==>
              w.workloads[i].deleting || Mounts(w.workloads, w.workloads[i].name, w.claim.name))
      && log == w.log + [Evicted(w.workloads, Mounting(w.workloads, w.claim.name))]
  }

  /** Once the record says "failing_over" the eviction is not done again. */
  ghost predicate EvictingOnce(w: World, pods: seq<Workload>, log: seq<Entry>) {
    if Stored(w).stage == FailingOver then pods == w.workloads && log == w.log else Evicting(w, pods, log)
  }

  function AtPodGet(w: World): World {
    w.(cm := if w.cm.Absent? then Holds(Fresh) else w.cm, svc := true, pc := PodGet(Stored(w)))
  }

  lemma LoadLeads(w: World)
    requires w.pc == LoadGet
    ensures Leads(w, w.(cm := if w.cm.Absent? then Holds(Fresh) else w.cm, pc := SvcGet(Stored(w))))
  {
    var next := w.(cm := if w.cm.Absent? then Holds(Fresh) else w.cm, pc := SvcGet(Stored(w)));
    if w.cm.Absent? {
      var c := w.(pc := LoadCreate);
      LeadsOn(w, c);
      LeadsOn(c, next);
      LeadsOver(w, c, next);
    } else {
      LeadsOn(w, next);
    }
  }

  lemma SvcLeads(w: World, st: ShareState)
    requires w.pc == SvcGet(st)
    ensures Leads(w, w.(svc := true, pc := PodGet(st)))
  {
    var next := w.(svc := true, pc := PodGet(st));
    if w.svc {
      LeadsOn(w, next);
    } else {
      var c := w.(pc := SvcCreate(st));
      LeadsOn(w, c);
      LeadsOn(c, next);
      LeadsOver(w, c, next);
    }
  }

  lemma PassStarts(w: World)
    requires w.pc == Idle && !w.terminating
    ensures Leads(Next(w, Begin), AtPodGet(w))
  {
    var l := w.(pc := LoadGet);
    var s := w.(cm := if w.cm.Absent? then Holds(Fresh) else w.cm, pc := SvcGet(Stored(w)));
    LoadLeads(l);
    SvcLeads(s, Stored(w));
    LeadsOver(l, s, AtPodGet(w));
  }

  /** The pass that starts at `w` ends at `r`, once its first calls are made. */
  lemma PassEnds(w: World, r: World)
    requires w.pc == Idle && !w.terminating && Leads(AtPodGet(w), r) && r.pc == Idle
    ensures Pass(w) == r
  {
    PassStarts(w);
    LeadsOver(Next(w, Begin), AtPodGet(w), r);
    LeadsToEnd(Next(w, Begin), r);
  }

  /** A pod that has yet to start is waited for: the pass only makes up for a
      missing service and a missing record, which is new and "starting". */
  lemma PassWaits(w: World)
    requires w.pc == Idle && !w.terminating && w.pod.Some? && w.pod.value.phase.Pending?
    ensures Pass(w) ==
      w.(svc := true, cm := if w.cm.Absent? then Holds(ShareState(None, [], Starting)) else w.cm)
  {
    var u, r := AtPodGet(w), AtPodGet(w).(pc := Idle);
    LeadsReading(u, Idle);
    PassEnds(w, r);
  }

  /** A pod running on a ready node is put on record; one that runs without being
      bound leaves no node on record. */
  lemma PassRecords(w: World)
    requires w.pc == Idle && !w.terminating && w.pod.Some? && w.pod.value.phase.Running? && !Unhealthy(w)
    ensures var r, st, host := Pass(w), Stored(w), HostOf(w.pod.value);
      && r == w.(svc := true, cm := Holds(ShareState(host, st.prior, Serving)), trail := r.trail)
      && r.trail == if w.trail == [] && host.Some? && (st.stage != Serving || st.node != host) then [host.value]
                    else w.trail
  {
    var st, u := Stored(w), AtPodGet(w);
    var host := HostOf(w.pod.value);
    var v := u.(pc := if host.Some? then NodeGet(st, host.value) else RecordRunning(st, None));
    LeadsOn(u, v);
    var r := RecordLeads(if host.Some? then Call(v, true) else v, st, host);
    if host.Some? {
      LeadsOn(v, Call(v, true));
      LeadsOver(v, Call(v, true), r);
    }
    LeadsOver(u, v, r);
    PassEnds(w, r);
  }

  lemma RecordLeads(v: World, st: ShareState, host: Option<Node>) returns (r: World)
    requires v.pc == RecordRunning(st, host) && !v.cm.Absent? && Stored(v) == st
    ensures Leads(v, r)
    ensures r == v.(pc := Idle, cm := Holds(ShareState(host, st.prior, Serving)), trail := r.trail)
    ensures r.trail == if v.trail == [] && host.Some? && (st.stage != Serving || st.node != host) then [host.value]
                       else v.trail
  {
    if v.pc == Idle {
      r := v;
      LeadsSelf(v);
    } else {
      r := Call(v, true);
      LeadsOn(v, r);
    }
  }

  lemma FailoverLeads(w: World)
    requires Unhealthy(w)
    ensures Leads(AtPodGet(w), AtPodGet(w).(pc := StartFailover(Stored(w))))
  {
    var st, u := Stored(w), AtPodGet(w);
    var goal := u.(pc := StartFailover(st));
    if w.pod.value.phase.Running? {
      var v := u.(pc := NodeGet(st, w.pod.value.target));
      LeadsReading(u, v.pc);
      LeadsReading(v, goal.pc);
      LeadsOver(u, v, goal);
    } else {
      LeadsReading(u, goal.pc);
    }
  }

  /** A failover pass records the host as the latest failure, marks every
      attachment of the backing volume, the pods that mount the claim and the
      pod itself for deletion, and changes nothing else. */
  lemma PassFailsOver(w: World)
    requires w.pc == Idle && !w.terminating && Unhealthy(w)
    ensures var r := Pass(w);
      && r == w.(svc := true, cm := Holds(ShareState(None, History(Stored(w)), FailingOver)),
                 pod := Some(w.pod.value.(deleting := true)), vas := r.vas, workloads := r.workloads, log := r.log)
      && Detaching(w.vas, PvOf(w), r.vas) && Evicting(w, r.workloads, r.log)
  {
    var t := TakeNode(Stored(w)).(stage := FailingOver);
    var v := AtPodGet(w).(pc := SaveFailing(t));
    FailoverLeads(w);
    var d := v.(cm := Holds(t), pc := DetachPv(Failing));
    LeadsOn(v, d);
    LeadsOver(AtPodGet(w), v, d);
    var r := AbandonLeads(d);
    LeadsOver(AtPodGet(w), d, r);
    PassEnds(w, r);
  }

  lemma AbandonLeads(d: World) returns (r: World)
    requires d.pc == DetachPv(Failing) && d.pod.Some?
    ensures Leads(d, r)
    ensures r == d.(pc := Idle, pod := Some(d.pod.value.(deleting := true)), vas := r.vas, workloads := r.workloads,
                    log := r.log)
    ensures Detaching(d.vas, PvOf(d), r.vas) && Evicting(d, r.workloads, r.log)
  {
    var e := DetachAll(d, Failing);
    var f := EvictAll(e, Failing);
    r := f.(pc := Idle, pod := Some(f.pod.value.(deleting := true)));
    LeadsOn(f, r);
    LeadsOver(d, e, f);
    LeadsOver(d, f, r);
  }

  lemma {:induction false} ListedExact(vas: seq<Attachment>, pv: string)
    ensures forall n :: n in AttachmentsOf(vas, pv) <==> NamesOne(vas, n, Some(pv))
  {
    if vas == [] {
    } else {
      ListedExact(vas[1..], pv);
      assert forall a :: a in vas <==> a == vas[0] || a in vas[1..];
    }
  }

  /** The three kinds of calls of `force_detach_backing_pvc`. */
  lemma DetachAll(w: World, k: Then) returns (next: World)
    requires w.pc == DetachPv(k)
    ensures Leads(w, next) && next == w.(pc := AfterDetach(w.claim, k), vas := next.vas)
    ensures Detaching(w.vas, PvOf(w), next.vas)
  {
    if w.backing.Bound? {
      var pv := w.backing.pv;
      var todo := AttachmentsOf(w.vas, pv);
      var l, d := w.(pc := DetachList(k, pv)), w.(pc := DetachNext(w.claim, k, todo));
      LeadsReading(w, l.pc);
      LeadsReading(l, d.pc);
      next := DetachLeads(d, k, todo);
      LeadsOver(w, l, d);
      LeadsOver(w, d, next);
      ListedExact(w.vas, pv);
    } else {
      next := w.(pc := AfterDetach(w.claim, k));
      LeadsReading(w, next.pc);
    }
  }

  lemma VictimNames(pods: seq<Workload>, claim: string)
    ensures ToSet(Victims(pods, claim)) == Mounting(pods, claim)
  {
    VictimsExact(pods, claim);
  }

  /** `evict_workload_pods`. */
  lemma EvictAll(w: World, k: Then) returns (next: World)
    requires w.pc == StartEvict(w.claim, k)
    ensures Leads(w, next)
    ensures next == w.(pc := AfterEvict(k), workloads := next.workloads, log := next.log)
    ensures Evicting(w, next.workloads, next.log)
  {
    if Named(w.claim) {
      var todo := Victims(w.workloads, w.claim.name);
      var l := Call(w, true);
      LeadsOn(w, l);
      next := EvictLeads(l, k, w.workloads, todo, {});
      LeadsOver(w, l, next);
      VictimNames(w.workloads, w.claim.name);
      VictimsExact(w.workloads, w.claim.name);
      assert Logged(l.log, w.workloads, todo, {}) == w.log + [Evicted(w.workloads, ToSet(todo))] by {
        assert {} + ToSet(todo) == ToSet(todo);
        if todo == [] { assert ToSet(todo) == {}; }
      }
    } else {
      next := w;
      LeadsSelf(w);
    }
  }

  // ---------------------------------------------------------- no pod at all

  /** The pod is missing: the record after the first pass to see that. */
  function Lost(w: World): ShareState {
    Stored(w).(stage := FailingOver)
  }

  /** A pass that finds no pod gets to the "still attached?" question with the
      old volume attachments marked for deletion. */
  lemma CheckLeads(w: World) returns (u: World)
    requires w.pod == None
    ensures Leads(AtPodGet(w), u)
    ensures u == w.(pc := CheckPv(Lost(w)), svc := true, cm := Holds(Lost(w)), vas := u.vas, workloads := u.workloads,
                    log := u.log)
    ensures Detaching(w.vas, PvOf(w), u.vas) && EvictingOnce(w, u.workloads, u.log)
  {
    var d := MissingLeads(w);
    u := DetachAll(d, d.pc.k);
    LeadsOver(AtPodGet(w), d, u);
  }

  lemma MissingLeads(w: World) returns (d: World)
    requires w.pod == None
    ensures Leads(AtPodGet(w), d) && EvictingOnce(w, d.workloads, d.log)
    ensures d == w.(pc := DetachPv(Missing(Lost(w))), svc := true, cm := Holds(Lost(w)), workloads := d.workloads,
                    log := d.log)
  {
    var p, t := AtPodGet(w), Lost(w);
    if Stored(w).stage != FailingOver {
      var v := p.(pc := SaveMissing(t));
      var v1 := v.(cm := Holds(t), pc := StartEvict(v.claim, Missing(t)));
      LeadsOn(p, v);
      LeadsOn(v, v1);
      LeadsOver(p, v, v1);
      d := EvictAll(v1, Missing(t));
      LeadsOver(p, v1, d);
    } else {
      d := p.(pc := DetachPv(Missing(t)));
      LeadsOn(p, d);
    }
  }

  /** While an attachment remains the pass only waits. */
  lemma PassAwaitsDetach(w: World)
    requires w.pc == Idle && !w.terminating && w.pod == None && !Unattached(w.vas, PvOf(w))
    ensures var r := Pass(w);
      && r == w.(svc := true, cm := Holds(Stored(w).(stage := FailingOver)), vas := r.vas, workloads := r.workloads,
                 log := r.log)
      && Detaching(w.vas, PvOf(w), r.vas) && EvictingOnce(w, r.workloads, r.log)
  {
    var u := CheckLeads(w);
    MarksKeepListed(w.vas, u.vas, u.backing.pv);
    AttachedLeads(u, u.pc.st);
    LeadsOver(AtPodGet(w), u, u.(pc := Idle));
    PassEnds(w, u.(pc := Idle));
  }

  lemma AttachedLeads(u: World, st: ShareState)
    requires u.pc == CheckPv(st) && u.backing.Bound? && AttachmentsOf(u.vas, u.backing.pv) != []
    ensures Leads(u, u.(pc := Idle))
  {
    var pv := u.backing.pv;
    var c, r := u.(pc := CheckVas(st, pv)), u.(pc := Idle);
    LeadsReading(u, c.pc);
    LeadsReading(c, r.pc);
    LeadsOver(u, c, r);
  }

  lemma MarksKeepListed(a: seq<Attachment>, b: seq<Attachment>, pv: string)
    requires Detaching(a, Some(pv), b)
    ensures AttachmentsOf(b, pv) == [] <==> Unattached(a, Some(pv))
  {
    ListedAttachments(b, pv);
    if !Unattached(a, Some(pv)) {
      var i :| 0 <= i < |a| && a[i].pv == pv;
      assert b[i] in b;
    }
    if !Unattached(b, Some(pv)) {
      var i :| 0 <= i < |b| && b[i].pv == pv;
      assert a[i] in a;
    }
  }

  lemma Unmarked(vas: seq<Attachment>, pv: Option<string>, after: seq<Attachment>)
    requires Detaching(vas, pv, after) && Unattached(vas, pv)
    ensures after == vas
  {
    assert forall i | 0 <= i < |vas| :: after[i] == vas[i];
  }

  /** Once nothing is attached and a spare node exists, the pass places a pod and
      has the node on record, behind the history that the pick left. */
  lemma PassPlaces(w: World, x: Node)
    requires w.pc == Idle && !w.terminating && w.pod == None && Unattached(w.vas, PvOf(w)) && Spare(w, x)
    ensures var r, prior := Pass(w), History(Stored(w));
      var pick := PickWithReset(w.others, w.nodes, prior);
      && pick.node.Some? && Eligible(w.others, w.nodes, pick.node.value)
      && (prior != [] ==> pick.node.value != Last(prior))
      && r.pod == Some(Pod(pick.node.value, false, Pending, false, true))
      && r == w.(svc := true, cm := Holds(ShareState(pick.node, pick.prior, Starting)), pod := r.pod,
                 workloads := r.workloads, trail := w.trail + [pick.node.value], log := r.log)
      && r.log != [] && Last(r.log) == Placed(pick.node.value)
      && EvictingOnce(w, r.workloads, r.log[..|r.log| - 1])
  {
    PickWithResetComplete(w.others, w.nodes, History(Stored(w)));
    var u := CheckLeads(w);
    Unmarked(w.vas, PvOf(w), u.vas);
    if w.backing.Bound? { ListedAttachments(w.vas, w.backing.pv); }
    var t := TakeNode(u.pc.st);
    var p := u.(pc := PickPods(t, true));
    DetachedLeads(u, u.pc.st);
    var r := PickLeads(p, t, x);
    LeadsOver(AtPodGet(w), u, p);
    LeadsOver(AtPodGet(w), p, r);
    PassEnds(w, r);
    assert r.log[..|r.log| - 1] == u.log;
  }

  /** Without an eligible node other than the latest failure nothing is placed,
      and what the pick did to the history is not stored. */
  lemma PassFindsNoNode(w: World)
    requires w.pc == Idle && !w.terminating && w.pod == None && Unattached(w.vas, PvOf(w))
    requires var prior := History(Stored(w));
      forall x | Eligible(w.others, w.nodes, x) :: prior != [] && x == Last(prior)
    ensures var r := Pass(w);
      && r == w.(svc := true, cm := Holds(Stored(w).(stage := FailingOver)), workloads := r.workloads, log := r.log)
      && EvictingOnce(w, r.workloads, r.log)
  {
    var u := CheckLeads(w);
    Unmarked(w.vas, PvOf(w), u.vas);
    if w.backing.Bound? { ListedAttachments(w.vas, w.backing.pv); }
    var t := TakeNode(u.pc.st);
    var p := u.(pc := PickPods(t, true));
    DetachedLeads(u, u.pc.st);
    NoNodeLeads(p, t);
    LeadsOver(AtPodGet(w), u, p);
    LeadsOver(AtPodGet(w), p, p.(pc := Idle));
    PassEnds(w, p.(pc := Idle));
  }

  lemma NoNodeLeads(p: World, t: ShareState)
    requires p.pc == PickPods(t, true) && p.pod == None
    requires forall x | Eligible(p.others, p.nodes, x) :: t.prior != [] && x == Last(t.prior)
    ensures Leads(p, p.(pc := Idle))
  {
    assert PickNode(p.others, p.nodes, t.prior) == None;
    if |t.prior| > 1 {
      var reset := t.(prior := Reset(t.prior));
      assert PickNode(p.others, p.nodes, reset.prior) == None;
      var p1 := p.(pc := PickPods(reset, false));
      ResetLeads(p, t);
      GiveUpLeads(p1, reset, false);
      LeadsOver(p, p1, p.(pc := Idle));
    } else {
      GiveUpLeads(p, t, true);
    }
  }

  lemma GiveUpLeads(p: World, t: ShareState, first: bool)
    requires p.pc == PickPods(t, first) && p.pod == None
    requires PickNode(p.others, p.nodes, t.prior) == None && (first ==> |t.prior| <= 1)
    ensures Leads(p, p.(pc := Idle))
  {
    var q, r := p.(pc := PickNodes(t, p.others, first)), p.(pc := Idle);
    LeadsReading(p, q.pc);
    LeadsReading(q, r.pc);
    LeadsOver(p, q, r);
  }

  /** With nothing attached, both reads lead on to the pick. */
  lemma DetachedLeads(u: World, st: ShareState)
    requires u.pc == CheckPv(st) && (u.backing.Bound? ==> AttachmentsOf(u.vas, u.backing.pv) == [])
    ensures Leads(u, u.(pc := PickPods(TakeNode(st), true)))
  {
    var p := u.(pc := PickPods(TakeNode(st), true));
    if u.backing.Bound? {
      var c := u.(pc := CheckVas(st, u.backing.pv));
      LeadsReading(u, c.pc);
      LeadsReading(c, p.pc);
      LeadsOver(u, c, p);
    } else {
      LeadsReading(u, p.pc);
    }
  }

  lemma PickLeads(p: World, t: ShareState, x: Node) returns (r: World)
    requires p.pc == PickPods(t, true) && p.pod == None && !p.cm.Absent?
    requires Eligible(p.others, p.nodes, x) && (t.prior != [] ==> Last(t.prior) != x)
    ensures var pick := PickWithReset(p.others, p.nodes, t.prior);
      pick.node.Some? && r == Placing(p, pick.node.value, pick.prior) && Leads(p, r)
  {
    PickWithResetComplete(p.others, p.nodes, t.prior);
    var n := PickNode(p.others, p.nodes, t.prior);
    if n.Some? {
      r := PlaceLeads(p, t, true, n.value);
    } else {
      var reset := t.(prior := Reset(t.prior));
      var p1 := p.(pc := PickPods(reset, false));
      ResetLeads(p, t);
      r := PlaceLeads(p1, reset, false, PickNode(p.others, p.nodes, reset.prior).value);
      LeadsOver(p, p1, r);
    }
  }

  lemma ResetLeads(p: World, t: ShareState)
    requires p.pc == PickPods(t, true) && p.pod == None && |t.prior| > 1
    requires PickNode(p.others, p.nodes, t.prior) == None
    ensures Leads(p, p.(pc := PickPods(t.(prior := Reset(t.prior)), false)))
  {
    var q, p1 := p.(pc := PickNodes(t, p.others, true)), p.(pc := PickPods(t.(prior := Reset(t.prior)), false));
    LeadsReading(p, q.pc);
    LeadsReading(q, p1.pc);
    LeadsOver(p, q, p1);
  }

  /** The placement on `n`, with `prior` left as the history. */
  function Placing(p: World, n: Node, prior: seq<Node>): World {
    p.(pc := Idle, cm := Holds(ShareState(Some(n), prior, Starting)), pod := Some(Pod(n, false, Pending, false, true)),
       trail := p.trail + [n], log := p.log + [Placed(n)])
  }

  /** An attempt to pick that succeeds: save the record, create the pod. */
  lemma PlaceLeads(p: World, t: ShareState, first: bool, n: Node) returns (r: World)
    requires p.pc == PickPods(t, first) && p.pod == None && !p.cm.Absent?
    requires PickNode(p.others, p.nodes, t.prior) == Some(n)
    ensures Leads(p, r) && r == Placing(p, n, t.prior)
  {
    var q := p.(pc := PickNodes(t, p.others, first));
    var s := p.(pc := SavePlaced(t.(node := Some(n), stage := Starting), n));
    LeadsReading(p, q.pc);
    LeadsReading(q, s.pc);
    LeadsOver(p, q, s);
    r := SaveAndCreate(s, s.pc.st, n);
    LeadsOver(p, s, r);
  }

  lemma SaveAndCreate(s: World, st: ShareState, n: Node) returns (r: World)
    requires s.pc == SavePlaced(st, n) && s.pod == None && !s.cm.Absent?
    requires st.node == Some(n) && st.stage == Starting
    ensures Leads(s, r) && r == Placing(s, n, st.prior)
  {
    var c := Call(s, true);
    r := c.(pc := Idle, pod := Some(Pod(n, false, Pending, false, true)));
    LeadsOn(s, c);
    LeadsOn(c, r);
    LeadsOver(s, c, r);
  }
}
