/** The handlers under concurrency: any number of stateless replicas run them
    as separate API calls (GET, then PATCH), and only ganesha's lock
    (ganesha-patch/recovery_hcloud.c) keeps two requests of one host apart. */
module RecoveryConcurrency {
  import opened Base
  import opened MergePatch
  import opened RecoveryStore
  import opened RecoveryTrace
  import KeyOrder

  function CmName(host: string): string {
    "recovery-backend-" + host
  }

  lemma CmNameInjective(a: string, b: string)
    ensures CmName(a) == CmName(b) ==> a == b
  {
    var p := "recovery-backend-";
    assert CmName(a)[|p|..] == a && CmName(b)[|p|..] == b;
  }

  lemma CmNameMeans(host: string)
    ensures var name := CmName(host);
      |name| == |host| + 17 && name[..17] == "recovery-backend-" && name[17..] == host
  {
  }

  type Store = map<string, Cm>

  function Get(cms: Store, host: string): Option<Cm> {
    if CmName(host) in cms then Some(cms[CmName(host)]) else None
  }

  function Put(cms: Store, host: string, cm: Option<Cm>): Store {
    if cm.Some? then cms[CmName(host) := cm.value] else cms
  }

  /** A request in some replica: before its first call, or between its two calls. */
  datatype Flight = Started(host: string, req: Request) | Fetched(host: string, req: Request, snapshot: Cm)

  datatype Completed = Completed(host: string, req: Request, response: Response)

  datatype System = System(cms: Store, flights: map<nat, Flight>, done: seq<Completed>)

  datatype Event =
    | Begin(id: nat, host: string, req: Request)   // a replica accepts the request
    | Call(id: nat)                                // its next API call takes effect
    | Fail(id: nat)                                // the call fails or the replica dies

  function Respond(s: System, id: nat, cms: Store, response: Response): System
    requires id in s.flights
  {
    var f := s.flights[id];
    System(cms, s.flights - {id}, s.done + [Completed(f.host, f.req, response)])
  }

  /** The first API call of a handler: CREATE for `create`, GET for all others. */
  function FirstCall(s: System, id: nat): System
    requires id in s.flights
  {
    var f := s.flights[id];
    var cm := Get(s.cms, f.host);
    if !WellFormed(f.req) then Respond(s, id, s.cms, BadRequest)
    else if f.req.Create? then
      if cm.None? then Respond(s, id, Put(s.cms, f.host, Some(PatchFor(Null, f.req))), Done)
      else s.(flights := s.flights[id := Fetched(f.host, f.req, Null)])
    else if cm.None? then Respond(s, id, s.cms, NotFound)
    else if f.req.Read? then Respond(s, id, s.cms, Handle(cm, Read).response)
    else s.(flights := s.flights[id := Fetched(f.host, f.req, cm.value)])
  }

  /** The second API call: merge the patch computed from the snapshot. */
  function SecondCall(s: System, id: nat): System
    requires id in s.flights && s.flights[id].Fetched?
  {
    var f := s.flights[id];
    var cm := Get(s.cms, f.host);
    if cm.None? || !WellFormed(f.req) || f.req.Read? then Respond(s, id, s.cms, NotFound)
    else Respond(s, id, Put(s.cms, f.host, Some(Merge(cm.value, PatchFor(f.snapshot, f.req)))), Done)
  }

  function Next(s: System, e: Event): System {
    match e
    case Begin(id, host, req) => if id in s.flights then s else s.(flights := s.flights[id := Started(host, req)])
    case Call(id) =>
      if id !in s.flights then s else if s.flights[id].Started? then FirstCall(s, id) else SecondCall(s, id)
    case Fail(id) => s.(flights := s.flights - {id})
  }

  function Run(s: System, es: seq<Event>): System {
    if es == [] then s else Next(Run(s, es[..|es| - 1]), Last(es))
  }

  const Initial := System(map[], map[], [])

  // ------------------------------------------------------------------ the lock

  /** Two flights that may coexist: different hosts, or two readers. */
  predicate Apart(host: string, req: Request, f: Flight) {
    f.host != host || (req.Read? && f.req.Read?)
  }

  /** A writer begins only when its host has no request in flight, a reader only
      when its host has no writer in flight. */
  predicate UnderLock(s: System, e: Event) {
    e.Begin? && e.id !in s.flights ==> forall i | i in s.flights :: Apart(e.host, e.req, s.flights[i])
  }

  ghost predicate Locked(s: System, es: seq<Event>) {
    forall i | 0 <= i < |es| :: UnderLock(Run(s, es[..i]), es[i])
  }

  lemma LockedPrefix(s: System, es: seq<Event>)
    requires es != [] && Locked(s, es)
    ensures Locked(s, es[..|es| - 1]) && UnderLock(Run(s, es[..|es| - 1]), Last(es))
  {
    var front := es[..|es| - 1];
    forall i | 0 <= i < |front| ensures UnderLock(Run(s, front[..i]), front[i]) {
      assert front[..i] == es[..i] && front[i] == es[i];
    }
  }

  // -------------------------------------------------------- atomic executions

  /** The store after running the completed requests one at a time. */
  function Atomic(done: seq<Completed>): Store {
    if done == [] then map[]
    else
      var cms, c := Atomic(done[..|done| - 1]), Last(done);
      Put(cms, c.host, Handle(Get(cms, c.host), c.req).store)
  }

  /** Every response is the one the atomic execution gives. */
  ghost predicate Truthful(done: seq<Completed>) {
    forall i | 0 <= i < |done| ::
      done[i].response == Handle(Get(Atomic(done[..i]), done[i].host), done[i].req).response
  }

  ghost predicate Exclusive(flights: map<nat, Flight>) {
    forall i, j | i in flights && j in flights && i != j :: Apart(flights[i].host, flights[i].req, flights[j])
  }

  /** A fetched snapshot is still what the store holds. */
  ghost predicate Fresh(cms: Store, f: Flight) {
    f.Fetched? ==>
      && WellFormed(f.req) && !f.req.Read? && CmName(f.host) in cms
      && (f.req.Create? || f.snapshot == cms[CmName(f.host)])
  }

  ghost predicate AllFresh(cms: Store, flights: map<nat, Flight>) {
    forall i | i in flights :: Fresh(cms, flights[i])
  }

  ghost predicate Inv(s: System) {
    s.cms == Atomic(s.done) && Truthful(s.done) && Exclusive(s.flights) && AllFresh(s.cms, s.flights)
  }

  lemma AtomicAppend(done: seq<Completed>, c: Completed)
    requires Truthful(done) && c.response == Handle(Get(Atomic(done), c.host), c.req).response
    ensures Truthful(done + [c])
    ensures Atomic(done + [c]) == Put(Atomic(done), c.host, Handle(Get(Atomic(done), c.host), c.req).store)
  {
    var all := done + [c];
    assert all[..|done|] == done;
    forall i | 0 <= i < |all|
      ensures all[i].response == Handle(Get(Atomic(all[..i]), all[i].host), all[i].req).response
    {
      if i < |done| { assert all[..i] == done[..i]; }
    }
  }

  /** Writing one host's ConfigMap does not touch a flight it is apart from. */
  lemma WriteKeepsFresh(cms: Store, host: string, req: Request, cm: Option<Cm>, f: Flight)
    requires Fresh(cms, f) && Apart(host, req, f) && !req.Read?
    ensures Fresh(Put(cms, host, cm), f)
  {
    CmNameInjective(host, f.host);
  }

  /** Completing a request the way the atomic execution would. */
  lemma CompleteKeepsInv(s: System, id: nat, cms: Store, response: Response)
    requires Inv(s) && id in s.flights
    requires var f := s.flights[id];
      && response == Handle(Get(s.cms, f.host), f.req).response
      && cms == Put(s.cms, f.host, Handle(Get(s.cms, f.host), f.req).store)
    ensures Inv(Respond(s, id, cms, response))
  {
    var f := s.flights[id];
    AtomicAppend(s.done, Completed(f.host, f.req, response));
    var rest := s.flights - {id};
    forall i | i in rest ensures Fresh(cms, rest[i]) {
      if f.req.Read? || !WellFormed(f.req) || Handle(Get(s.cms, f.host), f.req).store == Get(s.cms, f.host) {
        PutSame(s.cms, f.host);
      } else {
        WriteKeepsFresh(s.cms, f.host, f.req, Handle(Get(s.cms, f.host), f.req).store, rest[i]);
      }
    }
  }

  lemma PutSame(cms: Store, host: string)
    ensures Put(cms, host, Get(cms, host)) == cms
  {
  }

  /** What the atomic handler would do, as the end of request `id`. */
  function Completes(s: System, id: nat): System
    requires id in s.flights
  {
    var f := s.flights[id];
    var h := Handle(Get(s.cms, f.host), f.req);
    Respond(s, id, Put(s.cms, f.host, h.store), h.response)
  }

  function Fetches(s: System, id: nat, snapshot: Cm): System
    requires id in s.flights
  {
    s.(flights := s.flights[id := Fetched(s.flights[id].host, s.flights[id].req, snapshot)])
  }

  /** The first call completes the request, or leaves a patch still to be sent. */
  lemma FirstCallIs(s: System, id: nat)
    requires id in s.flights
    ensures var f := s.flights[id];
      var patches := WellFormed(f.req) && !f.req.Read? && Get(s.cms, f.host).Some?;
      FirstCall(s, id) ==
        if patches then Fetches(s, id, if f.req.Create? then Null else Get(s.cms, f.host).value) else Completes(s, id)
  {
    PutSame(s.cms, s.flights[id].host);
  }

  lemma FirstCallKeepsInv(s: System, id: nat)
    requires Inv(s) && id in s.flights && s.flights[id].Started?
    ensures Inv(FirstCall(s, id))
  {
    var f := s.flights[id];
    FirstCallIs(s, id);
    if WellFormed(f.req) && !f.req.Read? && Get(s.cms, f.host).Some? {
      FetchKeepsInv(s, id, if f.req.Create? then Null else Get(s.cms, f.host).value);
    } else {
      var h := Handle(Get(s.cms, f.host), f.req);
      CompleteKeepsInv(s, id, Put(s.cms, f.host, h.store), h.response);
    }
  }

  /** A request that has fetched its snapshot waits for its second call. */
  lemma FetchKeepsInv(s: System, id: nat, snapshot: Cm)
    requires Inv(s) && id in s.flights
    requires Fresh(s.cms, Fetched(s.flights[id].host, s.flights[id].req, snapshot))
    ensures Inv(Fetches(s, id, snapshot))
  {
  }

  lemma SecondCallKeepsInv(s: System, id: nat)
    requires Inv(s) && id in s.flights && s.flights[id].Fetched?
    ensures Inv(SecondCall(s, id))
  {
    var f := s.flights[id];
    var next := SecondCall(s, id);
    CompleteKeepsInv(s, id, next.cms, Done);
  }

  lemma NextKeepsInv(s: System, e: Event)
    requires Inv(s) && UnderLock(s, e)
    ensures Inv(Next(s, e))
  {
    match e
    case Begin(id, host, req) =>
    case Call(id) =>
      if id in s.flights {
        if s.flights[id].Started? { FirstCallKeepsInv(s, id); } else { SecondCallKeepsInv(s, id); }
      }
    case Fail(id) =>
  }

  lemma {:induction false} RunKeepsInv(es: seq<Event>)
    requires Locked(Initial, es)
    ensures Inv(Run(Initial, es))
  {
    if es == [] {
    } else {
      LockedPrefix(Initial, es);
      RunKeepsInv(es[..|es| - 1]);
      NextKeepsInv(Run(Initial, es[..|es| - 1]), Last(es));
    }
  }

  /** Linearizability: under the lock, whatever the replicas, hosts, failures and
      interleaving of calls, store and responses are those of running the
      completed requests one at a time, in the order in which they completed. */
  lemma Linearizable(es: seq<Event>)
    requires Locked(Initial, es)
    ensures var s := Run(Initial, es);
      && s.cms == Atomic(s.done)
      && forall i | 0 <= i < |s.done| ::
           s.done[i].response == Handle(Get(Atomic(s.done[..i]), s.done[i].host), s.done[i].req).response
  {
    RunKeepsInv(es);
  }

  /** The events of a request that is carried out without a failure. */
  function Course(s: System, id: nat, host: string, req: Request): seq<Event> {
    [Begin(id, host, req), Call(id)]
    + if WellFormed(req) && !req.Read? && Get(s.cms, host).Some? then [Call(id)] else []
  }

  /** The request has started but not made a call. */
  function Ready(s: System, id: nat, f: Flight): System {
    s.(flights := s.flights[id := f])
  }

  /** The request is carried out at once. */
  function AtOnce(s: System, host: string, req: Request): System {
    var h := Handle(Get(s.cms, host), req);
    System(Put(s.cms, host, h.store), s.flights, s.done + [Completed(host, req, h.response)])
  }

  lemma FailLeavesNothing(s: System, id: nat, f: Flight)
    requires id !in s.flights
    ensures Next(Ready(s, id, f), Fail(id)) == s
  {
    assert s.flights[id := f] - {id} == s.flights;
  }

  lemma FirstOfOne(s: System, id: nat, host: string, req: Request)
    requires id !in s.flights && !(WellFormed(req) && !req.Read? && Get(s.cms, host).Some?)
    ensures Next(Ready(s, id, Started(host, req)), Call(id)) == AtOnce(s, host, req)
  {
    var s1 := Ready(s, id, Started(host, req));
    FirstCallIs(s1, id);
    assert s1.flights - {id} == s.flights;
  }

  lemma BothOfTwo(s: System, id: nat, host: string, req: Request, snapshot: Cm)
    requires id !in s.flights && WellFormed(req) && !req.Read? && Get(s.cms, host).Some?
    requires snapshot == if req.Create? then Null else Get(s.cms, host).value
    ensures Next(Ready(s, id, Started(host, req)), Call(id)) == Ready(s, id, Fetched(host, req, snapshot))
    ensures Next(Ready(s, id, Fetched(host, req, snapshot)), Call(id)) == AtOnce(s, host, req)
  {
    var s1, s2 := Ready(s, id, Started(host, req)), Ready(s, id, Fetched(host, req, snapshot));
    FirstCallIs(s1, id);
    assert s1.flights[id := Fetched(host, req, snapshot)] == s2.flights;
    assert s2.flights - {id} == s.flights;
  }

  lemma InOneCall(s: System, id: nat, host: string, req: Request)
    requires id !in s.flights && !(WellFormed(req) && !req.Read? && Get(s.cms, host).Some?)
    ensures Run(s, [Begin(id, host, req), Call(id)]) == AtOnce(s, host, req)
    ensures Run(s, [Begin(id, host, req), Fail(id)]) == s
  {
    RunTwo(s, Begin(id, host, req), Call(id));
    RunTwo(s, Begin(id, host, req), Fail(id));
    FirstOfOne(s, id, host, req);
    FailLeavesNothing(s, id, Started(host, req));
  }

  lemma InTwoCalls(s: System, id: nat, host: string, req: Request)
    requires id !in s.flights && WellFormed(req) && !req.Read? && Get(s.cms, host).Some?
    ensures Run(s, [Begin(id, host, req), Call(id), Call(id)]) == AtOnce(s, host, req)
    ensures Run(s, [Begin(id, host, req), Call(id), Fail(id)]) == s
  {
    var snapshot := if req.Create? then Null else Get(s.cms, host).value;
    RunThree(s, Begin(id, host, req), Call(id), Call(id));
    RunThree(s, Begin(id, host, req), Call(id), Fail(id));
    BothOfTwo(s, id, host, req, snapshot);
    FailLeavesNothing(s, id, Fetched(host, req, snapshot));
  }

  /** From every state, a request that makes its calls in a row, all answered,
      completes with exactly the atomic effect, in one call or two; one that fails
      before its last call leaves no trace. */
  lemma RequestCompletes(s: System, id: nat, host: string, req: Request)
    requires id !in s.flights
    ensures var h, es := Handle(Get(s.cms, host), req), Course(s, id, host, req);
      && Run(s, es) == System(Put(s.cms, host, h.store), s.flights, s.done + [Completed(host, req, h.response)])
      && Run(s, es[..|es| - 1] + [Fail(id)]) == s
  {
    var es := Course(s, id, host, req);
    if WellFormed(req) && !req.Read? && Get(s.cms, host).Some? {
      InTwoCalls(s, id, host, req);
      assert es == [Begin(id, host, req), Call(id), Call(id)];
      assert es[..2] + [Fail(id)] == [Begin(id, host, req), Call(id), Fail(id)];
    } else {
      InOneCall(s, id, host, req);
      assert es == [Begin(id, host, req), Call(id)];
      assert es[..1] + [Fail(id)] == [Begin(id, host, req), Fail(id)];
    }
  }

  lemma RunThree(s: System, e: Event, f: Event, g: Event)
    ensures Run(s, [e, f, g]) == Next(Next(Next(s, e), f), g)
  {
    assert [e, f, g][..2] == [e, f];
    RunTwo(s, e, f);
  }

  // ------------------------------------------------------- one host at a time

  /** The requests of one host, in the order in which they completed. */
  function RequestsOf(done: seq<Completed>, host: string): seq<Request> {
    if done == [] then []
    else
      var rest := RequestsOf(done[..|done| - 1], host);
      if Last(done).host == host then rest + [Last(done).req] else rest
  }

  lemma {:induction false} HostsAreIndependent(done: seq<Completed>, host: string)
    ensures Get(Atomic(done), host) == Serve(RequestsOf(done, host))
  {
    if done == [] {
    } else {
      var front, c := done[..|done| - 1], Last(done);
      HostsAreIndependent(front, host);
      CmNameInjective(c.host, host);
      var reqs := RequestsOf(front, host);
      assert (reqs + [c.req])[..|reqs|] == reqs;
    }
  }

  /** No client is lost: at any moment of any run under the lock, a host whose
      completed requests include a create and carry its version reads back, in
      strictly ascending order, exactly its live clients. */
  lemma NoClientIsLost(es: seq<Event>, host: string)
    requires Locked(Initial, es)
    requires var reqs := RequestsOf(Run(Initial, es).done, host); Disciplined(reqs) && Announced(reqs).Some?
    ensures var s := Run(Initial, es);
      var r := Handle(Get(s.cms, host), Read).response;
      && r.Clients? && KeyOrder.StrictlySorted(r.ids)
      && forall c :: c in r.ids <==> Live(RequestsOf(s.done, host), c)
  {
    Linearizable(es);
    var s := Run(Initial, es);
    HostsAreIndependent(s.done, host);
    ReadIsExact(RequestsOf(s.done, host));
  }

  // --------------------------------------------------------- without the lock

  /** Two adds of one host that overlap (the lock is released when a request
      times out, although the replica still works on it). */
  function OverlappingAdds(host: string, a: string, b: string, body: Input): seq<Event> {
    [Begin(0, host, Add(a, Some(body))), Begin(1, host, Add(b, Some(body)))] + [Call(0), Call(1)] + [Call(0), Call(1)]
  }

  lemma RunTwo(s: System, e: Event, f: Event)
    ensures Run(s, [e, f]) == Next(Next(s, e), f)
  {
    assert [e, f][..1] == [e] && [e][..0] == [];
    assert Run(s, [e]) == Next(Run(s, []), e);
  }

  lemma {:induction false} RunConcat(s: System, es: seq<Event>, fs: seq<Event>)
    ensures Run(s, es + fs) == Run(Run(s, es), fs)
  {
    if fs == [] {
      assert es + fs == es;
    } else {
      assert (es + fs)[..|es + fs| - 1] == es + fs[..|fs| - 1];
      RunConcat(s, es, fs[..|fs| - 1]);
    }
  }

  /** The second patch was computed before the first one was merged. */
  lemma StalePatchOverwrites(cm: Cm, cm1: Cm, b: string, body: Input)
    ensures BucketIn(Data(Merge(cm1, PatchFor(cm, Add(b, Some(body))))), body.version)
      == Touch(BucketIn(Data(cm), body.version), b)
  {
    MergeDataPatch(cm1, Data(cm)[body.version := Encoded(Touch(BucketIn(Data(cm), body.version), b))]);
  }

  lemma OverlapSteps(cms: Store, host: string, ra: Request, rb: Request, cm: Cm)
    requires Get(cms, host) == Some(cm) && ra.Add? && rb.Add? && WellFormed(ra) && WellFormed(rb)
    ensures var s2 := Next(Next(System(cms, map[], []), Begin(0, host, ra)), Begin(1, host, rb));
      Next(Next(s2, Call(0)), Call(1)) == System(cms, map[0 := Fetched(host, ra, cm), 1 := Fetched(host, rb, cm)], [])
  {
    var s2 := System(cms, map[0 := Started(host, ra), 1 := Started(host, rb)], []);
    assert Next(Next(System(cms, map[], []), Begin(0, host, ra)), Begin(1, host, rb)) == s2;
    assert Next(s2, Call(0)) == s2.(flights := map[0 := Fetched(host, ra, cm), 1 := Started(host, rb)]);
  }

  lemma OverlapCommits(cms: Store, host: string, ra: Request, rb: Request, cm: Cm)
    requires Get(cms, host) == Some(cm) && ra.Add? && rb.Add? && WellFormed(ra) && WellFormed(rb)
    ensures var s4 := System(cms, map[0 := Fetched(host, ra, cm), 1 := Fetched(host, rb, cm)], []);
      var s6 := Next(Next(s4, Call(0)), Call(1));
      && s6.done == [Completed(host, ra, Done), Completed(host, rb, Done)]
      && Get(s6.cms, host) == Some(Merge(Merge(cm, PatchFor(cm, ra)), PatchFor(cm, rb)))
  {
    var s4 := System(cms, map[0 := Fetched(host, ra, cm), 1 := Fetched(host, rb, cm)], []);
    var cm1 := Merge(cm, PatchFor(cm, ra));
    assert Next(s4, Call(0))
      == System(cms[CmName(host) := cm1], map[1 := Fetched(host, rb, cm)], [Completed(host, ra, Done)]);
  }

  /** From every store, two overlapping adds are both acknowledged and the first
      one is lost. */
  lemma OverlapLosesUpdate(cms: Store, host: string, a: string, b: string, body: Input)
    requires CmName(host) in cms && a != b
    requires a !in BucketIn(Data(cms[CmName(host)]), body.version)
    ensures var s := Run(System(cms, map[], []), OverlappingAdds(host, a, b, body));
      && s.done == [Completed(host, Add(a, Some(body)), Done), Completed(host, Add(b, Some(body)), Done)]
      && CmName(host) in s.cms
      && a !in BucketIn(Data(s.cms[CmName(host)]), body.version)
      && b in BucketIn(Data(s.cms[CmName(host)]), body.version)
  {
    var cm, ra, rb := cms[CmName(host)], Add(a, Some(body)), Add(b, Some(body));
    var s0, begins, calls := System(cms, map[], []), [Begin(0, host, ra), Begin(1, host, rb)], [Call(0), Call(1)];
    RunConcat(s0, begins + calls, calls);
    RunConcat(s0, begins, calls);
    RunTwo(s0, begins[0], begins[1]);
    RunTwo(Run(s0, begins), Call(0), Call(1));
    RunTwo(Run(s0, begins + calls), Call(0), Call(1));
    OverlapSteps(cms, host, ra, rb, cm);
    OverlapCommits(cms, host, ra, rb, cm);
    StalePatchOverwrites(cm, Merge(cm, PatchFor(cm, ra)), b, body);
  }
}
