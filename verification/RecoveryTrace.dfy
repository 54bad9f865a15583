/** What a host's recovery store answers, as a function of the requests it has
    served; and why the buckets of older versions, which no patch ever removes,
    are not seen by a client that keeps to the version of its latest create. */
module RecoveryTrace {
  import opened Base
  import opened MergePatch
  import opened KeyOrder
  import opened RecoveryStore

  datatype Outcome = Outcome(store: Option<Cm>, response: Response)

  /** One handler run to its end: read the ConfigMap, merge the patch. */
  function Handle(s: Option<Cm>, req: Request): Outcome {
    if !WellFormed(req) then Outcome(s, BadRequest)
    else if req.Create? then
      Outcome(Some(if s.None? then PatchFor(Null, req) else Merge(s.value, PatchFor(s.value, req))), Done)
    else if s.None? then Outcome(s, NotFound)
    else if req.Read? then Outcome(s, Clients(Ascending(Current(ViewOf(s.value)).Keys)))
    else Outcome(Some(Merge(s.value, PatchFor(s.value, req))), Done)
  }

  /** The bucket under the annotated version. */
  function Current(v: View): Bucket {
    BucketIn(v.data, Version(v))
  }

  function Serve(reqs: seq<Request>): Option<Cm> {
    if reqs == [] then None else Handle(Serve(reqs[..|reqs| - 1]), Last(reqs)).store
  }

  // ----------------------------------------------------- version discipline

  predicate Creates(req: Request) {
    req.Create? && WellFormed(req)
  }

  /** The version the latest create announced. */
  function Announced(reqs: seq<Request>): Option<string> {
    if reqs == [] then None
    else if Creates(Last(reqs)) then Some(Last(reqs).body.value.version)
    else Announced(reqs[..|reqs| - 1])
  }

  /** `recov_version` is set once per incarnation and sent with every request. */
  predicate Keeps(version: Option<string>, req: Request) {
    (req.EndGrace? || req.Add? || req.Revoke?) && req.body.Some? && version.Some? ==>
      req.body.value.version == version.value
  }

  ghost predicate Disciplined(reqs: seq<Request>) {
    forall i | 0 <= i < |reqs| :: Keeps(Announced(reqs[..i]), reqs[i])
  }

  lemma DisciplinedPrefix(reqs: seq<Request>)
    requires reqs != [] && Disciplined(reqs)
    ensures Disciplined(reqs[..|reqs| - 1]) && Keeps(Announced(reqs[..|reqs| - 1]), Last(reqs))
  {
    var front := reqs[..|reqs| - 1];
    forall i | 0 <= i < |front| ensures Keeps(Announced(front[..i]), front[i]) {
      assert front[..i] == reqs[..i] && front[i] == reqs[i];
    }
  }

  // ------------------------------------------- a store with one bucket only

  datatype Slim = Slim(version: string, clients: Bucket)

  datatype SlimOutcome = SlimOutcome(store: Option<Slim>, response: Response)

  /** The same requests on a store that keeps only the current bucket. */
  function SlimHandle(s: Option<Slim>, req: Request): SlimOutcome {
    if !WellFormed(req) then SlimOutcome(s, BadRequest)
    else if req.Create? then SlimOutcome(Some(Slim(req.body.value.version, map[])), Done)
    else if s.None? then SlimOutcome(s, NotFound)
    else
      var b := s.value.clients;
      match req
      case EndGrace(_) => SlimOutcome(Some(s.value.(clients := map[])), Done)
      case Add(c, _) => SlimOutcome(Some(s.value.(clients := Touch(b, c))), Done)
      case Remove(c) => SlimOutcome(Some(s.value.(clients := b - {c})), Done)
      case Revoke(c, h, _) => SlimOutcome(Some(s.value.(clients := Push(b, c, h))), Done)
      case _ => SlimOutcome(s, Clients(Ascending(b.Keys)))
  }

  function SlimServe(reqs: seq<Request>): Option<Slim> {
    if reqs == [] then None else SlimHandle(SlimServe(reqs[..|reqs| - 1]), Last(reqs)).store
  }

  ghost predicate Agree(s: Option<Cm>, t: Option<Slim>) {
    && (s.Some? <==> t.Some?)
    && (s.Some? ==> Version(ViewOf(s.value)) == t.value.version && Current(ViewOf(s.value)) == t.value.clients)
  }

  /** On the view, a disciplined request acts on the current bucket alone. */
  lemma ApplyToCurrent(v: View, req: Request)
    requires WellFormed(req) && Keeps(Some(Version(v)), req)
    ensures var t := SlimHandle(Some(Slim(Version(v), Current(v))), req).store;
      t == Some(Slim(Version(Apply(v, req)), Current(Apply(v, req))))
  {
  }

  lemma CreatedView(req: Request)
    requires Creates(req)
    ensures var v := ViewOf(PatchFor(Null, req));
      Version(v) == req.body.value.version && Current(v) == map[]
  {
    var ver := req.body.value.version;
    DocumentView(map["version" := Plain(ver)], map[ver := Empty]);
  }

  lemma HandleAgrees(s: Option<Cm>, t: Option<Slim>, req: Request)
    requires Agree(s, t) && Keeps(if t.Some? then Some(t.value.version) else None, req)
    ensures Agree(Handle(s, req).store, SlimHandle(t, req).store)
    ensures Handle(s, req).response == SlimHandle(t, req).response
  {
    if WellFormed(req) {
      if s.None? {
        if req.Create? { CreatedView(req); }
      } else if !req.Read? {
        PatchApplies(s.value, req);
        ApplyToCurrent(ViewOf(s.value), req);
      }
    }
  }

  lemma {:induction false} SlimVersion(reqs: seq<Request>)
    ensures SlimServe(reqs).Some? <==> Announced(reqs).Some?
    ensures SlimServe(reqs).Some? ==> SlimServe(reqs).value.version == Announced(reqs).value
  {
    if reqs == [] {
    } else {
      SlimVersion(reqs[..|reqs| - 1]);
    }
  }

  lemma {:induction false} ServeAgrees(reqs: seq<Request>)
    requires Disciplined(reqs)
    ensures Agree(Serve(reqs), SlimServe(reqs))
  {
    if reqs == [] {
    } else {
      var front := reqs[..|reqs| - 1];
      DisciplinedPrefix(reqs);
      ServeAgrees(front);
      SlimVersion(front);
      HandleAgrees(Serve(front), SlimServe(front), Last(reqs));
    }
  }

  /** Stale buckets are never observed: after any disciplined history the store
      that accumulates every bucket answers the next request exactly like the
      store that keeps only the current one. */
  lemma StaleBucketsUnseen(reqs: seq<Request>, req: Request)
    requires Disciplined(reqs) && Keeps(Announced(reqs), req)
    ensures Handle(Serve(reqs), req).response == SlimHandle(SlimServe(reqs), req).response
  {
    ServeAgrees(reqs);
    SlimVersion(reqs);
    HandleAgrees(Serve(reqs), SlimServe(reqs), req);
  }

  // ------------------------------------------------------ exact trace meaning

  predicate Introduces(req: Request, c: string) {
    WellFormed(req) && (req.Add? || req.Revoke?) && req.client == c
  }

  predicate Clears(req: Request, c: string) {
    WellFormed(req) && (req.Create? || req.EndGrace? || (req.Remove? && req.client == c))
  }

  ghost predicate LiveSince(reqs: seq<Request>, c: string, i: int) {
    && 0 <= i < |reqs| && Introduces(reqs[i], c) && Announced(reqs[..i]).Some?
    && forall j | i < j < |reqs| :: !Clears(reqs[j], c)
  }

  /** `c` was added (directly or with a handle) after some create, and nothing
      has cleared it since. */
  ghost predicate Live(reqs: seq<Request>, c: string) {
    exists i :: LiveSince(reqs, c, i)
  }

  function Pushed(req: Request, c: string): seq<string> {
    if req.Revoke? && Introduces(req, c) then [req.handle] else []
  }

  /** The handles pushed for `c`, in order. */
  function HandlesIn(reqs: seq<Request>, c: string): seq<string> {
    if reqs == [] then []
    else HandlesIn(reqs[..|reqs| - 1], c) + Pushed(Last(reqs), c)
  }

  /** The last request that cleared `c`. */
  ghost predicate LastClear(reqs: seq<Request>, c: string, k: nat) {
    k < |reqs| && Clears(reqs[k], c) && forall j | k < j < |reqs| :: !Clears(reqs[j], c)
  }

  lemma LiveSinceFront(front: seq<Request>, last: Request, c: string, i: int)
    requires i < |front|
    ensures LiveSince(front + [last], c, i) <==> LiveSince(front, c, i) && !Clears(last, c)
  {
    var reqs := front + [last];
    if 0 <= i {
      assert front[..i] == reqs[..i] && front[i] == reqs[i];
      assert forall j | i < j < |front| :: front[j] == reqs[j];
      assert reqs[|front|] == last;
    }
  }

  lemma LiveStep(front: seq<Request>, last: Request, c: string)
    ensures Live(front + [last], c) <==>
      (Introduces(last, c) && Announced(front).Some?) || (Live(front, c) && !Clears(last, c))
  {
    var reqs := front + [last];
    assert reqs[..|front|] == front && reqs[|front|] == last;
    assert LiveSince(reqs, c, |front|) <==> Introduces(last, c) && Announced(front).Some?;
    if Live(reqs, c) {
      var i :| LiveSince(reqs, c, i);
      if i < |front| { LiveSinceFront(front, last, c, i); }
    }
    if Live(front, c) {
      var i :| LiveSince(front, c, i);
      LiveSinceFront(front, last, c, i);
    }
  }

  /** The clients in the current bucket are exactly the live ones. */
  lemma {:induction false} SlimClients(reqs: seq<Request>, c: string)
    ensures Live(reqs, c) <==> SlimServe(reqs).Some? && c in SlimServe(reqs).value.clients
  {
    if reqs == [] {
    } else {
      var front := reqs[..|reqs| - 1];
      SlimClients(front, c);
      SlimVersion(front);
      assert reqs == front + [Last(reqs)];
      LiveStep(front, Last(reqs), c);
    }
  }

  function HandlesOf(b: Bucket, c: string): seq<string> {
    if c in b then b[c] else []
  }

  lemma SlimHandleStep(t: Slim, req: Request, c: string)
    requires !Clears(req, c)
    ensures var next := SlimHandle(Some(t), req).store;
      next.Some? && HandlesOf(next.value.clients, c) == HandlesOf(t.clients, c) + Pushed(req, c)
  {
  }

  /** What a request means for the handles of one client. */
  lemma SlimStep(s: Option<Slim>, req: Request, c: string)
    requires SlimHandle(s, req).store.Some?
    ensures var next := HandlesOf(SlimHandle(s, req).store.value.clients, c);
      if Clears(req, c) then next == [] else s.Some? && next == HandlesOf(s.value.clients, c) + Pushed(req, c)
  {
    if !Clears(req, c) && s.Some? { SlimHandleStep(s.value, req, c); }
  }

  lemma LastClearOn(front: seq<Request>, last: Request, c: string, k: nat)
    requires LastClear(front, c, k) && !Clears(last, c)
    ensures LastClear(front + [last], c, k)
  {
  }

  lemma HandlesInStep(front: seq<Request>, last: Request, c: string, k: nat)
    requires k < |front|
    ensures HandlesIn((front + [last])[k + 1..], c) == HandlesIn(front[k + 1..], c) + Pushed(last, c)
  {
    var tail := (front + [last])[k + 1..];
    assert tail[..|tail| - 1] == front[k + 1..] && Last(tail) == last;
  }

  /** Once something was created, each client has a last clearing, and its
      handles are those pushed since. */
  lemma {:induction false} SlimHandles(reqs: seq<Request>, c: string) returns (k: nat)
    requires SlimServe(reqs).Some?
    ensures LastClear(reqs, c, k)
    ensures HandlesOf(SlimServe(reqs).value.clients, c) == HandlesIn(reqs[k + 1..], c)
  {
    var front, last := reqs[..|reqs| - 1], Last(reqs);
    SlimStep(SlimServe(front), last, c);
    if Clears(last, c) {
      k := |front|;
      assert reqs[k + 1..] == [];
    } else {
      k := SlimHandles(front, c);
      assert reqs == front + [last];
      LastClearOn(front, last, c, k);
      HandlesInStep(front, last, c, k);
    }
  }

  /** The exact answer of `read_client_ids`: after any disciplined history that
      contains a create it lists, strictly ascending, precisely the clients
      added since the latest create or end of grace and not removed since. */
  lemma ReadIsExact(reqs: seq<Request>)
    requires Disciplined(reqs) && Announced(reqs).Some?
    ensures var r := Handle(Serve(reqs), Read).response;
      && r.Clients? && StrictlySorted(r.ids)
      && forall c :: c in r.ids <==> Live(reqs, c)
  {
    StaleBucketsUnseen(reqs, Read);
    SlimVersion(reqs);
    var b := SlimServe(reqs).value.clients;
    forall c ensures c in Ascending(b.Keys) <==> Live(reqs, c) {
      SlimClients(reqs, c);
      assert c in Ascending(b.Keys) <==> c in ToSet(Ascending(b.Keys));
    }
  }

  /** The exact handle list stored for a live client: what was pushed, in order,
      since the client was last cleared. */
  lemma HandlesAreExact(reqs: seq<Request>, c: string) returns (k: nat)
    requires Disciplined(reqs) && Live(reqs, c)
    ensures LastClear(reqs, c, k) && Serve(reqs).Some?
    ensures var b := Current(ViewOf(Serve(reqs).value));
      c in b && b[c] == HandlesIn(reqs[k + 1..], c)
  {
    SlimClients(reqs, c);
    ServeAgrees(reqs);
    k := SlimHandles(reqs, c);
  }

  // ------------------------------------------------------ what does not hold

  /** The document holds these two texts. */
  ghost predicate HoldsText(cm: Cm, key: string, t: Entry) {
    Member(Member(cm, "data"), key) == Leaf(t)
  }

  ghost predicate HoldsVersion(cm: Cm, version: string) {
    Member(Member(Member(cm, "metadata"), "annotations"), "version") == Leaf(Plain(version))
  }

  /** What any document answers, read off the document itself: the clients of the
      bucket under the annotated version, under "" if no version is annotated.
      A bucket that is missing or does not parse has none. */
  lemma ReadsTheDocument(cm: Cm, version: string, c: string)
    requires if version == "" then forall v | v != "" :: !HoldsVersion(cm, v) else HoldsVersion(cm, version)
    ensures var r := Handle(Some(cm), Read).response;
      r.Clients? && (c in r.ids <==> exists b: Bucket :: HoldsText(cm, version, Encoded(b)) && c in b)
  {
    var b, v := Current(ViewOf(cm)), Version(ViewOf(cm));
    assert v != "" ==> HoldsVersion(cm, v);
    assert HoldsVersion(cm, version) ==> v == version;
    assert c in Ascending(b.Keys) <==> c in ToSet(Ascending(b.Keys));
    assert c in b ==> HoldsText(cm, version, Encoded(b));
  }

  /** What `create` leaves in the document: its version, annotated, with an empty
      bucket of its own, and every other bucket as it was. */
  lemma CreatedDocument(s: Option<Cm>, version: string, host: string, other: string)
    ensures var after := Handle(s, Create(Some(Input(Some(host), version)))).store;
      && after.Some? && HoldsVersion(after.value, version) && HoldsText(after.value, version, Encoded(map[]))
      && (s.Some? && other != version ==>
            Member(Member(after.value, "data"), other) == Member(Member(s.value, "data"), other))
  {
    if s.Some? {
      var p := PatchFor(s.value, Create(Some(Input(Some(host), version))));
      MergeMember(s.value, p, "data");
      MergeMember(s.value, p, "metadata");
      MergeMember(Member(s.value, "data"), p.fields["data"], version);
      MergeMember(Member(s.value, "data"), p.fields["data"], other);
      var m := Member(s.value, "metadata");
      MergeMember(m, p.fields["metadata"], "annotations");
      MergeMember(Member(m, "annotations"), p.fields["metadata"].fields["annotations"], "version");
    }
  }

  /** A restarted server that initialises and then reads gets nothing back,
      whatever was stored before: `create` moves the version at once. */
  lemma RestartReadsNothing(s: Option<Cm>, version: string, host: string)
    ensures Handle(Handle(s, Create(Some(Input(Some(host), version)))).store, Read).response == Clients([])
  {
    var req := Create(Some(Input(Some(host), version)));
    if s.None? {
      CreatedView(req);
      EmptyRead(PatchFor(Null, req));
    } else {
      PatchApplies(s.value, req);
      CreateClears(ViewOf(s.value), req);
      EmptyRead(Merge(s.value, PatchFor(s.value, req)));
    }
  }

  lemma CreateClears(v: View, req: Request)
    requires Creates(req)
    ensures Current(Apply(v, req)) == map[]
  {
  }

  lemma EmptyRead(cm: Cm)
    requires Current(ViewOf(cm)) == map[]
    ensures Handle(Some(cm), Read).response == Clients([])
  {
  }

  /** Ending grace empties a bucket exactly when it is sent the current version,
      and then that one; no bucket ever leaves the store. */
  lemma EndGraceForgets(cm: Cm, version: string)
    ensures var v := ViewOf(cm);
      var after := Handle(Some(cm), EndGrace(Some(Input(None, version)))).store;
      && after.Some? && Version(ViewOf(after.value)) == version
      && Current(ViewOf(after.value)) == (if version == Version(v) then map[] else BucketIn(v.data, version))
      && v.data.Keys <= ViewOf(after.value).data.Keys
      && forall k | k in v.data && (k != version || version != Version(v)) :: ViewOf(after.value).data[k] == v.data[k]
  {
    PatchApplies(cm, EndGrace(Some(Input(None, version))));
    GraceOnView(ViewOf(cm), version);
  }

  lemma GraceOnView(v: View, version: string)
    ensures var after := Apply(v, EndGrace(Some(Input(None, version))));
      && Version(after) == version && v.data.Keys <= after.data.Keys
      && Current(after) == (if version == Version(v) then map[] else BucketIn(v.data, version))
      && forall k | k in v.data && (k != version || version != Version(v)) :: after.data[k] == v.data[k]
  {
  }

  /** Repeating an add, a remove or a create changes nothing more in the whole document. */
  lemma RepeatIsIdempotent(cm: Cm, req: Request)
    requires WellFormed(req) && (req.Add? || req.Remove? || req.Create?)
    ensures var once := Handle(Some(cm), req).store;
      once.Some? && Handle(once, req).store == once
  {
    var once := Merge(cm, PatchFor(cm, req));
    if req.Create? {
      MergeIdempotent(cm, PatchFor(cm, req));
    } else {
      PatchApplies(cm, req);
      ApplyTwice(ViewOf(cm), req);
      assert Apply(ViewOf(once), req).data == Data(once);
      assert PatchFor(once, req) == DataPatch(Data(once));
      SameDataPatch(once);
    }
  }

  lemma ApplyTwice(v: View, req: Request)
    requires WellFormed(req) && (req.Add? || req.Remove? || req.Create?)
    ensures Apply(Apply(v, req), req) == Apply(v, req)
  {
    match req
    case Create(body) =>
      assert v.notes["version" := Plain(body.value.version)]["version" := Plain(body.value.version)]
        == v.notes["version" := Plain(body.value.version)];
      assert v.data[body.value.version := Empty][body.value.version := Empty] == v.data[body.value.version := Empty];
    case Add(c, body) => SetBucketTwice(v, body.value.version, Touch(BucketIn(v.data, body.value.version), c));
    case Remove(c) =>
      var b := BucketIn(v.data, Version(v)) - {c};
      assert b - {c} == b;
      SetBucketTwice(v, Version(v), b);
  }

  lemma SetBucketTwice(v: View, version: string, b: Bucket)
    ensures SetBucket(SetBucket(v, version, b), version, b) == SetBucket(v, version, b)
    ensures BucketIn(SetBucket(v, version, b).data, version) == b
  {
    assert v.data[version := Encoded(b)][version := Encoded(b)] == v.data[version := Encoded(b)];
  }
}
