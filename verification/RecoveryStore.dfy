/** The recovery backend's handlers (src/recovery.rs) on one host's ConfigMap. */
module RecoveryStore {
  import opened Base
  import opened MergePatch
  import opened KeyOrder

  // ------------------------------------------------------ the stored document

  /** One incarnation's clients, each with its revoked file handles. */
  type Bucket = map<string, seq<string>>

  /** A value of the ConfigMap: an encoded bucket, or other text. */
  type Entry = Text<Bucket>

  type Cm = Json<Entry>

  const Empty := Encoded(map[])

  /** Entry that does not parse reads as an empty bucket. */
  function Parse(t: Entry): Bucket {
    if t.Encoded? then t.value else map[]
  }

  function Texts(j: Cm): map<string, Entry> {
    map k | k in Fields(j) && Fields(j)[k].Leaf? :: Fields(j)[k].value
  }

  function Data(cm: Cm): map<string, Entry> {
    Texts(Member(cm, "data"))
  }

  function Annotations(cm: Cm): map<string, Entry> {
    Texts(Member(Member(cm, "metadata"), "annotations"))
  }

  function VersionIn(notes: map<string, Entry>): string {
    if "version" in notes && notes["version"].Plain? then notes["version"].text else ""
  }

  function BucketIn(data: map<string, Entry>, version: string): Bucket {
    if version in data then Parse(data[version]) else map[]
  }

  // ------------------------------------------------------------- the requests

  datatype Input = Input(hostname: Option<string>, version: string)

  /** `body` is absent when the request body does not parse. */
  datatype Request =
    | Create(body: Option<Input>)
    | EndGrace(body: Option<Input>)
    | Add(client: string, body: Option<Input>)
    | Remove(client: string)
    | Revoke(client: string, handle: string, body: Option<Input>)
    | Read

  datatype Response = Done | Clients(ids: seq<string>) | BadRequest | NotFound

  predicate WellFormed(req: Request) {
    match req
    case Remove(_) => true
    case Read => true
    case Create(body) => body.Some? && body.value.hostname.Some?
    case _ => req.body.Some?
  }

  // -------------------------------------------------------------- the patches

  function Dump(m: map<string, Entry>): Cm {
    Object(map k | k in m :: Leaf(m[k]))
  }

  function Document(notes: map<string, Entry>, data: map<string, Entry>): Cm {
    Object(map["metadata" := Object(map["annotations" := Dump(notes)]), "data" := Dump(data)])
  }

  function DataPatch(data: map<string, Entry>): Cm {
    Object(map["data" := Dump(data)])
  }

  function Touch(b: Bucket, client: string): Bucket {
    if client in b then b else b[client := []]
  }

  function Push(b: Bucket, client: string, handle: string): Bucket {
    b[client := (if client in b then b[client] else []) + [handle]]
  }

  /** The body `end_grace` patches in: the old version is dropped from the local copy only. */
  function AfterGrace(data: map<string, Entry>, stale: string, version: string): map<string, Entry> {
    var kept := data - {stale};
    if version in kept then kept else kept[version := Empty]
  }

  /** The merge patch a handler sends after reading `cm`. */
  function PatchFor(cm: Cm, req: Request): Cm
    requires WellFormed(req) && !req.Read?
  {
    var notes, data := Annotations(cm), Data(cm);
    match req
    case Create(body) => Document(map["version" := Plain(body.value.version)], map[body.value.version := Empty])
    case EndGrace(body) =>
      var v := body.value.version;
      Document(notes["version" := Plain(v)], AfterGrace(data, VersionIn(notes), v))
    case Add(c, body) =>
      var v := body.value.version;
      DataPatch(data[v := Encoded(Touch(BucketIn(data, v), c))])
    case Remove(c) =>
      var v := VersionIn(notes);
      DataPatch(data[v := Encoded(BucketIn(data, v) - {c})])
    case Revoke(c, h, body) =>
      var v := body.value.version;
      DataPatch(data[v := Encoded(Push(BucketIn(data, v), c, h))])
  }

  // ------------------------------------------- what the merge does to the view

  /** Everything the handlers read of a ConfigMap. */
  datatype View = View(notes: map<string, Entry>, data: map<string, Entry>)

  function ViewOf(cm: Cm): View {
    View(Annotations(cm), Data(cm))
  }

  function Version(v: View): string {
    VersionIn(v.notes)
  }

  lemma MergeTexts(target: Cm, m: map<string, Entry>)
    ensures Texts(Merge(target, Dump(m))) == Texts(target) + m
  {
    var r, p := Merge(target, Dump(m)), Dump(m);
    forall k
      ensures k in Texts(r) <==> k in Texts(target) || k in m
      ensures k in m ==> k in r.fields && r.fields[k] == Leaf(m[k])
      ensures k !in m && k in Fields(target) ==> k in r.fields && r.fields[k] == Fields(target)[k]
    {
      if k in m { assert k in p.fields && p.fields[k] == Leaf(m[k]); }
    }
  }

  lemma MergeDataPatch(cm: Cm, d: map<string, Entry>)
    ensures ViewOf(Merge(cm, DataPatch(d))) == View(Annotations(cm), Data(cm) + d)
  {
    MergeMember(cm, DataPatch(d), "metadata");
    MergeMember(cm, DataPatch(d), "data");
    MergeTexts(Member(cm, "data"), d);
  }

  lemma MergeDocument(cm: Cm, n: map<string, Entry>, d: map<string, Entry>)
    ensures ViewOf(Merge(cm, Document(n, d))) == View(Annotations(cm) + n, Data(cm) + d)
  {
    var p := Document(n, d);
    MergeMember(cm, p, "metadata");
    MergeMember(cm, p, "data");
    MergeMember(Member(cm, "metadata"), p.fields["metadata"], "annotations");
    MergeTexts(Member(Member(cm, "metadata"), "annotations"), n);
    MergeTexts(Member(cm, "data"), d);
  }

  /** The effect of a request on the view. No bucket ever disappears, and no
      bucket other than the request's (or the annotated) version changes. */
  function Apply(v: View, req: Request): View
    requires WellFormed(req)
  {
    match req
    case Read => v
    case Create(body) =>
      View(v.notes["version" := Plain(body.value.version)], v.data[body.value.version := Empty])
    case EndGrace(body) =>
      var ver := body.value.version;
      View(v.notes["version" := Plain(ver)],
           v.data[ver := if ver in v.data && ver != Version(v) then v.data[ver] else Empty])
    case Add(c, body) => SetBucket(v, body.value.version, Touch(BucketIn(v.data, body.value.version), c))
    case Remove(c) => SetBucket(v, Version(v), BucketIn(v.data, Version(v)) - {c})
    case Revoke(c, h, body) => SetBucket(v, body.value.version, Push(BucketIn(v.data, body.value.version), c, h))
  }

  function SetBucket(v: View, version: string, b: Bucket): View {
    v.(data := v.data[version := Encoded(b)])
  }

  lemma Overlay(m: map<string, Entry>, k: string, t: Entry)
    ensures m + map[k := t] == m[k := t]
    ensures m + m[k := t] == m[k := t]
  {
  }

  /** Merging `end_grace`'s data brings back what it dropped locally. */
  lemma OverlayGrace(data: map<string, Entry>, stale: string, v: string)
    ensures data + AfterGrace(data, stale, v) == data[v := if v in data && v != stale then data[v] else Empty]
  {
  }

  lemma CreateApplies(cm: Cm, v: string)
    ensures ViewOf(Merge(cm, Document(map["version" := Plain(v)], map[v := Empty])))
      == View(Annotations(cm)["version" := Plain(v)], Data(cm)[v := Empty])
  {
    MergeDocument(cm, map["version" := Plain(v)], map[v := Empty]);
    Overlay(Annotations(cm), "version", Plain(v));
    Overlay(Data(cm), v, Empty);
  }

  lemma EndGraceApplies(cm: Cm, v: string)
    ensures var notes := Annotations(cm);
      var data := AfterGrace(Data(cm), VersionIn(notes), v);
      var req := EndGrace(Some(Input(None, v)));
      ViewOf(Merge(cm, Document(notes["version" := Plain(v)], data))) == Apply(ViewOf(cm), req)
  {
    var notes, data := Annotations(cm), Data(cm);
    var stale := VersionIn(notes);
    MergeDocument(cm, notes["version" := Plain(v)], AfterGrace(data, stale, v));
    Overlay(notes, "version", Plain(v));
    OverlayGrace(data, stale, v);
  }

  /** Merging a handler's patch into the document it was computed from has exactly that effect. */
  lemma PatchApplies(cm: Cm, req: Request)
    requires WellFormed(req) && !req.Read?
    ensures ViewOf(Merge(cm, PatchFor(cm, req))) == Apply(ViewOf(cm), req)
  {
    var data := Data(cm);
    match req
    case Create(body) => CreateApplies(cm, body.value.version);
    case EndGrace(body) => EndGraceApplies(cm, body.value.version);
    case Add(c, body) => DataPatchApplies(cm, body.value.version, Touch(BucketIn(data, body.value.version), c));
    case Remove(c) =>
      var v := VersionIn(Annotations(cm));
      DataPatchApplies(cm, v, BucketIn(data, v) - {c});
    case Revoke(c, h, body) => DataPatchApplies(cm, body.value.version, Push(BucketIn(data, body.value.version), c, h));
  }

  /** A patch of texts changes the texts it names and nothing else. */
  lemma MergeDumpFrame(target: Cm, m: map<string, Entry>, key: string)
    ensures key !in m ==> Member(Merge(target, Dump(m)), key) == Member(target, key)
  {
    MergeMember(target, Dump(m), key);
  }

  lemma DataPatchFrame(cm: Cm, d: map<string, Entry>, key: string)
    ensures var r := Merge(cm, DataPatch(d));
      && (key != "data" ==> Member(r, key) == Member(cm, key))
      && (key !in d ==> Member(Member(r, "data"), key) == Member(Member(cm, "data"), key))
  {
    MergeMember(cm, DataPatch(d), key);
    MergeMember(cm, DataPatch(d), "data");
    MergeDumpFrame(Member(cm, "data"), d, key);
  }

  lemma DocumentFrame(cm: Cm, n: map<string, Entry>, d: map<string, Entry>, key: string)
    ensures var r := Merge(cm, Document(n, d));
      && (key != "metadata" && key != "data" ==> Member(r, key) == Member(cm, key))
      && (key != "annotations" ==> Member(Member(r, "metadata"), key) == Member(Member(cm, "metadata"), key))
      && (key !in d ==> Member(Member(r, "data"), key) == Member(Member(cm, "data"), key))
  {
    var p := Document(n, d);
    MergeMember(cm, p, key);
    MergeMember(cm, p, "metadata");
    MergeMember(cm, p, "data");
    MergeMember(Member(cm, "metadata"), p.fields["metadata"], key);
    MergeDumpFrame(Member(cm, "data"), d, key);
  }

  /** Beyond annotations and data, a handler's patch changes nothing: labels, the
      rest of the metadata, other members, and data that is no text of the view. */
  lemma PatchFrame(cm: Cm, req: Request, key: string)
    requires WellFormed(req) && !req.Read?
    ensures var r := Merge(cm, PatchFor(cm, req));
      && (key != "metadata" && key != "data" ==> Member(r, key) == Member(cm, key))
      && (key != "annotations" ==> Member(Member(r, "metadata"), key) == Member(Member(cm, "metadata"), key))
      && (key !in Apply(ViewOf(cm), req).data ==> Member(Member(r, "data"), key) == Member(Member(cm, "data"), key))
  {
    PatchApplies(cm, req);
    var p := PatchFor(cm, req);
    var d := Texts(p.fields["data"]);
    match req
    case Create(body) =>
      DocumentFrame(cm, map["version" := Plain(body.value.version)], map[body.value.version := Empty], key);
    case EndGrace(body) =>
      var v, notes := body.value.version, Annotations(cm);
      DocumentFrame(cm, notes["version" := Plain(v)], AfterGrace(Data(cm), VersionIn(notes), v), key);
    case Add(c, body) =>
      var v := body.value.version;
      TwoFrames(cm, Data(cm)[v := Encoded(Touch(BucketIn(Data(cm), v), c))], key);
    case Remove(c) =>
      var v := VersionIn(Annotations(cm));
      TwoFrames(cm, Data(cm)[v := Encoded(BucketIn(Data(cm), v) - {c})], key);
    case Revoke(c, h, body) =>
      var v := body.value.version;
      TwoFrames(cm, Data(cm)[v := Encoded(Push(BucketIn(Data(cm), v), c, h))], key);
  }

  lemma TwoFrames(cm: Cm, d: map<string, Entry>, key: string)
    ensures var r := Merge(cm, DataPatch(d));
      && (key != "data" ==> Member(r, key) == Member(cm, key)) && Member(r, "metadata") == Member(cm, "metadata")
      && (key !in d ==> Member(Member(r, "data"), key) == Member(Member(cm, "data"), key))
  {
    DataPatchFrame(cm, d, key);
    DataPatchFrame(cm, d, "metadata");
  }

  lemma SameText(j: Cm, k: string)
    requires j.Object? && k in j.fields
    ensures var r := Merge(j, Dump(Texts(j)));
      k in r.fields && r.fields[k] == j.fields[k]
  {
    var p := Dump(Texts(j));
    MergeMember(j, p, k);
    if k in Texts(j) { assert p.fields[k] == j.fields[k]; }
  }

  lemma SameKeys(j: Cm)
    requires j.Object?
    ensures Merge(j, Dump(Texts(j))).Object? && Merge(j, Dump(Texts(j))).fields.Keys == j.fields.Keys
  {
  }

  lemma SameFields(a: Cm, b: Cm)
    requires a.Object? && b.Object? && a.fields.Keys == b.fields.Keys
    requires forall k | k in b.fields :: a.fields[k] == b.fields[k]
    ensures a == b
  {
    assert a.fields == b.fields;
  }

  lemma SameTexts(j: Cm)
    requires j.Object?
    ensures Merge(j, Dump(Texts(j))) == j
  {
    var r := Merge(j, Dump(Texts(j)));
    SameKeys(j);
    forall k | k in j.fields ensures k in r.fields && r.fields[k] == j.fields[k] { SameText(j, k); }
    SameFields(r, j);
  }

  lemma SameMember(j: Cm, key: string, patch: Cm)
    requires j.Object? && key in j.fields && !patch.Null? && Merge(j.fields[key], patch) == j.fields[key]
    ensures Merge(j, Object(map[key := patch])) == j
  {
    var r := Merge(j, Object(map[key := patch]));
    assert r.fields.Keys == j.fields.Keys;
    forall k | k in j.fields ensures r.fields[k] == j.fields[k] {
      if k == key { assert Member(j, k) == j.fields[k]; }
    }
    assert r.fields == j.fields;
  }

  /** Patching in the data that is there already changes nothing at all. */
  lemma SameDataPatch(cm: Cm)
    requires cm.Object? && "data" in cm.fields && cm.fields["data"].Object?
    ensures Merge(cm, DataPatch(Data(cm))) == cm
  {
    SameTexts(cm.fields["data"]);
    SameMember(cm, "data", Dump(Data(cm)));
  }

  lemma DataPatchApplies(cm: Cm, version: string, b: Bucket)
    ensures ViewOf(Merge(cm, DataPatch(Data(cm)[version := Encoded(b)]))) == SetBucket(ViewOf(cm), version, b)
  {
    var d := Data(cm)[version := Encoded(b)];
    MergeDataPatch(cm, d);
    Overlay(Data(cm), version, Encoded(b));
  }

  lemma DumpTexts(m: map<string, Entry>)
    ensures Texts(Dump(m)) == m
  {
    assert Texts(Dump(m)).Keys == m.Keys;
  }

  /** A document created from scratch shows what was put in. */
  lemma DocumentView(n: map<string, Entry>, d: map<string, Entry>)
    ensures ViewOf(Document(n, d)) == View(n, d)
  {
    DumpTexts(n);
    DumpTexts(d);
  }
}
