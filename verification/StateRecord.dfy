/** How the controller's record is kept in a ConfigMap (`load_or_create_state`,
    `state_cm` and `save_state` in src/controller.rs). */
module StateRecord {
  import opened MergePatch
  import opened FailoverModel

  type Doc = Json<Text<ShareState>>

  /** The ConfigMap that is created at first, and patched in afterwards. */
  function StateDoc(name: string, ns: string, st: ShareState): Doc {
    Object(map["metadata" := Object(map["name" := Leaf(Plain(name)), "namespace" := Leaf(Plain(ns))]),
               "data" := Object(map["state.json" := Leaf(Encoded(st))])])
  }

  /** The record read back; text that does not parse is as good as none. */
  function Load(doc: Doc): StateCm {
    var j := Member(Member(doc, "data"), "state.json");
    if j.Leaf? && j.value.Encoded? then Holds(j.value.value) else Garbled
  }

  function Save(doc: Doc, name: string, ns: string, st: ShareState): Doc {
    Merge(doc, StateDoc(name, ns, st))
  }

  /** Saving and loading returns the record, whatever the document held before. */
  lemma SaveLoad(doc: Doc, name: string, ns: string, st: ShareState)
    ensures Load(Save(doc, name, ns, st)) == Holds(st)
    ensures Load(StateDoc(name, ns, st)) == Holds(st)
  {
    var p := StateDoc(name, ns, st);
    MergeMember(doc, p, "data");
    MergeMember(Member(doc, "data"), p.fields["data"], "state.json");
  }

  /** A document holds a record exactly when the text under "state.json" decodes;
      loading any other is as good as a new record, but never a missing one. */
  lemma LoadMeans(doc: Doc, st: ShareState)
    ensures Load(doc) == Holds(st) <==> Member(Member(doc, "data"), "state.json") == Leaf(Encoded(st))
    ensures Load(doc) == Garbled || exists s :: Load(doc) == Holds(s)
  {
  }

  /** Saving touches nothing but the record and the object's own name: other
      data keys, labels, annotations and further metadata stay, and a repeated
      save changes nothing. */
  lemma SaveFrame(doc: Doc, name: string, ns: string, st: ShareState, key: string)
    ensures var r := Save(doc, name, ns, st);
      && (key != "state.json" ==> Member(Member(r, "data"), key) == Member(Member(doc, "data"), key))
      && (key !in ["name", "namespace"] ==> Member(Member(r, "metadata"), key) == Member(Member(doc, "metadata"), key))
      && (key !in ["metadata", "data"] ==> Member(r, key) == Member(doc, key))
      && Member(Member(r, "metadata"), "name") == Leaf(Plain(name))
      && Member(Member(r, "metadata"), "namespace") == Leaf(Plain(ns))
      && Save(r, name, ns, st) == r
  {
    var p := StateDoc(name, ns, st);
    MergeMember(doc, p, "data");
    MergeMember(doc, p, "metadata");
    MergeMember(doc, p, key);
    MergeMember(Member(doc, "data"), p.fields["data"], key);
    MergeMember(Member(doc, "metadata"), p.fields["metadata"], key);
    MergeMember(Member(doc, "metadata"), p.fields["metadata"], "name");
    MergeMember(Member(doc, "metadata"), p.fields["metadata"], "namespace");
    MergeIdempotent(doc, p);
  }

  /** The three values that are strings in every ConfigMap. */
  predicate StringsInPlace(doc: Doc) {
    && !Member(Member(doc, "data"), "state.json").Object?
    && !Member(Member(doc, "metadata"), "name").Object?
    && !Member(Member(doc, "metadata"), "namespace").Object?
  }

  /** No key disappears, at any depth, if and only if the record and the name
      were strings before. */
  lemma SaveKeepsKeys(doc: Doc, name: string, ns: string, st: ShareState)
    ensures Keeps(doc, Save(doc, name, ns, st)) <==> StringsInPlace(doc)
  {
    var p := StateDoc(name, ns, st);
    KeepsExactlyWhen(doc, p);
    GentleTwo(doc, "metadata", p.fields["metadata"], "data", p.fields["data"]);
    GentleName(Member(doc, "metadata"), Plain(name), Plain(ns));
    GentleRecord(Member(doc, "data"), Encoded(st));
  }

  lemma GentleName(target: Doc, name: Text<ShareState>, ns: Text<ShareState>)
    ensures Gentle(target, Object(map["name" := Leaf(name), "namespace" := Leaf(ns)])) <==>
      !Member(target, "name").Object? && !Member(target, "namespace").Object?
  {
    var patch := Object(map["name" := Leaf(name), "namespace" := Leaf(ns)]);
    GentleOver(target, patch);
    assert "name" in patch.fields && "namespace" in patch.fields;
  }

  lemma GentleRecord(target: Doc, text: Text<ShareState>)
    ensures Gentle(target, Object(map["state.json" := Leaf(text)])) <==> !Member(target, "state.json").Object?
  {
    var patch := Object(map["state.json" := Leaf(text)]);
    GentleOver(target, patch);
    assert "state.json" in patch.fields;
  }

  lemma GentleTwo(target: Doc, x: string, p: Doc, y: string, q: Doc)
    requires x != y && p.Object? && q.Object?
    ensures Gentle(target, Object(map[x := p, y := q])) <==>
      Gentle(Member(target, x), p) && Gentle(Member(target, y), q)
  {
    var patch := Object(map[x := p, y := q]);
    assert x in patch.fields && y in patch.fields;
  }

  /** A patch of strings is gentle where it meets strings. */
  lemma GentleOver(target: Doc, patch: Doc)
    requires patch.Object? && forall k | k in patch.fields :: patch.fields[k].Leaf?
    ensures Gentle(target, patch) <==> forall k | k in patch.fields :: !Member(target, k).Object?
  {
  }
}
