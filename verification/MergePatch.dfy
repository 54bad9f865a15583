/** JSON Merge Patch, section 2 of RFC 7396: how every writer of this system
    updates a ConfigMap. Leaves are opaque values; a ConfigMap value is a
    string, so a whole stored bucket or record is one leaf. */
module MergePatch {
  /** A ConfigMap value: the encoding of a value, or other text. */
  datatype Text<T> = Plain(text: string) | Encoded(value: T)

  datatype Json<T> = Null | Leaf(value: T) | Object(fields: map<string, Json<T>>)

  function Fields<T>(j: Json<T>): map<string, Json<T>> {
    if j.Object? then j.fields else map[]
  }

  /** A missing member reads as null. */
  function Member<T>(j: Json<T>, key: string): Json<T> {
    if key in Fields(j) then Fields(j)[key] else Null
  }

  function Merge<T>(target: Json<T>, patch: Json<T>): Json<T>
    decreases patch
  {
    if !patch.Object? then patch
    else
      var t, p := Fields(target), patch.fields;
      Object(map k | k in t.Keys + p.Keys && !(k in p && p[k].Null?)
                 :: if k in p then Merge(Member(target, k), p[k]) else t[k])
  }

  /** No null anywhere: the patch only adds and replaces. */
  predicate NullFree<T>(j: Json<T>) {
    match j
    case Null => false
    case Leaf(_) => true
    case Object(fields) => forall k | k in fields :: NullFree(fields[k])
  }

  /** What a merge leaves at one key. */
  lemma MergeMember<T>(target: Json<T>, patch: Json<T>, key: string)
    requires patch.Object?
    ensures key !in patch.fields ==> Member(Merge(target, patch), key) == Member(target, key)
    ensures key in patch.fields && !patch.fields[key].Null? ==>
      Member(Merge(target, patch), key) == Merge(Member(target, key), patch.fields[key])
    ensures key in patch.fields && patch.fields[key].Null? ==> key !in Fields(Merge(target, patch))
  {
  }

  /** Every key of `small`, at any depth, is a key of `big`. */
  predicate Keeps<T>(small: Json<T>, big: Json<T>)
    decreases small
  {
    small.Object? ==>
      big.Object? && forall k | k in small.fields :: k in big.fields && Keeps(small.fields[k], big.fields[k])
  }

  /** The patch puts neither a null nor a string in the place of anything that has keys to lose. */
  predicate Gentle<T>(target: Json<T>, patch: Json<T>)
    decreases patch
  {
    target.Object? ==>
      && patch.Object?
      && forall k | k in patch.fields && k in target.fields ::
           !patch.fields[k].Null? && Gentle(target.fields[k], patch.fields[k])
  }

  lemma {:induction false} KeepsItself<T>(j: Json<T>)
    ensures Keeps(j, j)
  {
    if !j.Object? {
    } else {
      forall k | k in j.fields ensures Keeps(j.fields[k], j.fields[k]) { KeepsItself(j.fields[k]); }
    }
  }

  /** A merge loses no key if and only if the patch is gentle. */
  lemma {:induction false} KeepsExactlyWhen<T>(target: Json<T>, patch: Json<T>)
    ensures Keeps(target, Merge(target, patch)) <==> Gentle(target, patch)
    decreases patch
  {
    if !patch.Object? || !target.Object? {
    } else {
      var r := Merge(target, patch);
      forall k | k in target.fields
        ensures (k in r.fields && Keeps(target.fields[k], r.fields[k])) <==>
          (k in patch.fields ==> !patch.fields[k].Null? && Gentle(target.fields[k], patch.fields[k]))
      {
        if k in patch.fields {
          KeepsExactlyWhen(target.fields[k], patch.fields[k]);
        } else {
          KeepsItself(target.fields[k]);
        }
      }
    }
  }

  /** The patch puts no string in the place of an object. */
  predicate NoLeafOverObject<T>(target: Json<T>, patch: Json<T>)
    decreases patch
  {
    target.Object? ==>
      && patch.Object?
      && forall k | k in patch.fields && k in target.fields :: NoLeafOverObject(target.fields[k], patch.fields[k])
  }

  lemma {:induction false} NullFreeIsGentle<T>(target: Json<T>, patch: Json<T>)
    requires NullFree(patch)
    ensures Gentle(target, patch) <==> NoLeafOverObject(target, patch)
    decreases patch
  {
    if !patch.Object? || !target.Object? {
    } else {
      forall k | k in patch.fields && k in target.fields
        ensures !patch.fields[k].Null?
        ensures Gentle(target.fields[k], patch.fields[k]) <==> NoLeafOverObject(target.fields[k], patch.fields[k])
      {
        NullFreeIsGentle(target.fields[k], patch.fields[k]);
      }
    }
  }

  /** A patch without nulls loses no key, at any depth, if and only if it puts no
      string in the place of an object. */
  lemma NullFreeKeepsKeys<T>(target: Json<T>, patch: Json<T>)
    requires NullFree(patch)
    ensures Keeps(target, Merge(target, patch)) <==> NoLeafOverObject(target, patch)
  {
    KeepsExactlyWhen(target, patch);
    NullFreeIsGentle(target, patch);
  }

  /** Without that condition it is false: `{"a": {"b": x}}` patched with `{"a": x}` loses "b". */
  lemma LeafOverObjectLosesKeys<T>(x: T)
    ensures var target := Object(map["a" := Object(map["b" := Leaf(x)])]);
      var patch := Object(map["a" := Leaf(x)]);
      NullFree(patch) && Merge(target, patch) == patch && !Keeps(target, Merge(target, patch))
  {
    var target := Object(map["a" := Object(map["b" := Leaf(x)])]);
    var patch := Object(map["a" := Leaf(x)]);
    assert Merge(target, patch).fields == patch.fields;
    assert "a" in target.fields;
  }

  /** Applying a patch twice is applying it once, nulls or not. */
  lemma {:induction false} MergeIdempotent<T>(target: Json<T>, patch: Json<T>)
    ensures Merge(Merge(target, patch), patch) == Merge(target, patch)
    decreases patch
  {
    if !patch.Object? {
    } else {
      var once := Merge(target, patch);
      var twice := Merge(once, patch);
      assert twice.fields.Keys == once.fields.Keys;
      forall k | k in once.fields ensures twice.fields[k] == once.fields[k] {
        if k in patch.fields { MergeIdempotent(Member(target, k), patch.fields[k]); }
      }
    }
  }
}
