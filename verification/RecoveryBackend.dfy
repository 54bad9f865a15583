/** The recovery handlers (src/recovery.rs) as they are written: each reads the
    ConfigMap, changes local maps in place and merges them back. */
module RecoveryBackend {
  import opened Base
  import opened MergePatch
  import opened KeyOrder
  import opened RecoveryStore
  import opened RecoveryTrace
  import opened RecoveryConcurrency

  /** Store and answer after `req` are those of the atomic handler, and what a
      reader sees changed only as `Apply` says, on that host only. */
  ghost predicate Served(before: Store, after: Store, host: string, req: Request, r: Response) {
    var h := Handle(Get(before, host), req);
    && r == h.response && after == Put(before, host, h.store)
    && (r == Done && CmName(host) in before && !req.Read? && WellFormed(req) ==>
          CmName(host) in after && ViewOf(after[CmName(host)]) == Apply(ViewOf(before[CmName(host)]), req))
    && (forall other | other != host :: Get(after, other) == Get(before, other))
  }

  lemma ServedWhen(before: Store, after: Store, host: string, req: Request, r: Response)
    requires var h := Handle(Get(before, host), req); r == h.response && after == Put(before, host, h.store)
    ensures Served(before, after, host, req, r)
  {
    forall other | other != host ensures Get(after, other) == Get(before, other) { CmNameInjective(other, host); }
    if CmName(host) in before && !req.Read? && WellFormed(req) { PatchApplies(before[CmName(host)], req); }
  }

  /** `parse_input`: cut the string terminators off the body, then decode it.
      `decode` stands for the JSON decoder. */
  method ParseInput(body: seq<bv8>, decode: seq<bv8> -> Option<Input>) returns (r: Option<Input>)
    ensures exists n ::
      && 0 <= n <= |body| && (forall i | n <= i < |body| :: body[i] == 0)
      && (n > 0 ==> body[n - 1] != 0) && r == decode(body[..n])
  {
    var data := body;
    while data != [] && Last(data) == 0
      invariant |data| <= |body| && data == body[..|data|]
      invariant forall i | |data| <= i < |body| :: body[i] == 0
    {
      data := data[..|data| - 1];
    }
    r := decode(data);
  }

  class Backend {
    var cms: Store

    constructor ()
      ensures cms == map[]
    {
      cms := map[];
    }

    method Patch(name: string, patch: Cm)
      requires name in cms
      modifies this
      ensures cms == old(cms)[name := Merge(old(cms)[name], patch)]
    {
      cms := cms[name := Merge(cms[name], patch)];
    }

    method Create(body: Option<Input>) returns (r: Response)
      modifies this
      ensures WellFormed(RecoveryStore.Create(body)) ==>
        Served(old(cms), cms, body.value.hostname.value, RecoveryStore.Create(body), r)
      ensures !WellFormed(RecoveryStore.Create(body)) ==> r == BadRequest && cms == old(cms)
    {
      if body.None? || body.value.hostname.None? { return BadRequest; }
      var host, version := body.value.hostname.value, body.value.version;
      var name := CmName(host);
      var cm := Document(map["version" := Plain(version)], map[version := Empty]);
      if name !in cms {
        cms := cms[name := cm];
      } else {
        Patch(name, cm);
      }
      r := Done;
      ServedWhen(old(cms), cms, host, RecoveryStore.Create(body), r);
    }

    method EndGrace(host: string, body: Option<Input>) returns (r: Response)
      modifies this
      ensures Served(old(cms), cms, host, RecoveryStore.EndGrace(body), r)
    {
      ghost var req := RecoveryStore.EndGrace(body);
      var name := CmName(host);
      if body.None? {
        r := BadRequest;
      } else if name !in cms {
        r := NotFound;
      } else {
        var cm := cms[name];
        var oldVersion := VersionIn(Annotations(cm));
        var annotations := Annotations(cm);
        annotations := annotations["version" := Plain(body.value.version)];
        var data := Data(cm);
        data := data - {oldVersion};
        if body.value.version !in data { data := data[body.value.version := Empty]; }
        Patch(name, Document(annotations, data));
        r := Done;
      }
      PutSame(old(cms), host);
      ServedWhen(old(cms), cms, host, req, r);
    }

    method AddClientId(host: string, client: string, body: Option<Input>) returns (r: Response)
      modifies this
      ensures Served(old(cms), cms, host, Add(client, body), r)
    {
      var name := CmName(host);
      if body.None? {
        r := BadRequest;
      } else if name !in cms {
        r := NotFound;
      } else {
        var cm, version := cms[name], body.value.version;
        var data := BucketIn(Data(cm), version);
        if client !in data { data := data[client := []]; }
        var cmData := Data(cm);
        cmData := cmData[version := Encoded(data)];
        Patch(name, DataPatch(cmData));
        r := Done;
      }
      PutSame(old(cms), host);
      ServedWhen(old(cms), cms, host, Add(client, body), r);
    }

    method RemoveClientId(host: string, client: string) returns (r: Response)
      modifies this
      ensures Served(old(cms), cms, host, Remove(client), r)
    {
      var name := CmName(host);
      if name !in cms {
        r := NotFound;
      } else {
        var cm := cms[name];
        var version := VersionIn(Annotations(cm));
        var data := BucketIn(Data(cm), version);
        data := data - {client};
        var cmData := Data(cm);
        cmData := cmData[version := Encoded(data)];
        Patch(name, DataPatch(cmData));
        r := Done;
      }
      PutSame(old(cms), host);
      ServedWhen(old(cms), cms, host, Remove(client), r);
    }

    method AddRevokeFh(host: string, client: string, handle: string, body: Option<Input>) returns (r: Response)
      modifies this
      ensures Served(old(cms), cms, host, Revoke(client, handle, body), r)
    {
      var name := CmName(host);
      if body.None? {
        r := BadRequest;
      } else if name !in cms {
        r := NotFound;
      } else {
        var cm, version := cms[name], body.value.version;
        var data := BucketIn(Data(cm), version);
        if client !in data { data := data[client := []]; }
        data := data[client := data[client] + [handle]];
        assert data == Push(BucketIn(Data(cm), version), client, handle);
        var cmData := Data(cm);
        cmData := cmData[version := Encoded(data)];
        Patch(name, DataPatch(cmData));
        r := Done;
      }
      PutSame(old(cms), host);
      ServedWhen(old(cms), cms, host, Revoke(client, handle, body), r);
    }

    method ReadClientIds(host: string) returns (r: Response)
      ensures r == Handle(Get(cms, host), Read).response
      ensures r.Clients? ==> StrictlySorted(r.ids)
      ensures r.Clients? ==> CmName(host) in cms && ToSet(r.ids) == Current(ViewOf(cms[CmName(host)])).Keys
    {
      var name := CmName(host);
      if name !in cms { return NotFound; }
      var cm := cms[name];
      var version := VersionIn(Annotations(cm));
      var data := BucketIn(Data(cm), version);
      r := Clients(Ascending(data.Keys));
    }
  }
}
