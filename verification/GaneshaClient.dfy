/** The client of the recovery backend (ganesha-patch/recovery_hcloud.c): one
    server process per host, restarted any number of times, whose version is
    drawn once at start-up and sent along with every request. */
module GaneshaClient {
  import opened Base
  import opened KeyOrder
  import opened RecoveryStore
  import opened RecoveryTrace
  import opened RecoveryConcurrency
  import opened RecoveryBackend

  lemma ServeOne(reqs: seq<Request>, req: Request)
    requires Disciplined(reqs) && Keeps(Announced(reqs), req)
    ensures Disciplined(reqs + [req])
    ensures Serve(reqs + [req]) == Handle(Serve(reqs), req).store
    ensures Announced(reqs + [req]) == if Creates(req) then Some(req.body.value.version) else Announced(reqs)
  {
    var all := reqs + [req];
    assert all[..|reqs|] == reqs;
    forall i | 0 <= i < |all| ensures Keeps(Announced(all[..i]), all[i]) {
      if i < |reqs| { assert all[..i] == reqs[..i]; }
    }
  }

  class Ganesha {
    const host: string
    const backend: Backend
    var version: string
    var up: bool                        // start-up succeeded
    ghost var served: seq<Request>      // carried out for this host so far, over all incarnations

    ghost predicate Valid()
      reads this, backend
    {
      && Disciplined(served)
      && Get(backend.cms, host) == Serve(served)
      && (up ==> Announced(served) == Some(version))
    }

    constructor (host: string, backend: Backend)
      requires Get(backend.cms, host) == None
      ensures Valid() && !up && served == [] && this.host == host && this.backend == backend
    {
      this.host, this.backend := host, backend;
      version, up, served := "", false, [];
    }

    /** The records of all other hosts are left alone. */
    twostate predicate OnlyThisHost()
      reads backend
    {
      forall other | other != host :: Get(backend.cms, other) == old(Get(backend.cms, other))
    }

    /** A request was carried out. */
    ghost method Note(req: Request)
      requires Disciplined(served) && Keeps(Announced(served), req)
      requires Get(backend.cms, host) == Handle(Serve(served), req).store
      requires if Creates(req) then req.body.value.version == version else Announced(served) == Some(version)
      modifies this`served
      ensures Valid() && served == old(served) + [req] && Announced(served) == Some(version)
    {
      ServeOne(served, req);
      served := served + [req];
    }

    /** Start-up: `drawn` is the version drawn, `reached` says the request was
        carried out, `answered` that the answer came back. A create that is
        carried out although its answer is lost moves the store on, and the
        server does not come up. */
    method RecovInit(drawn: string, reached: bool, answered: bool) returns (ok: bool)
      requires Valid()
      modifies this, backend
      ensures Valid() && ok == up == (reached && answered) && version == drawn && OnlyThisHost()
      ensures reached ==> served == old(served) + [Create(Some(Input(Some(host), drawn)))]
      ensures !reached ==> served == old(served) && backend.cms == old(backend.cms)
    {
      version, up := drawn, false;
      if reached {
        var body := Some(Input(Some(host), version));
        var r := backend.Create(body);
        Note(Create(body));
        up := answered && r == Done;
      }
      ok := up;
    }

    method RecovEndGrace(reached: bool)
      requires Valid() && up
      modifies this`served, backend
      ensures OnlyThisHost()
      ensures Valid() && served == if reached then old(served) + [EndGrace(Some(Input(None, version)))] else old(served)
    {
      if reached {
        var body := Some(Input(None, version));
        var r := backend.EndGrace(host, body);
        Note(EndGrace(body));
      }
    }

    /** A client without a tag is skipped. */
    method AddClid(tag: Option<string>, reached: bool)
      requires Valid() && up
      modifies this`served, backend
      ensures Valid() && OnlyThisHost()
      ensures served == if tag.None? || !reached then old(served)
                        else old(served) + [Add(tag.value, Some(Input(None, version)))]
    {
      if tag.None? { return; }
      if reached {
        var body := Some(Input(None, version));
        var r := backend.AddClientId(host, tag.value, body);
        Note(Add(tag.value, body));
      }
    }

    /** Removing a client also drops its tag, even when the call does not get through. */
    method RmClid(tag: Option<string>, reached: bool) returns (left: Option<string>)
      requires Valid() && up
      modifies this`served, backend
      ensures Valid() && OnlyThisHost() && left == None
      ensures served == if tag.Some? && reached then old(served) + [Remove(tag.value)] else old(served)
    {
      left := None;
      if tag.None? { return; }
      if reached {
        var r := backend.RemoveClientId(host, tag.value);
        Note(Remove(tag.value));
      }
    }

    method AddRevokeFh(tag: Option<string>, handle: string, reached: bool)
      requires Valid() && up
      modifies this`served, backend
      ensures Valid() && OnlyThisHost()
      ensures served == if tag.None? || !reached then old(served)
                        else old(served) + [Revoke(tag.value, handle, Some(Input(None, version)))]
    {
      if tag.None? { return; }
      if reached {
        var body := Some(Input(None, version));
        var r := backend.AddRevokeFh(host, tag.value, handle, body);
        Note(Revoke(tag.value, handle, body));
      }
    }

    /** The clients allowed to reclaim: exactly those added, in this incarnation
        and since the end of its grace period, and not removed since. */
    method ReadRecovClids(reached: bool) returns (clids: Option<seq<string>>)
      requires Valid() && up
      ensures clids.Some? == reached
      ensures clids.Some? ==> StrictlySorted(clids.value) && forall c :: c in clids.value <==> Live(served, c)
    {
      if !reached { return None; }
      var r := backend.ReadClientIds(host);
      ReadIsExact(served);
      clids := Some(r.ids);
    }
  }

  /** Servers of different hosts share a backend: what one does leaves the other valid. */
  twostate lemma NeighboursStayValid(a: Ganesha, b: Ganesha)
    requires a.backend == b.backend && a.host != b.host && a != b && old(b.Valid())
    requires a.OnlyThisHost() && unchanged(b)
    ensures b.Valid()
  {
  }
}
