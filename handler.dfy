/** The DigitalOcean DNS handler: it hands zone and zone-state queries to the zone cache,
    supplies the cache with the two loaders that read DigitalOcean (all zones, and the
    records of one zone), and runs change batches through the batch executor, reporting
    their outcome back to the cache. */
module Handler {
  import opened Wrappers
  import opened DnsTypes
  import opened Environment
  import opened Pagination
  import opened Client
  import opened Zones

  /** The names of the listed domains, in listing order. */
  function Names(domains: seq<Domain>): (names: seq<string>)
    ensures |names| == |domains|
    ensures forall i :: 0 <= i < |domains| ==> names[i] == domains[i].name
  {
    if domains == [] then [] else Names(domains[..|domains| - 1]) + [domains[|domains| - 1].name]
  }

  /** The calls a zone state receives for the listed records of `domain`: one AddRecord per
      record, in listing order. */
  function AddAll(records: seq<DomainRecord>, domain: string): (ops: seq<StateOp>)
    ensures |ops| == |records|
  {
    if records == [] then []
    else AddAll(records[..|records| - 1], domain) + [Added(ToRecord(records[|records| - 1], domain))]
  }

  /** Every record becomes an AddRecord of its converted form, at the same position. */
  lemma {:induction false} AddAllAt(records: seq<DomainRecord>, domain: string)
    ensures forall i :: 0 <= i < |records| ==> AddAll(records, domain)[i] == Added(ToRecord(records[i], domain))
    decreases |records|
  {
    if records != [] {
      AddAllAt(records[..|records| - 1], domain);
    }
  }

  /** ListRecords for each of `names` in turn, stopping at the first failure: the new
      environment, and the record lists of all the domains. */
  ghost function FetchRecords(w: World, names: seq<string>): (res: (World, Result<seq<seq<DomainRecord>>, Error>))
    ensures res.1.Success? ==> |res.1.value| == |names|
    decreases |names|
  {
    if names == [] then (w, Success([]))
    else
      var first := ListRecordsSpec(w, names[0]);
      if first.1.Failure? then (first.0, Failure(first.1.error))
      else
        var rest := FetchRecords(first.0, names[1..]);
        (rest.0, if rest.1.Failure? then rest.1 else Success([first.1.value] + rest.1.value))
  }

  /** The outcome of fetching more record lists after `lists` have already been fetched. */
  ghost function Continue(lists: seq<seq<DomainRecord>>, rest: (World, Result<seq<seq<DomainRecord>>, Error>))
    : (World, Result<seq<seq<DomainRecord>>, Error>)
  {
    (rest.0, if rest.1.Failure? then rest.1 else Success(lists + rest.1.value))
  }

  /** getZones: the new environment and the zones of every domain of the account. */
  ghost function GetZonesSpec(w: World, providerType: string): (World, Result<seq<HostedZone>, Error>) {
    var listed := ListDomainsSpec(w);
    if listed.1.Failure? then (listed.0, Failure(listed.1.error))
    else
      var names := Names(listed.1.value);
      var fetched := FetchRecords(listed.0, names);
      if fetched.1.Failure? then (fetched.0, Failure(fetched.1.error))
      else (fetched.0, Success(BuildZones(providerType, names, fetched.1.value)))
  }

  lemma ContinueStart(w: World, names: seq<string>)
    ensures FetchRecords(w, names) == Continue([], FetchRecords(w, names[0..]))
  {
    assert names[0..] == names;
    var r := FetchRecords(w, names);
    if r.1.Success? {
      assert [] + r.1.value == r.1.value;
    }
  }

  /** Fetching from domain i on is ListRecords of domain i, then fetching from i + 1 on. */
  lemma ContinueStep(lists: seq<seq<DomainRecord>>, w: World, names: seq<string>, i: nat)
    requires i < |names|
    ensures var first := ListRecordsSpec(w, names[i]);
            && (first.1.Failure? ==> Continue(lists, FetchRecords(w, names[i..])) == (first.0, Failure(first.1.error)))
            && (first.1.Success? ==> Continue(lists, FetchRecords(w, names[i..]))
                                       == Continue(lists + [first.1.value], FetchRecords(first.0, names[i + 1..])))
  {
    assert names[i..][0] == names[i] && names[i..][1..] == names[i + 1..];
    var first := ListRecordsSpec(w, names[i]);
    var rest := FetchRecords(first.0, names[i + 1..]);
    if first.1.Success? && rest.1.Success? {
      assert lists + ([first.1.value] + rest.1.value) == lists + [first.1.value] + rest.1.value;
    }
  }

  /** Each listing charges one ListRecords request and one token, so a successful fetch of
      n domains charges n of each. */
  lemma {:induction false} FetchRecordsCharges(w: World, names: seq<string>)
    requires FetchRecords(w, names).1.Success?
    ensures var w' := FetchRecords(w, names).0;
            && Tokens(w'.trace) == Tokens(w.trace) + |names|
            && (forall kind :: Charged(w'.trace, kind) == Charged(w.trace, kind) + (if kind == RequestType.ListRecords then |names| else 0))
    decreases |names|
  {
    if names != [] {
      var first := ListRecordsSpec(w, names[0]);
      ListRecordsChargesOnce(w, names[0]);
      FetchRecordsCharges(first.0, names[1..]);
    }
  }

  /** A successful getZones charges one ListZones request, one ListRecords request per
      domain, and one rate-limiter token for each of these. */
  lemma GetZonesCharges(w: World, providerType: string)
    requires GetZonesSpec(w, providerType).1.Success?
    ensures var w' := GetZonesSpec(w, providerType).0;
            var domains := ListDomainsSpec(w).1.value;
            && |GetZonesSpec(w, providerType).1.value| == |domains|
            && Tokens(w'.trace) == Tokens(w.trace) + 1 + |domains|
            && Charged(w'.trace, ListZones) == Charged(w.trace, ListZones) + 1
            && Charged(w'.trace, RequestType.ListRecords) == Charged(w.trace, RequestType.ListRecords) + |domains|
  {
    var listed := ListDomainsSpec(w);
    ListDomainsChargesOnce(w);
    FetchRecordsCharges(listed.0, Names(listed.1.value));
  }

  /** A zone of getZones's result is the zone of the i-th listed domain; its forwarded list
      holds exactly the delegations of that domain and of the domains listed before it. */
  lemma GetZonesForwarded(w: World, providerType: string, i: nat, x: string)
    requires GetZonesSpec(w, providerType).1.Success?
    requires i < |GetZonesSpec(w, providerType).1.value|
    ensures var names := Names(ListDomainsSpec(w).1.value);
            var lists := FetchRecords(ListDomainsSpec(w).0, names).1.value;
            var zone := GetZonesSpec(w, providerType).1.value[i];
            && zone.domain == zone.id == zone.key == names[i]
            && zone.providerType == providerType && !zone.isPrivate
            && (x in zone.forwarded <==> exists j :: 0 <= j <= i && x in Delegations(lists[j], names[j]))
  {
    var names := Names(ListDomainsSpec(w).1.value);
    var lists := FetchRecords(ListDomainsSpec(w).0, names).1.value;
    BuildZonesAt(providerType, names, lists, i);
    ZoneForwardedMembers(providerType, names, lists, i, x);
  }

  /** The scan of one domain's records in getZones: appends to the shared forwarded list the
      name of every NS record that is not at the domain's apex, in listing order. */
  method AppendDelegations(forwarded: seq<string>, records: seq<DomainRecord>, domain: string) returns (r: seq<string>)
    ensures r == forwarded + Delegations(records, domain)
  {
    r := forwarded;
    var j := 0;
    assert records[..0] == [];
    while j < |records|
      invariant 0 <= j <= |records|
      invariant r == forwarded + Delegations(records[..j], domain)
    {
      var record := records[j];
      DelegationsStep(records, domain, j);
      if record.rtype == RS_NS && record.name != domain {
        r := r + [record.name];
      }
      j := j + 1;
    }
    assert records[..j] == records;
  }

  // ---------------------------------------------------------------------------------------

  /** Handler: the client it reads DigitalOcean with, and the zone cache, the batch executor
      and the metrics it shares with that client through the client's environment. */
  class Handler {
    const providerType: string
    const client: DNSClient

    constructor (providerType: string, client: DNSClient)
      ensures this.providerType == providerType && this.client == client
    {
      this.providerType := providerType;
      this.client := client;
    }

    /** Release: releases the zone cache. */
    method Release()
      modifies client.env
      ensures client.env.State() == old(client.env.State()).(trace := old(client.env.trace) + [ReleaseCall])
      ensures client.env.replies == old(client.env.replies)
    {
      client.env.Release();
    }

    /** GetZones: answered by the zone cache. */
    method GetZones() returns (r: Result<seq<HostedZone>, Error>)
      modifies client.env
      ensures r == old(client.env.replies.zones)
      ensures client.env.State() == old(client.env.State()).(trace := old(client.env.trace) + [GetZonesCall])
      ensures client.env.replies == old(client.env.replies)
    {
      r := client.env.GetZones();
    }

    /** getZones, the loader the zone cache calls: one zone per domain, in listing order,
        each forwarded the NS delegations found in it and in every domain before it. */
    method LoadZones() returns (r: Result<seq<HostedZone>, Error>)
      modifies client.env
      ensures client.env.State() == GetZonesSpec(old(client.env.State()), providerType).0
      ensures r == GetZonesSpec(old(client.env.State()), providerType).1
      ensures client.env.replies == old(client.env.replies)
    {
      var env := client.env;
      ghost var w0 := env.State();
      var listed := client.ListDomains();
      assert (env.State(), listed) == ListDomainsSpec(w0);
      if listed.Failure? {
        return Failure(listed.error);
      }
      var domains := listed.value;
      ghost var names := Names(domains);
      ghost var w1 := env.State();
      ghost var lists: seq<seq<DomainRecord>> := [];
      var zones: seq<HostedZone> := [];
      var forwarded: seq<string> := [];
      ContinueStart(w1, names);
      var i := 0;
      while i < |domains|
        invariant 0 <= i <= |domains| && |lists| == i
        invariant zones == BuildZones(providerType, names[..i], lists)
        invariant forwarded == Forwarded(names[..i], lists)
        invariant FetchRecords(w1, names) == Continue(lists, FetchRecords(env.State(), names[i..]))
        invariant env.replies == old(env.replies)
      {
        var dom := domains[i];
        ghost var ws := env.State();
        ContinueStep(lists, ws, names, i);
        var records := client.ListRecords(dom.name);
        assert (env.State(), records) == ListRecordsSpec(ws, dom.name);
        if records.Failure? {
          return Failure(records.error);
        }
        forwarded := AppendDelegations(forwarded, records.value, dom.name);
        BuildZonesStep(providerType, names, lists, records.value);
        lists := lists + [records.value];
        zones := zones + [ZoneFor(providerType, dom.name, forwarded)];
        i := i + 1;
      }
      assert names[..i] == names && names[i..] == [];
      assert FetchRecords(env.State(), names[i..]) == (env.State(), Success([]));
      assert lists + [] == lists;
      return Success(zones);
    }

    /** GetZoneState: answered by the zone cache. */
    method GetZoneState(zone: HostedZone) returns (r: Result<ZoneState, Error>)
      modifies client.env
      ensures r == old(client.env.replies.zoneState)
      ensures client.env.State() == old(client.env.State()).(trace := old(client.env.trace) + [GetZoneStateCall(zone)])
      ensures client.env.replies == old(client.env.replies)
    {
      r := client.env.GetZoneState(zone);
    }

    /** getZoneState, the loader the zone cache calls: a fresh zone state holding every
        record of the zone's domain, in listing order, after which the DNS sets are computed
        once. */
    method LoadZoneState(zone: HostedZone) returns (r: Result<ZoneState, Error>)
      modifies client.env
      ensures var listed := ListRecordsSpec(old(client.env.State()), zone.domain);
              && client.env.State() == listed.0
              && (r.Failure? <==> listed.1.Failure?)
              && (r.Failure? ==> r.error == listed.1.error)
              && (r.Success? ==> fresh(r.value) && r.value.ops == AddAll(listed.1.value, zone.domain) + [Calculated])
      ensures client.env.replies == old(client.env.replies)
    {
      var listed := client.ListRecords(zone.domain);
      if listed.Failure? {
        return Failure(listed.error);
      }
      var records := listed.value;
      var state := new ZoneState();
      var j := 0;
      while j < |records|
        invariant 0 <= j <= |records|
        invariant state.ops == AddAll(records[..j], zone.domain)
        modifies state
      {
        state.AddRecord(ToRecord(records[j], zone.domain));
        assert records[..j + 1][..j] == records[..j];
        j := j + 1;
      }
      assert records[..j] == records;
      state.CalculateDNSSets();
      return Success(state);
    }

    /** ReportZoneStateConflict: answered by the zone cache. */
    method ReportZoneStateConflict(zone: HostedZone, err: Option<Error>) returns (retry: bool)
      modifies client.env
      ensures retry == old(client.env.replies.retry)
      ensures client.env.State() == old(client.env.State()).(trace := old(client.env.trace) + [ReportConflictCall(zone, err)])
      ensures client.env.replies == old(client.env.replies)
    {
      retry := client.env.ReportZoneStateConflict(zone, err);
    }

    /** ExecuteRequests: runs the batch through the executor, then reports the executor's
        error (or its success) and the batch to the zone cache, and returns that error. */
    method ExecuteRequests(zone: HostedZone, state: ZoneState, reqs: seq<ChangeRequest>) returns (err: Option<Error>)
      modifies client.env
      ensures err == old(client.env.replies.executed)
      ensures client.env.State() == old(client.env.State()).(
                trace := old(client.env.trace) + [ExecuteCall(zone, state, reqs), ApplyRequestsCall(err, zone, reqs)])
      ensures client.env.replies == old(client.env.replies)
    {
      err := client.env.ExecuteRequests(zone, state, reqs);
      client.env.ApplyRequests(err, zone, reqs);
    }
  }
}
