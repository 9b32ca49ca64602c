/** The DigitalOcean DNS client (client.go): paginated listing of domains and records, and
    the three record writes. Each logical call is charged to the metrics sink and takes one
    rate-limiter token before it talks to the DigitalOcean API. */
module Client {
  import opened Wrappers
  import opened DnsTypes
  import opened Environment
  import opened Pagination
  import opened RecordIds

  /** Listing starts at page 1 and asks for 100 items per page. */
  const FIRST_PAGE: int := 1
  const PER_PAGE: int := 100

  /** The smallest TTL the client submits to DigitalOcean. */
  const MIN_TTL: int := 30

  // ---------------------------------------------------------------------------------------
  // Record writes

  /** createRecordRequest: the record's type, name and value unchanged, and its TTL raised to
      at least MIN_TTL, that is max(ttl, MIN_TTL). */
  function CreateRecordRequest(r: Record): (req: EditRequest)
    ensures req.rtype == r.rtype && req.name == r.dnsName && req.data == r.value
    ensures req.ttl >= MIN_TTL && req.ttl >= r.ttl
    ensures req.ttl == r.ttl || req.ttl == MIN_TTL
  {
    var req := EditRequest(r.rtype, r.dnsName, r.value, r.ttl);
    if req.ttl < MIN_TTL then req.(ttl := MIN_TTL) else req
  }

  /** A TTL that already meets the floor is submitted as it is. */
  lemma CreateRecordRequestKeepsTTL(r: Record)
    requires r.ttl >= MIN_TTL
    ensures CreateRecordRequest(r).ttl == r.ttl
  {
  }

  /** The error a write returns when the DigitalOcean call failed: the remote error wrapped
      with the operation and the record's type, name and value. */
  function WriteError(op: WriteOp, r: Record, outcome: Option<Error>): (err: Option<Error>)
    ensures err.None? <==> outcome.None?
    ensures err.Some? ==> err.value == WriteFailed(op, r.rtype, r.dnsName, r.value, outcome.value)
  {
    if outcome.Some? then Some(WriteFailed(op, r.rtype, r.dnsName, r.value, outcome.value)) else None
  }

  /** toRecord (record.go, not part of this model): wraps a DigitalOcean record together with
      the domain it belongs to; its ID is rendered in decimal. */
  function ToRecord(rec: DomainRecord, domain: string): (r: Record)
    ensures r.domain == domain
    ensures r.rtype == rec.rtype && r.dnsName == rec.name && r.value == rec.data && r.ttl == rec.ttl
  {
    Record(FormatInt(rec.id), rec.rtype, rec.name, rec.data, rec.ttl, domain)
  }

  /** NewRecord: a not-yet-created record (ID 0) in the zone whose key it carries. */
  function NewRecord(fqdn: string, rtype: string, value: string, zone: HostedZone, ttl: int): (r: Record)
    ensures r.domain == zone.key
    ensures r.rtype == rtype && r.dnsName == fqdn && r.value == value && r.ttl == ttl
    ensures ParseRecordId(r.id) == Some(0)
  {
    ParseFormat(0);
    ToRecord(DomainRecord(0, rtype, fqdn, value, ttl), zone.key)
  }

  /** A record read back from a listing always carries an ID that update and delete accept. */
  lemma ListedRecordIdParses(rec: DomainRecord, domain: string)
    requires MIN_INT <= rec.id <= MAX_INT
    ensures ParseRecordId(ToRecord(rec, domain).id) == Some(rec.id)
  {
    ParseFormat(rec.id);
  }

  // ---------------------------------------------------------------------------------------
  // Listings, as functions of the environment they run against

  /** The requests of a domain listing that asked for the given pages. */
  function ListDomainsCalls(pages: seq<int>): (calls: seq<Event>)
    ensures |calls| == |pages|
  {
    if pages == [] then [] else ListDomainsCalls(pages[..|pages| - 1]) + [ListDomainsCall(ListOptions(pages[|pages| - 1], PER_PAGE))]
  }

  /** The requests of a record listing for `domain` that asked for the given pages. */
  function ListRecordsCalls(domain: string, pages: seq<int>): (calls: seq<Event>)
    ensures |calls| == |pages|
  {
    if pages == [] then [] else ListRecordsCalls(domain, pages[..|pages| - 1]) + [ListRecordsCall(domain, ListOptions(pages[|pages| - 1], PER_PAGE))]
  }

  /** The environment after a domain listing that asked for the given pages: charged once,
      one token taken, one request per page, one scripted answer used per request. */
  ghost function AfterDomainPages(w: World, pages: seq<int>): World {
    w.(trace := w.trace + [MetricAdded(ListZones, 1), TokenTaken] + ListDomainsCalls(pages),
       domainPages := Drop(w.domainPages, |pages|))
  }

  /** The environment after a record listing for `domain` that asked for the given pages. */
  ghost function AfterRecordPages(w: World, domain: string, pages: seq<int>): World {
    w.(trace := w.trace + [MetricAdded(ListRecords, 1), TokenTaken] + ListRecordsCalls(domain, pages),
       recordPages := Advance(w.recordPages, domain, |pages|))
  }

  /** ListDomains: the new environment and the result. */
  ghost function ListDomainsSpec(w: World): (World, Result<seq<Domain>, Error>) {
    var l := ListAll(w.domainPages, FIRST_PAGE);
    (AfterDomainPages(w, l.pages), l.result)
  }

  /** ListRecords(domain): the new environment and the result. */
  ghost function ListRecordsSpec(w: World, domain: string): (World, Result<seq<DomainRecord>, Error>) {
    var l := ListAll(Script(w.recordPages, domain), FIRST_PAGE);
    (AfterRecordPages(w, domain, l.pages), l.result)
  }

  lemma AfterDomainPagesStart(w: World)
    ensures AfterDomainPages(w, []) == w.(trace := w.trace + [MetricAdded(ListZones, 1), TokenTaken])
  {
    assert w.trace + [MetricAdded(ListZones, 1), TokenTaken] + [] == w.trace + [MetricAdded(ListZones, 1), TokenTaken];
  }

  lemma AfterDomainPagesStep(w: World, pages: seq<int>, page: int)
    ensures var v := AfterDomainPages(w, pages);
            AfterDomainPages(w, pages + [page])
              == v.(trace := v.trace + [ListDomainsCall(ListOptions(page, PER_PAGE))], domainPages := Drop(v.domainPages, 1))
  {
    assert (pages + [page])[..|pages|] == pages;
    DropDrop(w.domainPages, |pages|, 1);
  }

  lemma AfterRecordPagesStart(w: World, domain: string)
    ensures AfterRecordPages(w, domain, []) == w.(trace := w.trace + [MetricAdded(ListRecords, 1), TokenTaken])
  {
    assert w.trace + [MetricAdded(ListRecords, 1), TokenTaken] + [] == w.trace + [MetricAdded(ListRecords, 1), TokenTaken];
  }

  lemma AfterRecordPagesStep(w: World, domain: string, pages: seq<int>, page: int)
    ensures var v := AfterRecordPages(w, domain, pages);
            AfterRecordPages(w, domain, pages + [page])
              == v.(trace := v.trace + [ListRecordsCall(domain, ListOptions(page, PER_PAGE))],
                    recordPages := Advance(v.recordPages, domain, 1))
  {
    assert (pages + [page])[..|pages|] == pages;
    AdvanceAdvance(w.recordPages, domain, |pages|, 1);
  }

  lemma {:induction false} ListDomainsCallsTally(pages: seq<int>)
    ensures Tokens(ListDomainsCalls(pages)) == 0
    ensures RemoteCalls(ListDomainsCalls(pages)) == |pages|
    ensures forall kind :: Charged(ListDomainsCalls(pages), kind) == 0
    decreases |pages|
  {
    if pages != [] {
      ListDomainsCallsTally(pages[..|pages| - 1]);
      var calls := ListDomainsCalls(pages);
      assert calls[..|calls| - 1] == ListDomainsCalls(pages[..|pages| - 1]);
    }
  }

  lemma {:induction false} ListRecordsCallsTally(domain: string, pages: seq<int>)
    ensures Tokens(ListRecordsCalls(domain, pages)) == 0
    ensures RemoteCalls(ListRecordsCalls(domain, pages)) == |pages|
    ensures forall kind :: Charged(ListRecordsCalls(domain, pages), kind) == 0
    decreases |pages|
  {
    if pages != [] {
      ListRecordsCallsTally(domain, pages[..|pages| - 1]);
      var calls := ListRecordsCalls(domain, pages);
      assert calls[..|calls| - 1] == ListRecordsCalls(domain, pages[..|pages| - 1]);
    }
  }

  lemma ChargeTally(t: seq<Event>, kind: RequestType)
    ensures Tokens(t + [MetricAdded(kind, 1), TokenTaken]) == Tokens(t) + 1
    ensures RemoteCalls(t + [MetricAdded(kind, 1), TokenTaken]) == RemoteCalls(t)
    ensures forall k :: Charged(t + [MetricAdded(kind, 1), TokenTaken], k) == Charged(t, k) + (if k == kind then 1 else 0)
  {
    TalliesAppend(t, [MetricAdded(kind, 1)]);
    TalliesAppend(t + [MetricAdded(kind, 1)], [TokenTaken]);
    assert t + [MetricAdded(kind, 1)] + [TokenTaken] == t + [MetricAdded(kind, 1), TokenTaken];
    assert [MetricAdded(kind, 1)][..0] == [] && [TokenTaken][..0] == [];
  }

  /** ListDomains adds exactly one ListZones request to the metrics and takes exactly one
      token, however many pages it reads; it makes one API request per page, up to and
      including the page that stops the listing. */
  lemma ListDomainsChargesOnce(w: World)
    ensures var w' := ListDomainsSpec(w).0;
            && Tokens(w'.trace) == Tokens(w.trace) + 1
            && (forall kind :: Charged(w'.trace, kind) == Charged(w.trace, kind) + (if kind == ListZones then 1 else 0))
            && RemoteCalls(w'.trace) == RemoteCalls(w.trace) + StopIndex(w.domainPages) + 1
  {
    var l := ListAll(w.domainPages, FIRST_PAGE);
    ListAllPages(w.domainPages, FIRST_PAGE);
    ChargeTally(w.trace, ListZones);
    ListDomainsCallsTally(l.pages);
    TalliesAppend(w.trace + [MetricAdded(ListZones, 1), TokenTaken], ListDomainsCalls(l.pages));
  }

  /** ListRecords adds exactly one ListRecords request to the metrics and takes exactly one
      token, however many pages it reads; it makes one API request per page, up to and
      including the page that stops the listing. */
  lemma ListRecordsChargesOnce(w: World, domain: string)
    ensures var w' := ListRecordsSpec(w, domain).0;
            && Tokens(w'.trace) == Tokens(w.trace) + 1
            && (forall kind :: Charged(w'.trace, kind) == Charged(w.trace, kind) + (if kind == ListRecords then 1 else 0))
            && RemoteCalls(w'.trace) == RemoteCalls(w.trace) + StopIndex(Script(w.recordPages, domain)) + 1
  {
    var l := ListAll(Script(w.recordPages, domain), FIRST_PAGE);
    ListAllPages(Script(w.recordPages, domain), FIRST_PAGE);
    ChargeTally(w.trace, ListRecords);
    ListRecordsCallsTally(domain, l.pages);
    TalliesAppend(w.trace + [MetricAdded(ListRecords, 1), TokenTaken], ListRecordsCalls(domain, l.pages));
  }

  lemma {:induction false} ListDomainsCallsAt(pages: seq<int>)
    ensures forall i :: 0 <= i < |pages| ==> ListDomainsCalls(pages)[i] == ListDomainsCall(ListOptions(pages[i], PER_PAGE))
    decreases |pages|
  {
    if pages != [] {
      ListDomainsCallsAt(pages[..|pages| - 1]);
    }
  }

  lemma {:induction false} ListRecordsCallsAt(domain: string, pages: seq<int>)
    ensures forall i :: 0 <= i < |pages| ==> ListRecordsCalls(domain, pages)[i] == ListRecordsCall(domain, ListOptions(pages[i], PER_PAGE))
    decreases |pages|
  {
    if pages != [] {
      ListRecordsCallsAt(domain, pages[..|pages| - 1]);
    }
  }

  /** ListDomains first requests page 1 with 100 domains per page, and after each page
      that continues the listing, the page after the one that response reports as current. */
  lemma ListDomainsRequests(w: World)
    ensures var calls := ListDomainsSpec(w).0.trace[|w.trace| + 2..];
            && |calls| == StopIndex(w.domainPages) + 1
            && calls[0] == ListDomainsCall(ListOptions(1, 100))
            && forall j :: 0 <= j < StopIndex(w.domainPages) ==>
                 calls[j + 1] == ListDomainsCall(ListOptions(NextPage(w.domainPages[j]), 100))
  {
    var l := ListAll(w.domainPages, FIRST_PAGE);
    ListAllPages(w.domainPages, FIRST_PAGE);
    ListDomainsCallsAt(l.pages);
    assert ListDomainsSpec(w).0.trace[|w.trace| + 2..] == ListDomainsCalls(l.pages);
  }

  /** ListRecords(domain) requests the same pages, and every API request it makes is for
      `domain`. */
  lemma ListRecordsRequests(w: World, domain: string)
    ensures var calls := ListRecordsSpec(w, domain).0.trace[|w.trace| + 2..];
            var script := Script(w.recordPages, domain);
            && |calls| == StopIndex(script) + 1
            && calls[0] == ListRecordsCall(domain, ListOptions(1, 100))
            && forall j :: 0 <= j < StopIndex(script) ==>
                 calls[j + 1] == ListRecordsCall(domain, ListOptions(NextPage(script[j]), 100))
  {
    var l := ListAll(Script(w.recordPages, domain), FIRST_PAGE);
    ListAllPages(Script(w.recordPages, domain), FIRST_PAGE);
    ListRecordsCallsAt(domain, l.pages);
    assert ListRecordsSpec(w, domain).0.trace[|w.trace| + 2..] == ListRecordsCalls(domain, l.pages);
  }

  /** A write that reaches DigitalOcean adds one request of its kind to the metrics, takes
      one token and makes exactly one API call. */
  lemma WriteCharges(t: seq<Event>, kind: RequestType, call: Event)
    requires IsRemoteCall(call)
    ensures var t' := t + [MetricAdded(kind, 1), TokenTaken, call];
            && Tokens(t') == Tokens(t) + 1
            && RemoteCalls(t') == RemoteCalls(t) + 1
            && forall k :: Charged(t', k) == Charged(t, k) + (if k == kind then 1 else 0)
  {
    ChargeTally(t, kind);
    assert t + [MetricAdded(kind, 1), TokenTaken, call] == (t + [MetricAdded(kind, 1), TokenTaken]) + [call];
  }

  // ---------------------------------------------------------------------------------------

  /** DNSClient: the godo domains service, the metrics sink and the rate limiter it was
      built with, all reached through `env`. */
  class DNSClient {
    const env: Environment

    constructor (env: Environment)
      ensures this.env == env
    {
      this.env := env;
    }

    /** ListDomains: every domain of the account, page by page. */
    method ListDomains() returns (r: Result<seq<Domain>, Error>)
      modifies env
      ensures env.State() == ListDomainsSpec(old(env.State())).0
      ensures r == ListDomainsSpec(old(env.State())).1
      ensures env.replies == old(env.replies)
    {
      ghost var w0 := env.State();
      ghost var goal := ListAll(w0.domainPages, FIRST_PAGE);
      env.AddRequests(ListZones, 1);
      env.Accept();

      ghost var issued: seq<int> := [];
      var domains: seq<Domain> := [];
      var opt := ListOptions(FIRST_PAGE, PER_PAGE);
      AfterDomainPagesStart(w0);
      ResumeStart(goal);
      while true
        invariant env.State() == AfterDomainPages(w0, issued)
        invariant env.replies == old(env.replies)
        invariant opt == ListOptions(opt.page, PER_PAGE)
        invariant goal == Resume(domains, issued, ListAll(env.domainPages, opt.page))
        decreases |env.domainPages|
      {
        ghost var script := env.domainPages;
        ResumeStep(domains, issued, script, opt.page);
        AfterDomainPagesStep(w0, issued, opt.page);
        var resp := env.List(opt);
        issued := issued + [opt.page];
        if resp.Failed? {
          return Failure(resp.err);
        }
        domains := domains + resp.items;
        if resp.links.None? || resp.links.value.isLastPage {
          break;
        }
        var page := resp.links.value.currentPage;
        if page.Failure? {
          return Failure(page.error);
        }
        opt := opt.(page := page.value + 1);
        assert Continues(resp) && resp == NextResponse(script) && opt.page == NextPage(resp);
        assert env.domainPages == script[1..];
      }
      return Success(domains);
    }

    /** ListRecords: every record of `domain`, page by page. */
    method ListRecords(domain: string) returns (r: Result<seq<DomainRecord>, Error>)
      modifies env
      ensures env.State() == ListRecordsSpec(old(env.State()), domain).0
      ensures r == ListRecordsSpec(old(env.State()), domain).1
      ensures env.replies == old(env.replies)
    {
      ghost var w0 := env.State();
      ghost var goal := ListAll(Script(w0.recordPages, domain), FIRST_PAGE);
      env.AddRequests(RequestType.ListRecords, 1);
      env.Accept();

      ghost var issued: seq<int> := [];
      var records: seq<DomainRecord> := [];
      var opt := ListOptions(FIRST_PAGE, PER_PAGE);
      AfterRecordPagesStart(w0, domain);
      ResumeStart(goal);
      while true
        invariant env.State() == AfterRecordPages(w0, domain, issued)
        invariant env.replies == old(env.replies)
        invariant opt == ListOptions(opt.page, PER_PAGE)
        invariant goal == Resume(records, issued, ListAll(Script(env.recordPages, domain), opt.page))
        decreases |Script(env.recordPages, domain)|
      {
        ghost var script := Script(env.recordPages, domain);
        ResumeStep(records, issued, script, opt.page);
        AfterRecordPagesStep(w0, domain, issued, opt.page);
        var resp := env.Records(domain, opt);
        issued := issued + [opt.page];
        if resp.Failed? {
          return Failure(resp.err);
        }
        records := records + resp.items;
        if resp.links.None? || resp.links.value.isLastPage {
          break;
        }
        var page := resp.links.value.currentPage;
        if page.Failure? {
          return Failure(page.error);
        }
        opt := opt.(page := page.value + 1);
        assert Continues(resp) && resp == NextResponse(script) && opt.page == NextPage(resp);
        assert Script(env.recordPages, domain) == script[1..];
      }
      return Success(records);
    }

    /** CreateRecord: one metric and one token, then the single create call. */
    method CreateRecord(r: Record) returns (err: Option<Error>)
      modifies env
      ensures env.State() == old(env.State()).(
                trace := old(env.trace) + [MetricAdded(CreateRecords, 1), TokenTaken,
                                           CreateRecordCall(r.domain, CreateRecordRequest(r))],
                writeOutcomes := Drop(old(env.writeOutcomes), 1))
      ensures err == WriteError(Create, r, NextOutcome(old(env.writeOutcomes)))
      ensures env.replies == old(env.replies)
    {
      var req := CreateRecordRequest(r);
      env.AddRequests(CreateRecords, 1);
      env.Accept();
      var e := env.CreateRecord(r.domain, req);
      if e.Some? {
        return Some(WriteFailed(Create, r.rtype, r.dnsName, r.value, e.value));
      }
      return None;
    }

    /** UpdateRecord: an ID that is not an integer fails before anything is charged or
        sent; otherwise one metric and one token, then the single edit call. */
    method UpdateRecord(r: Record) returns (err: Option<Error>)
      modifies env
      ensures ParseRecordId(r.id).None? ==>
                err == Some(InvalidRecordId(r.id)) && env.State() == old(env.State())
      ensures ParseRecordId(r.id).Some? ==>
                && env.State() == old(env.State()).(
                     trace := old(env.trace) + [MetricAdded(UpdateRecords, 1), TokenTaken,
                                                EditRecordCall(r.domain, ParseRecordId(r.id).value, CreateRecordRequest(r))],
                     writeOutcomes := Drop(old(env.writeOutcomes), 1))
                && err == WriteError(Update, r, NextOutcome(old(env.writeOutcomes)))
      ensures env.replies == old(env.replies)
    {
      var req := CreateRecordRequest(r);
      var id := ParseRecordId(r.id);
      if id.None? {
        return Some(InvalidRecordId(r.id));
      }
      env.AddRequests(UpdateRecords, 1);
      env.Accept();
      var e := env.EditRecord(r.domain, id.value, req);
      if e.Some? {
        return Some(WriteFailed(Update, r.rtype, r.dnsName, r.value, e.value));
      }
      return None;
    }

    /** DeleteRecord: an ID that is not an integer fails before anything is charged or
        sent; otherwise one metric and one token, then the single delete call. */
    method DeleteRecord(r: Record) returns (err: Option<Error>)
      modifies env
      ensures ParseRecordId(r.id).None? ==>
                err == Some(InvalidRecordId(r.id)) && env.State() == old(env.State())
      ensures ParseRecordId(r.id).Some? ==>
                && env.State() == old(env.State()).(
                     trace := old(env.trace) + [MetricAdded(DeleteRecords, 1), TokenTaken,
                                                DeleteRecordCall(r.domain, ParseRecordId(r.id).value)],
                     writeOutcomes := Drop(old(env.writeOutcomes), 1))
                && err == WriteError(Delete, r, NextOutcome(old(env.writeOutcomes)))
      ensures env.replies == old(env.replies)
    {
      var id := ParseRecordId(r.id);
      if id.None? {
        return Some(InvalidRecordId(r.id));
      }
      env.AddRequests(DeleteRecords, 1);
      env.Accept();
      var e := env.DeleteRecord(r.domain, id.value);
      if e.Some? {
        return Some(WriteFailed(Delete, r.rtype, r.dnsName, r.value, e.value));
      }
      return None;
    }
  }
}
