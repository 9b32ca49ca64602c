/** The collaborators that the client and the handler call but do not define: the godo
    DomainsService, the metrics sink, the rate limiter, the zone cache, the raw batch
    executor and the raw zone state. They are one scripted fake: every interaction is
    appended, in order, to a single trace, so that the order of charging, throttling and
    remote calls can be stated exactly. */
module Environment {
  import opened Wrappers
  import opened DnsTypes

  /** One interaction with a collaborator. */
  datatype Event =
    | MetricAdded(kind: RequestType, n: nat)                      // metrics sink
    | TokenTaken                                                  // rate limiter token
    | ListDomainsCall(opt: ListOptions)                           // godo Domains.List
    | ListRecordsCall(domain: string, opt: ListOptions)           // godo Domains.Records
    | CreateRecordCall(domain: string, req: EditRequest)          // godo Domains.CreateRecord
    | EditRecordCall(domain: string, id: int, req: EditRequest)   // godo Domains.EditRecord
    | DeleteRecordCall(domain: string, id: int)                   // godo Domains.DeleteRecord
    | ExecuteCall(zone: HostedZone, state: ZoneState, reqs: seq<ChangeRequest>)  // raw.ExecuteRequests
    | GetZonesCall
    | GetZoneStateCall(zone: HostedZone)
    | ReportConflictCall(zone: HostedZone, err: Option<Error>)
    | ApplyRequestsCall(err: Option<Error>, zone: HostedZone, reqs: seq<ChangeRequest>)
    | ReleaseCall

  /** The part of the environment the DNS client reads and changes: the trace and the
      scripted answers of the DigitalOcean service that are still to come. */
  datatype World = World(
    trace: seq<Event>,
    domainPages: seq<Response<Domain>>,
    recordPages: map<string, seq<Response<DomainRecord>>>,
    writeOutcomes: seq<Option<Error>>)

  /** The fixed answers of the zone cache and of the batch executor. */
  datatype Replies = Replies(
    zones: Result<seq<HostedZone>, Error>,
    zoneState: Result<ZoneState, Error>,
    retry: bool,
    executed: Option<Error>)

  /** The first scripted answer, or NoScriptedResponse once the script is used up. */
  function NextResponse<T>(script: seq<Response<T>>): (r: Response<T>)
    ensures script != [] ==> r == script[0]
    ensures script == [] ==> r == Failed(NoScriptedResponse)
  {
    if script == [] then Failed(NoScriptedResponse) else script[0]
  }

  function NextOutcome(script: seq<Option<Error>>): (r: Option<Error>)
    ensures script != [] ==> r == script[0]
    ensures script == [] ==> r == Some(NoScriptedResponse)
  {
    if script == [] then Some(NoScriptedResponse) else script[0]
  }

  /** The script left after n answers have been taken from it. */
  function Drop<T>(s: seq<T>, n: nat): (r: seq<T>)
    ensures |r| == if n <= |s| then |s| - n else 0
  {
    if n <= |s| then s[n..] else []
  }

  function Script<T>(m: map<string, seq<Response<T>>>, domain: string): seq<Response<T>> {
    if domain in m then m[domain] else []
  }

  /** The per-domain scripts after n answers for `domain` have been taken. */
  function Advance<T>(m: map<string, seq<Response<T>>>, domain: string, n: nat): (r: map<string, seq<Response<T>>>)
    ensures Script(r, domain) == Drop(Script(m, domain), n)
  {
    if domain in m then m[domain := Drop(m[domain], n)] else m
  }

  lemma DropDrop<T>(s: seq<T>, a: nat, b: nat)
    ensures Drop(Drop(s, a), b) == Drop(s, a + b)
  {
  }

  lemma AdvanceAdvance<T>(m: map<string, seq<Response<T>>>, domain: string, a: nat, b: nat)
    ensures Advance(Advance(m, domain, a), domain, b) == Advance(m, domain, a + b)
  {
    DropDrop(Script(m, domain), a, b);
  }

  // ---------------------------------------------------------------------------------------
  // Counters over the trace: the metrics sink and the rate limiter seen as counters.

  /** Rate-limiter tokens taken. */
  function Tokens(t: seq<Event>): nat {
    if t == [] then 0 else Tokens(t[..|t| - 1]) + (if t[|t| - 1].TokenTaken? then 1 else 0)
  }

  /** Requests of one kind added to the metrics sink. */
  function Charged(t: seq<Event>, kind: RequestType): nat {
    if t == [] then 0
    else Charged(t[..|t| - 1], kind) + (if t[|t| - 1].MetricAdded? && t[|t| - 1].kind == kind then t[|t| - 1].n else 0)
  }

  predicate IsRemoteCall(e: Event) {
    e.ListDomainsCall? || e.ListRecordsCall? || e.CreateRecordCall? || e.EditRecordCall? || e.DeleteRecordCall?
  }

  /** Calls made to the DigitalOcean API. */
  function RemoteCalls(t: seq<Event>): nat {
    if t == [] then 0 else RemoteCalls(t[..|t| - 1]) + (if IsRemoteCall(t[|t| - 1]) then 1 else 0)
  }

  /** The three counters are additive over a trace that grows at its end. */
  lemma {:induction false} TalliesAppend(a: seq<Event>, b: seq<Event>)
    ensures Tokens(a + b) == Tokens(a) + Tokens(b)
    ensures RemoteCalls(a + b) == RemoteCalls(a) + RemoteCalls(b)
    ensures forall kind :: Charged(a + b, kind) == Charged(a, kind) + Charged(b, kind)
  {
    if b != [] {
      var b' := b[..|b| - 1];
      TalliesAppend(a, b');
      assert (a + b)[..|a + b| - 1] == a + b';
    } else {
      assert a + b == a;
    }
  }

  // ---------------------------------------------------------------------------------------

  datatype StateOp = Added(record: Record) | Calculated

  /** raw.State, of which the model keeps only the calls made on it, in order. */
  class ZoneState {
    var ops: seq<StateOp>

    constructor ()
      ensures ops == []
    {
      ops := [];
    }

    method AddRecord(r: Record)
      modifies this
      ensures ops == old(ops) + [Added(r)]
    {
      ops := ops + [Added(r)];
    }

    method CalculateDNSSets()
      modifies this
      ensures ops == old(ops) + [Calculated]
    {
      ops := ops + [Calculated];
    }
  }

  class Environment {
    var trace: seq<Event>
    var domainPages: seq<Response<Domain>>
    var recordPages: map<string, seq<Response<DomainRecord>>>
    var writeOutcomes: seq<Option<Error>>
    var replies: Replies

    constructor (w: World, replies: Replies)
      ensures State() == w && this.replies == replies
    {
      trace, domainPages, recordPages, writeOutcomes := w.trace, w.domainPages, w.recordPages, w.writeOutcomes;
      this.replies := replies;
    }

    function State(): World
      reads this
    {
      World(trace, domainPages, recordPages, writeOutcomes)
    }

    /** provider.Metrics.AddRequests */
    method AddRequests(kind: RequestType, n: nat)
      modifies this
      ensures State() == old(State()).(trace := old(trace) + [MetricAdded(kind, n)])
      ensures replies == old(replies)
    {
      trace := trace + [MetricAdded(kind, n)];
    }

    /** flowcontrol.RateLimiter.Accept; its blocking is not modelled. */
    method Accept()
      modifies this
      ensures State() == old(State()).(trace := old(trace) + [TokenTaken])
      ensures replies == old(replies)
    {
      trace := trace + [TokenTaken];
    }

    /** godo DomainsService.List: answers with the next scripted page of domains. */
    method List(opt: ListOptions) returns (resp: Response<Domain>)
      modifies this
      ensures resp == NextResponse(old(domainPages))
      ensures State() == old(State()).(trace := old(trace) + [ListDomainsCall(opt)],
                                       domainPages := Drop(old(domainPages), 1))
      ensures replies == old(replies)
    {
      resp := NextResponse(domainPages);
      trace := trace + [ListDomainsCall(opt)];
      domainPages := Drop(domainPages, 1);
    }

    /** godo DomainsService.Records: answers with the next scripted page of the domain's records. */
    method Records(domain: string, opt: ListOptions) returns (resp: Response<DomainRecord>)
      modifies this
      ensures resp == NextResponse(Script(old(recordPages), domain))
      ensures State() == old(State()).(trace := old(trace) + [ListRecordsCall(domain, opt)],
                                       recordPages := Advance(old(recordPages), domain, 1))
      ensures replies == old(replies)
    {
      resp := NextResponse(Script(recordPages, domain));
      trace := trace + [ListRecordsCall(domain, opt)];
      recordPages := Advance(recordPages, domain, 1);
    }

    /** godo DomainsService.CreateRecord: answers with the next scripted write outcome. */
    method CreateRecord(domain: string, req: EditRequest) returns (err: Option<Error>)
      modifies this
      ensures err == NextOutcome(old(writeOutcomes))
      ensures State() == old(State()).(trace := old(trace) + [CreateRecordCall(domain, req)],
                                       writeOutcomes := Drop(old(writeOutcomes), 1))
      ensures replies == old(replies)
    {
      err := NextOutcome(writeOutcomes);
      trace := trace + [CreateRecordCall(domain, req)];
      writeOutcomes := Drop(writeOutcomes, 1);
    }

    /** godo DomainsService.EditRecord */
    method EditRecord(domain: string, id: int, req: EditRequest) returns (err: Option<Error>)
      modifies this
      ensures err == NextOutcome(old(writeOutcomes))
      ensures State() == old(State()).(trace := old(trace) + [EditRecordCall(domain, id, req)],
                                       writeOutcomes := Drop(old(writeOutcomes), 1))
      ensures replies == old(replies)
    {
      err := NextOutcome(writeOutcomes);
      trace := trace + [EditRecordCall(domain, id, req)];
      writeOutcomes := Drop(writeOutcomes, 1);
    }

    /** godo DomainsService.DeleteRecord */
    method DeleteRecord(domain: string, id: int) returns (err: Option<Error>)
      modifies this
      ensures err == NextOutcome(old(writeOutcomes))
      ensures State() == old(State()).(trace := old(trace) + [DeleteRecordCall(domain, id)],
                                       writeOutcomes := Drop(old(writeOutcomes), 1))
      ensures replies == old(replies)
    {
      err := NextOutcome(writeOutcomes);
      trace := trace + [DeleteRecordCall(domain, id)];
      writeOutcomes := Drop(writeOutcomes, 1);
    }

    /** raw.ExecuteRequests, whose internals are not part of this model. */
    method ExecuteRequests(zone: HostedZone, state: ZoneState, reqs: seq<ChangeRequest>) returns (err: Option<Error>)
      modifies this
      ensures err == replies.executed
      ensures State() == old(State()).(trace := old(trace) + [ExecuteCall(zone, state, reqs)])
      ensures replies == old(replies)
    {
      err := replies.executed;
      trace := trace + [ExecuteCall(zone, state, reqs)];
    }

    /** provider.ZoneCache.GetZones */
    method GetZones() returns (r: Result<seq<HostedZone>, Error>)
      modifies this
      ensures r == replies.zones
      ensures State() == old(State()).(trace := old(trace) + [GetZonesCall])
      ensures replies == old(replies)
    {
      r := replies.zones;
      trace := trace + [GetZonesCall];
    }

    /** provider.ZoneCache.GetZoneState */
    method GetZoneState(zone: HostedZone) returns (r: Result<ZoneState, Error>)
      modifies this
      ensures r == replies.zoneState
      ensures State() == old(State()).(trace := old(trace) + [GetZoneStateCall(zone)])
      ensures replies == old(replies)
    {
      r := replies.zoneState;
      trace := trace + [GetZoneStateCall(zone)];
    }

    /** provider.ZoneCache.ReportZoneStateConflict */
    method ReportZoneStateConflict(zone: HostedZone, err: Option<Error>) returns (retry: bool)
      modifies this
      ensures retry == replies.retry
      ensures State() == old(State()).(trace := old(trace) + [ReportConflictCall(zone, err)])
      ensures replies == old(replies)
    {
      retry := replies.retry;
      trace := trace + [ReportConflictCall(zone, err)];
    }

    /** provider.ZoneCache.ApplyRequests */
    method ApplyRequests(err: Option<Error>, zone: HostedZone, reqs: seq<ChangeRequest>)
      modifies this
      ensures State() == old(State()).(trace := old(trace) + [ApplyRequestsCall(err, zone, reqs)])
      ensures replies == old(replies)
    {
      trace := trace + [ApplyRequestsCall(err, zone, reqs)];
    }

    /** provider.ZoneCache.Release */
    method Release()
      modifies this
      ensures State() == old(State()).(trace := old(trace) + [ReleaseCall])
      ensures replies == old(replies)
    {
      trace := trace + [ReleaseCall];
    }
  }
}
