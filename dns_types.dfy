/** The values the DigitalOcean adapter exchanges with the godo client, the metrics sink and
    the zone cache. Everything here is an immutable value; the collaborators that hold state
    live in module Environment. */
module DnsTypes {
  import opened Wrappers

  /** An error as the adapter sees it: either produced by a collaborator or built by the
      adapter itself. The text of Go's `fmt.Errorf` messages is not modelled, only the facts
      they carry. */
  datatype Error =
    | ApiError(message: string)           // an error returned by the DigitalOcean API or by godo
    | NoScriptedResponse                  // the scripted fake service has no answer left
    | InvalidRecordId(id: string)         // a record ID that strconv.Atoi refuses
    | WriteFailed(op: WriteOp, rtype: string, dnsName: string, value: string, cause: Error)

  datatype WriteOp = Create | Update | Delete

  /** godo.Domain, reduced to the field the adapter reads. */
  datatype Domain = Domain(name: string)

  /** godo.DomainRecord, reduced to the fields the adapter reads or writes. */
  datatype DomainRecord = DomainRecord(id: int, rtype: string, name: string, data: string, ttl: int)

  /** godo.ListOptions. */
  datatype ListOptions = ListOptions(page: int, perPage: int)

  /** godo.Links: whether the response is the last page, and what `CurrentPage()` answers
      (a page number, or the error it reports when the links cannot be parsed). */
  datatype Links = Links(isLastPage: bool, currentPage: Result<int, Error>)

  /** One answer of a paginated godo listing call: a page of items with optional links,
      or an error. */
  datatype Response<T> = Page(items: seq<T>, links: Option<Links>) | Failed(err: Error)

  /** godo.DomainRecordEditRequest. */
  datatype EditRequest = EditRequest(rtype: string, name: string, data: string, ttl: int)

  /** A record as the raw provider layer hands it to the client: what its accessors
      GetId, GetType, GetDNSName, GetValue and GetTTL return, together with the domain the
      concrete record type carries. */
  datatype Record = Record(id: string, rtype: string, dnsName: string, value: string, ttl: int, domain: string)

  /** provider.DNSHostedZone as built by provider.NewDNSHostedZone. */
  datatype HostedZone = HostedZone(
    providerType: string, id: string, key: string, domain: string,
    forwarded: seq<string>, isPrivate: bool)

  datatype ChangeAction = CreateAction | UpdateAction | DeleteAction

  /** provider.ChangeRequest; the adapter only passes these through. */
  datatype ChangeRequest = ChangeRequest(action: ChangeAction, rtype: string, dnsName: string)

  /** The metric kinds the client reports (provider.M_LISTZONES and friends). */
  datatype RequestType = ListZones | ListRecords | CreateRecords | UpdateRecords | DeleteRecords

  /** The DNS record type of name-server delegations (dns.RS_NS). */
  const RS_NS: string := "NS"
}
