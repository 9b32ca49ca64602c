# DigitalOcean DNS provider adapter — a Dafny model

This project models the DigitalOcean adapter of external-dns-management: the client that
talks to the DigitalOcean domains API (`pkg/controller/provider/digitalocean/client.go`)
and the DNS handler built on it (`pkg/controller/provider/digitalocean/handler.go`).

- **Client** (`client.dfy`). `ListDomains` and `ListRecords` charge the metrics sink once and
  take one rate-limiter token, then request page 1 with 100 items per page. They append each
  page's items. They stop at a response with no links or marked as the last page. Otherwise
  they ask for the page after the one the response reports as current. Any error ends the
  listing with that error and no partial result. `CreateRecord`, `UpdateRecord` and
  `DeleteRecord` charge one request of their kind, take one token and make one API call.
  Update and delete first convert the record ID with `strconv.Atoi`, and a bad ID fails before
  anything is charged. Every submitted TTL is raised to at least 30 seconds. `NewRecord` builds
  a record with ID 0 in the zone's key domain.
- **Pagination** (`pagination.dfy`). The listing loop shared by both listings, as a function
  of the scripted answers, with an independent description: the items of every page up to the
  one that stops the listing, and the pages requested.
- **Record IDs** (`record_ids.dfy`). `strconv.Atoi` and `strconv.Itoa` on Go's 64-bit `int`,
  with the round trip between them.
- **Zones** (`zones.dfy`). How `getZones` builds hosted zones: one zone per domain, each
  forwarded the names of the NS records that are not at a domain's apex.
- **Handler** (`handler.dfy`). `GetZones`, `GetZoneState`, `ReportZoneStateConflict` and
  `Release` hand over to the zone cache. The cache's two loaders, `getZones` and
  `getZoneState`, read DigitalOcean through the client. `ExecuteRequests` runs a batch
  through the raw executor, reports the executor's error to the cache, and returns it.
- **Environment** (`environment.dfy`). The collaborators: the godo domains service, the
  metrics sink, the rate limiter, the zone cache, the raw executor and the raw zone state.
  They are one scripted fake that records every call, in order, in a single trace. The order
  of charging, throttling and remote calls is therefore stated exactly. Listings answer from
  scripts of pages, writes from a script of outcomes, and the cache and executor with fixed
  replies.

The DNSClient and Handler methods are proved against ghost functions of the environment
(`ListDomainsSpec`, `ListRecordsSpec`, `GetZonesSpec`). Lemmas then state what those
functions promise.

**The forwarded list is shared by all zones.** In `handler.go:75` the list `forwarded` is
declared once, outside the loop over domains, and each zone receives the list as it stands
after its own records are scanned. So zone i is forwarded the delegations of domains 0..i,
not only its own. `Zones.BuildZones` follows this, and `Zones.SharedForwardedExample` shows a
delegation of the first domain arriving in the second zone.

## Model

| member | source | states |
|---|---|---|
| Client.CreateRecordRequest | pkg/controller/provider/digitalocean/client.go:157-170 | type, name and value are copied; the TTL is at least 30 and at least the record's TTL, and is one of the two (max(ttl, 30)) |
| Client.CreateRecordRequestKeepsTTL | pkg/controller/provider/digitalocean/client.go:165-167 | a TTL of 30 or more is submitted unchanged |
| Client.NewRecord | pkg/controller/provider/digitalocean/client.go:148-155 | the record belongs to the zone's key domain, carries the given name, type, value and TTL, and has an ID that Atoi reads as 0 |
| Client.ListedRecordIdParses | pkg/controller/provider/digitalocean/client.go:119-122 | the ID of every listed record within Go's `int` range is accepted by update and delete and reads back as the same number |
| Client.ListDomainsChargesOnce | pkg/controller/provider/digitalocean/client.go:44-72 | a domain listing takes exactly one token and charges exactly one ListZones request, however many pages it reads; it makes one API call per page up to and including the stopping page |
| Client.ListRecordsChargesOnce | pkg/controller/provider/digitalocean/client.go:74-102 | the same for a record listing, charged as one ListRecords request |
| Client.ListDomainsRequests | pkg/controller/provider/digitalocean/client.go:48-69 | the first request asks for page 1 with 100 per page; after each continuing page the next request asks for that response's current page + 1 |
| Client.ListRecordsRequests | pkg/controller/provider/digitalocean/client.go:78-99 | the same page sequence for records, every request naming the listed domain |
| Client.WriteCharges | pkg/controller/provider/digitalocean/client.go:104-114 | a write that reaches DigitalOcean takes one token, charges one request of its kind and makes exactly one API call |
| Client.DNSClient.ListDomains | pkg/controller/provider/digitalocean/client.go:44-72 | the environment and result are those of the pagination specification: one charge, one token, then the requested pages in order |
| Client.DNSClient.ListRecords | pkg/controller/provider/digitalocean/client.go:74-102 | the same for the records of one domain |
| Client.DNSClient.CreateRecord | pkg/controller/provider/digitalocean/client.go:104-114 | trace grows by the charge, the token and the create call with the TTL-floored request, in that order; it fails exactly when the API call failed, with an error naming the operation, the record's type, name and value, and the API error |
| Client.DNSClient.UpdateRecord | pkg/controller/provider/digitalocean/client.go:116-131 | an ID Atoi refuses gives an ID error and leaves the environment untouched; otherwise charge, token and one edit call with the parsed ID and the TTL-floored request; it then fails exactly when the API call failed, with the wrapped API error |
| Client.DNSClient.DeleteRecord | pkg/controller/provider/digitalocean/client.go:133-146 | an ID Atoi refuses gives an ID error and leaves the environment untouched; otherwise charge, token and one delete call with the parsed ID; it then fails exactly when the API call failed, with the wrapped API error |
| Pagination.StopIndex | pkg/controller/provider/digitalocean/client.go:60-62 | the position of the first answer that does not continue the listing: all earlier answers continue it |
| Pagination.ListAllResult | pkg/controller/provider/digitalocean/client.go:53-71 | a listing stopped by answer k returns the items of pages 0..k-1 followed by page k's items, or, with nothing collected, the error of the request or of CurrentPage() |
| Pagination.ListAllStops | pkg/controller/provider/digitalocean/client.go:53-71 | every listing stops at its StopIndex, so ListAllResult describes every listing |
| Pagination.ListAllPages | pkg/controller/provider/digitalocean/client.go:49-69 | one request per page up to the stopping one; the first asks for the start page and each next one for the previous response's current page + 1 |
| RecordIds.ParseRecordId | pkg/controller/provider/digitalocean/client.go:119-122 | an accepted ID is an optionally signed run of decimal digits, the result is that run's signed decimal value, and it lies in Go's 64-bit `int` range |
| RecordIds.ParseRecordIdRefuses | pkg/controller/provider/digitalocean/client.go:134-137 | a signed run of digits whose value lies outside Go's 64-bit `int` range is refused (Atoi's range error) |
| RecordIds.ParseRecordIdAccepts | pkg/controller/provider/digitalocean/client.go:134-137 | every optionally signed run of digits within range is accepted, with its decimal value |
| RecordIds.ParseFormat | pkg/controller/provider/digitalocean/client.go:119-122 | Atoi reads back every `int` that Itoa writes |
| Zones.BuildZonesAt | pkg/controller/provider/digitalocean/handler.go:75-90 | zone i has domain i as its ID, key and domain, is public, and is forwarded the delegations of domains 0..i |
| Zones.BuildZonesStep | pkg/controller/provider/digitalocean/handler.go:82-89 | scanning one more domain appends its delegations to the shared list and appends one zone forwarded that list |
| Zones.DelegationsStep | pkg/controller/provider/digitalocean/handler.go:82-86 | one more record adds its name exactly when it is an NS record off the apex |
| Zones.DelegationsMembers | pkg/controller/provider/digitalocean/handler.go:82-86 | a name is a delegation of a domain iff some record of it is an NS record with that name other than the domain's name |
| Zones.ForwardedGrows | pkg/controller/provider/digitalocean/handler.go:75-86 | the shared list only grows: the list after fewer domains is a prefix of the list after more |
| Zones.ZonesForwardedGrow | pkg/controller/provider/digitalocean/handler.go:75-90 | an earlier zone's forwarded list is a prefix of every later zone's |
| Zones.ForwardedHas | pkg/controller/provider/digitalocean/handler.go:75-86 | every delegation of a scanned domain is in the shared list |
| Zones.ForwardedFrom | pkg/controller/provider/digitalocean/handler.go:75-86 | every name in the shared list is a delegation of some scanned domain |
| Zones.ForwardedMembers | pkg/controller/provider/digitalocean/handler.go:75-86 | both directions: the shared list holds exactly the delegations of the scanned domains |
| Zones.ZoneForwardedMembers | pkg/controller/provider/digitalocean/handler.go:75-90 | x is forwarded by zone i iff one of domains 0..i has a delegation for x |
| Zones.OneZoneExample | pkg/controller/provider/digitalocean/handler.go:82-89 | a zone with an apex A record and an NS record for sub.example.com is forwarded exactly ["sub.example.com"] |
| Zones.SharedForwardedExample | pkg/controller/provider/digitalocean/handler.go:75-90 | the second zone receives the first zone's delegation, and an apex NS record contributes nothing |
| Handler.AddAllAt | pkg/controller/provider/digitalocean/handler.go:106-109 | the i-th listed record becomes the i-th AddRecord, converted with the zone's domain |
| Handler.FetchRecordsCharges | pkg/controller/provider/digitalocean/handler.go:76-80 | listing the records of n domains takes n tokens and charges n ListRecords requests |
| Handler.GetZonesCharges | pkg/controller/provider/digitalocean/handler.go:67-93 | a successful getZones returns one zone per domain, takes 1 + n tokens and charges one ListZones and n ListRecords requests |
| Handler.GetZonesForwarded | pkg/controller/provider/digitalocean/handler.go:67-93 | zone i of getZones is the zone of domain i, of the handler's provider type, public, and forwarded exactly the delegations of domains 0..i |
| Handler.AppendDelegations | pkg/controller/provider/digitalocean/handler.go:82-86 | the scan appends exactly the domain's delegations, in listing order, to the shared list |
| Handler.Handler.LoadZones | pkg/controller/provider/digitalocean/handler.go:67-93 | the environment and result are those of GetZonesSpec: domain listing, then the record listing of each domain in order, stopping at the first error |
| Handler.Handler.LoadZoneState | pkg/controller/provider/digitalocean/handler.go:99-113 | a listing error is returned as is; otherwise a fresh zone state receives one AddRecord per listed record, in order, then one CalculateDNSSets |
| Handler.Handler.GetZones | pkg/controller/provider/digitalocean/handler.go:63-65 | the zone cache's answer, after exactly one cache call |
| Handler.Handler.GetZoneState | pkg/controller/provider/digitalocean/handler.go:95-97 | the zone cache's answer for the zone, after exactly one cache call |
| Handler.Handler.ReportZoneStateConflict | pkg/controller/provider/digitalocean/handler.go:115-117 | the zone cache's retry answer, after exactly one cache call |
| Handler.Handler.ExecuteRequests | pkg/controller/provider/digitalocean/handler.go:119-123 | the executor runs first, then the cache is given the executor's error, the zone and the batch, and that error is returned |
| Handler.Handler.Release | pkg/controller/provider/digitalocean/handler.go:59-61 | exactly one release call on the cache |

## Left out

- `NewDNSClient` and `NewHandler` (`client.go:39-42`, `handler.go:36-57`): building the godo client from the API token, reading the token property and configuring the zone cache. The constructors of `DNSClient` and `Handler` take a ready environment and a provider type.
- The zone cache's own behaviour (single-flight loading, expiry, what `ApplyRequests` does with the outcome, the disabled zone-state cache of `handler.go:51`). The cache is a fixed reply, and its calls are recorded in the trace.
- `raw.ExecuteRequests`, `raw.NewState`, `AddRecord` and `CalculateDNSSets` (package `raw`) are not part of this model. The executor returns a fixed outcome. A zone state keeps only the sequence of calls it received.
- `toRecord` and `Record.GetId` (`record.go`) are not part of this model. `Client.ToRecord` stands in for them: it copies type, name, value and TTL, attaches the domain, and writes the numeric ID in decimal.
- HTTP, `context.Background()`, JSON decoding and the godo response types. A response is a page of items with optional links (last-page flag and `CurrentPage()` result) or an error.
- The rate limiter's blocking: `Accept()` is a recorded event and does not wait.
- Client.DNSClient.ListDomains: a service that keeps answering "more pages" makes the Go loop run forever. The scripted service runs out of answers and then fails with `NoScriptedResponse`, so the modelled listing always ends.
- Client.DNSClient.ListRecords: the same script bound as for ListDomains.
- Client.WriteError: the error text built with `fmt.Errorf` is reduced to its parts (operation, type, name, value, cause). The conversion error of Atoi is reduced to the offending ID.
- Client.NewRecord: the `int64` TTL is assumed to fit Go's `int`, as it does on 64-bit platforms.
- The value of the `ProviderTypeDigitalOcean` constant is not part of this model. The handler is given its provider type.
- Logging: the logger passed to `ExecuteRequests` is dropped.
