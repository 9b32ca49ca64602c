/** Zone construction as getZones does it: one hosted zone per domain, whose forwarded
    subdomains are the NS delegations found so far. The list of delegations is shared by
    the whole enumeration, so a zone also receives the delegations of every domain listed
    before it. */
module Zones {
  import opened DnsTypes

  /** A record that names a forwarded subdomain of `domain`: an NS record whose name is not
      the domain's own name. */
  predicate IsDelegation(r: DomainRecord, domain: string) {
    r.rtype == RS_NS && r.name != domain
  }

  /** The names of the delegations among a domain's records, in listing order. */
  function Delegations(records: seq<DomainRecord>, domain: string): seq<string> {
    if records == [] then []
    else
      var last := records[|records| - 1];
      Delegations(records[..|records| - 1], domain) + (if IsDelegation(last, domain) then [last.name] else [])
  }

  /** Scanning one more record appends its name when it is a delegation. */
  lemma DelegationsStep(records: seq<DomainRecord>, domain: string, j: nat)
    requires j < |records|
    ensures Delegations(records[..j + 1], domain)
              == Delegations(records[..j], domain) + (if IsDelegation(records[j], domain) then [records[j].name] else [])
  {
    assert records[..j + 1][..j] == records[..j];
  }

  /** The shared forwarded list after the records of the given domains have been scanned. */
  function Forwarded(names: seq<string>, lists: seq<seq<DomainRecord>>): seq<string>
    requires |names| == |lists|
  {
    if names == [] then []
    else Forwarded(names[..|names| - 1], lists[..|lists| - 1]) + Delegations(lists[|lists| - 1], names[|names| - 1])
  }

  /** provider.NewDNSHostedZone(providerType, name, name, name, forwarded, false). */
  function ZoneFor(providerType: string, name: string, forwarded: seq<string>): HostedZone {
    HostedZone(providerType, name, name, name, forwarded, false)
  }

  /** The zones of the given domains, whose listed records are `lists`, in domain order. */
  function BuildZones(providerType: string, names: seq<string>, lists: seq<seq<DomainRecord>>): (zones: seq<HostedZone>)
    requires |names| == |lists|
    ensures |zones| == |names|
  {
    if names == [] then []
    else
      var n := |names| - 1;
      BuildZones(providerType, names[..n], lists[..n]) + [ZoneFor(providerType, names[n], Forwarded(names, lists))]
  }

  /** Zone i is named, keyed and identified by domain i, and is forwarded the delegations of
      domains 0..i. */
  lemma {:induction false} BuildZonesAt(providerType: string, names: seq<string>, lists: seq<seq<DomainRecord>>, i: nat)
    requires |names| == |lists| && i < |names|
    ensures BuildZones(providerType, names, lists)[i]
              == ZoneFor(providerType, names[i], Forwarded(names[..i + 1], lists[..i + 1]))
    decreases |names|
  {
    var n := |names| - 1;
    if i < n {
      BuildZonesAt(providerType, names[..n], lists[..n], i);
      assert names[..n][..i + 1] == names[..i + 1] && lists[..n][..i + 1] == lists[..i + 1];
    } else {
      assert names[..i + 1] == names && lists[..i + 1] == lists;
    }
  }

  /** Scanning one more domain appends its delegations to the shared list and one zone,
      forwarded that list, to the zones. */
  lemma BuildZonesStep(providerType: string, names: seq<string>, lists: seq<seq<DomainRecord>>, records: seq<DomainRecord>)
    requires |lists| < |names|
    ensures var i := |lists|;
            && Forwarded(names[..i + 1], lists + [records]) == Forwarded(names[..i], lists) + Delegations(records, names[i])
            && BuildZones(providerType, names[..i + 1], lists + [records])
                 == BuildZones(providerType, names[..i], lists) + [ZoneFor(providerType, names[i], Forwarded(names[..i], lists) + Delegations(records, names[i]))]
  {
    var i := |lists|;
    assert names[..i + 1][..i] == names[..i] && (lists + [records])[..i] == lists;
  }

  // ---------------------------------------------------------------------------------------

  /** A name is a delegation of a domain exactly when some record of it is an NS record for
      that name other than the domain's own name; non-NS records and apex NS records never
      contribute. */
  lemma {:induction false} DelegationsMembers(records: seq<DomainRecord>, domain: string, x: string)
    ensures x in Delegations(records, domain) <==> exists r :: r in records && IsDelegation(r, domain) && r.name == x
    decreases |records|
  {
    if records != [] {
      var init := records[..|records| - 1];
      var last := records[|records| - 1];
      DelegationsMembers(init, domain, x);
      assert records == init + [last];
      if exists r :: r in records && IsDelegation(r, domain) && r.name == x {
        var r :| r in records && IsDelegation(r, domain) && r.name == x;
        if r != last {
          assert r in init;
        }
      }
    }
  }

  /** The delegations found in fewer domains are a prefix of those found in more. */
  lemma {:induction false} ForwardedGrows(names: seq<string>, lists: seq<seq<DomainRecord>>, k: nat)
    requires |names| == |lists| && k <= |names|
    ensures Forwarded(names[..k], lists[..k]) <= Forwarded(names, lists)
    decreases |names|
  {
    if k < |names| {
      var n := |names| - 1;
      ForwardedGrows(names[..n], lists[..n], k);
      assert names[..n][..k] == names[..k] && lists[..n][..k] == lists[..k];
    } else {
      assert names[..k] == names && lists[..k] == lists;
    }
  }

  /** The forwarded list of a later zone extends that of every earlier zone. */
  lemma ZonesForwardedGrow(providerType: string, names: seq<string>, lists: seq<seq<DomainRecord>>, i: nat, j: nat)
    requires |names| == |lists| && i <= j < |names|
    ensures BuildZones(providerType, names, lists)[i].forwarded <= BuildZones(providerType, names, lists)[j].forwarded
  {
    BuildZonesAt(providerType, names, lists, i);
    BuildZonesAt(providerType, names, lists, j);
    ForwardedGrows(names[..j + 1], lists[..j + 1], i + 1);
    assert names[..j + 1][..i + 1] == names[..i + 1] && lists[..j + 1][..i + 1] == lists[..i + 1];
  }

  /** A delegation of any scanned domain is in the shared list. */
  lemma ForwardedHas(names: seq<string>, lists: seq<seq<DomainRecord>>, j: nat, x: string)
    requires |names| == |lists| && j < |names|
    requires x in Delegations(lists[j], names[j])
    ensures x in Forwarded(names, lists)
  {
    ForwardedGrows(names, lists, j + 1);
    var ns, ls := names[..j + 1], lists[..j + 1];
    assert ns[..j] == names[..j] && ls[..j] == lists[..j];
    assert Forwarded(ns, ls) == Forwarded(names[..j], lists[..j]) + Delegations(lists[j], names[j]);
  }

  /** Every name in the shared list is a delegation of one of the scanned domains. */
  lemma {:induction false} ForwardedFrom(names: seq<string>, lists: seq<seq<DomainRecord>>, x: string) returns (j: nat)
    requires |names| == |lists|
    requires x in Forwarded(names, lists)
    ensures j < |names| && x in Delegations(lists[j], names[j])
    decreases |names|
  {
    var n := |names| - 1;
    if x in Delegations(lists[n], names[n]) {
      j := n;
    } else {
      j := ForwardedFrom(names[..n], lists[..n], x);
      assert names[..n][j] == names[j] && lists[..n][j] == lists[j];
    }
  }

  /** The shared list holds exactly the delegations of the domains scanned so far. */
  lemma ForwardedMembers(names: seq<string>, lists: seq<seq<DomainRecord>>, x: string)
    requires |names| == |lists|
    ensures x in Forwarded(names, lists) <==> exists j :: 0 <= j < |names| && x in Delegations(lists[j], names[j])
  {
    if x in Forwarded(names, lists) {
      var j := ForwardedFrom(names, lists, x);
    }
    if exists j :: 0 <= j < |names| && x in Delegations(lists[j], names[j]) {
      var j :| 0 <= j < |names| && x in Delegations(lists[j], names[j]);
      ForwardedHas(names, lists, j, x);
    }
  }

  /** Zone i's forwarded list names a subdomain exactly when one of the domains 0..i has a
      delegation for it: its own delegations and those of every domain listed before it. */
  lemma ZoneForwardedMembers(providerType: string, names: seq<string>, lists: seq<seq<DomainRecord>>, i: nat, x: string)
    requires |names| == |lists| && i < |names|
    ensures x in BuildZones(providerType, names, lists)[i].forwarded <==>
              exists j :: 0 <= j <= i && x in Delegations(lists[j], names[j])
  {
    BuildZonesAt(providerType, names, lists, i);
    ForwardedMembers(names[..i + 1], lists[..i + 1], x);
    if exists j :: 0 <= j <= i && x in Delegations(lists[j], names[j]) {
      var j :| 0 <= j <= i && x in Delegations(lists[j], names[j]);
      assert x in Delegations(lists[..i + 1][j], names[..i + 1][j]);
    }
  }

  /** A zone with an address record at its apex and a delegation of "sub.example.com" is
      forwarded exactly that subdomain. */
  lemma OneZoneExample()
    ensures var a := DomainRecord(1, "A", "example.com", "1.2.3.4", 10);
            var ns := DomainRecord(2, "NS", "sub.example.com", "ns1.example.com", 3600);
            BuildZones("digitalocean-dns", ["example.com"], [[a, ns]])
              == [HostedZone("digitalocean-dns", "example.com", "example.com", "example.com", ["sub.example.com"], false)]
  {
    var a := DomainRecord(1, "A", "example.com", "1.2.3.4", 10);
    var ns := DomainRecord(2, "NS", "sub.example.com", "ns1.example.com", 3600);
    assert [a, ns][..1] == [a] && [a][..0] == [];
    assert !IsDelegation(a, "example.com") && IsDelegation(ns, "example.com");
    assert Delegations([a], "example.com") == [];
    assert Delegations([a, ns], "example.com") == ["sub.example.com"];
    var names := ["example.com"];
    var lists := [[a, ns]];
    assert names[..0] == [] && lists[..0] == [];
    assert Forwarded(names, lists) == ["sub.example.com"];
    assert BuildZones("digitalocean-dns", names, lists)
             == BuildZones("digitalocean-dns", [], []) + [ZoneFor("digitalocean-dns", "example.com", ["sub.example.com"])];
  }

  /** Because the forwarded list is shared, the second of two zones also receives the
      first zone's delegation, and an apex NS record delegates nothing. */
  lemma SharedForwardedExample()
    ensures var sub := DomainRecord(1, "NS", "sub.a.org", "ns1.a.org", 3600);
            var apex := DomainRecord(2, "NS", "b.org", "ns1.b.org", 3600);
            var zones := BuildZones("digitalocean-dns", ["a.org", "b.org"], [[sub], [apex]]);
            zones[0].forwarded == ["sub.a.org"] && zones[1].forwarded == ["sub.a.org"]
  {
    var sub := DomainRecord(1, "NS", "sub.a.org", "ns1.a.org", 3600);
    var apex := DomainRecord(2, "NS", "b.org", "ns1.b.org", 3600);
    var names := ["a.org", "b.org"];
    var lists := [[sub], [apex]];
    assert [sub][..0] == [] && [apex][..0] == [];
    assert Delegations([sub], "a.org") == ["sub.a.org"];
    assert Delegations([apex], "b.org") == [];
    assert names[..1] == ["a.org"] && lists[..1] == [[sub]];
    assert names[..1][..0] == [] && lists[..1][..0] == [];
    assert names[..2] == names && lists[..2] == lists;
    assert Forwarded(names[..1], lists[..1]) == ["sub.a.org"];
    assert Forwarded(names, lists) == ["sub.a.org"];
    BuildZonesAt("digitalocean-dns", names, lists, 0);
    BuildZonesAt("digitalocean-dns", names, lists, 1);
  }
}
