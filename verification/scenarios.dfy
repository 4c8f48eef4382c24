/** Whole requests through `ServeDNS`: the exact answer of the plugin's
    end-to-end example, and how a wildcard row of a zone answers, or does
    not answer, names below the zone. */
module Scenarios {
  import opened Strings
  import opened Wildcard
  import opened Records
  import opened Resolver

  /** The one row of the end-to-end example: an A record at example.org. */
  const ExampleRow := StoredRecord(1, "example.org", A, "192.168.1.1", 3600, false)

  /** A database holding only the example row. */
  function ExampleStore(): Store
  {
    Store(
      (name: string, typ: string) => if name == "example.org" && typ == "A" then Rows([ExampleRow]) else Rows([]),
      (name: string) => Rows([]),
      (name: string) => NoDomain,
      (id: int, typ: string) => NotFound)
  }

  /** An A query for example.org. is answered with the stored address,
      owned by the fully qualified query name. */
  lemma ExactAnswer()
    ensures Serve(ExampleStore(), Query("example.org.", "A", 1)) ==
      Reply([RR(Header("example.org.", A, 1, 3600), AData("192.168.1.1"))], [])
  {
    var q := "example.org.";
    LowerFixed(q);
    assert LookupName(q) == q[..|q| - 1] == "example.org";
    assert EndsWithDot(q);
    assert BuildAnswer(q, 1, [ExampleRow]) == [BuildRR(q, 1, ExampleRow)];
  }

  /** For a query name one label below a zone the database knows, the exact
      lookup asks for the name without its dot and the walk stops at that
      zone. */
  lemma SearchOneLabelDown(store: Store, qname: string, x: string, zone: string, qtype: string)
    requires |x| > 0 && Free(x, '.') && store.findDomain(zone).Found?
    requires Lower(qname) == x + "." + zone + "."
    ensures |qname| > 0 && LookupName(qname) == x + "." + zone
    ensures SearchSpec(store, Lower(qname), qtype) ==
      InZone(store, store.findDomain(zone).domain, x + "." + zone, qtype)
  {
    var n := x + "." + zone;
    var q := Lower(qname);
    assert q[..|q| - 1] == n;
    assert q != "." by {
      assert q[0] == x[0] && x[0] != '.';
    }
    assert n[..|x|] == x;
    IndexOfIs(n, '.', |x|);
    assert n[|x| + 1..] == zone;
  }

  /** A query one label below a zone, with no exact row, is answered from the
      zone's `*` row, with the lower-cased query name (not the row's name)
      as owner. */
  lemma WildcardAnswersOneLabelDown(store: Store, qname: string, x: string, zone: string, w: StoredRecord, qtype: string, qclass: nat)
    requires |x| > 0 && Free(x, '.') && Lower(qname) == x + "." + zone + "."
    requires store.findRecords(x + "." + zone, TypeFilter(qtype)) == Rows([])
    requires store.findDomain(zone).Found?
    requires store.findWildcards(store.findDomain(zone).domain.id, qtype) == Rows([w])
    requires w.name == "*." + zone
    ensures |qname| > 0
    ensures Serve(store, Query(qname, qtype, qclass)) == Reply([BuildRR(x + "." + zone + ".", qclass, w)], [])
  {
    var n := x + "." + zone;
    SearchOneLabelDown(store, qname, x, zone, qtype);
    assert "*." + zone == "*" + "." + zone;
    StarMatchesAnyLeadingLabel(x, zone);
    assert Keep(n, [w]) == [w];
    assert BuildAnswer(Lower(qname), qclass, [w]) == [BuildRR(Lower(qname), qclass, w)];
  }

  /** A `*` row never answers the name it stands in front of: with no exact
      row, the request goes to the next plugin. */
  lemma WildcardSkipsItsOwnName(store: Store, qname: string, x: string, zone: string, w: StoredRecord, qtype: string, qclass: nat)
    requires |x| > 0 && Free(x, '.') && Lower(qname) == x + "." + zone + "."
    requires store.findRecords(x + "." + zone, TypeFilter(qtype)) == Rows([])
    requires store.findDomain(zone).Found?
    requires store.findWildcards(store.findDomain(zone).domain.id, qtype) == Rows([w])
    requires w.name == "*." + x + "." + zone
    ensures |qname| > 0
    ensures Serve(store, Query(qname, qtype, qclass)) == NextHandler
  {
    var n := x + "." + zone;
    SearchOneLabelDown(store, qname, x, zone, qtype);
    assert n != "." by {
      assert n[0] == x[0] && x[0] != '.';
    }
    assert w.name == "*." + n;
    StarNeverMatchesNoLabel(n);
    assert Keep(n, [w]) == [];
  }
}
