/** The resolution flow of the plugin's `ServeDNS` and `SearchWildcard`
    against an abstract record store. The SQL database is replaced by four
    lookup functions given as parameters; message assembly, writing the
    reply and calling the next plugin are replaced by the `Outcome` they are
    given. */
module Resolver {
  import opened Strings
  import opened Wildcard
  import opened Soa
  import opened Records

  /** An error reported by the database. */
  datatype StoreError = StoreError(message: string)

  /** The result of a query for record rows: rows (possibly none), the
      database's "record not found" error, or any other error. */
  datatype Lookup =
    | Rows(records: seq<StoredRecord>)
    | NotFound
    | Failed(err: StoreError)

  /** A row of the domains table: a zone apex. */
  datatype Domain = Domain(id: int, name: string)

  /** The result of looking up one domain. */
  datatype DomainLookup =
    | Found(domain: Domain)
    | NoDomain
    | DomainFailed(err: StoreError)

  /** The database as the plugin queries it.
      - `findRecords(name, type)`: rows whose name is like `name` and whose
        type is `'ANY'` or `type` (the exact lookup; an ANY query passes the
        empty type, so it finds only rows typed `''` or `'ANY'`);
      - `findSOA(name)`: the SOA rows at `name`;
      - `findDomain(name)`: at most one domain whose name is like `name`;
      - `findWildcards(id, type)`: rows of domain `id` of type `type` (or
        every type for `ANY`) whose name contains a `*`. */
  datatype Store = Store(
    findRecords: (string, string) -> Lookup,
    findSOA: string -> Lookup,
    findDomain: string -> DomainLookup,
    findWildcards: (int, string) -> Lookup)

  /** The question of an incoming request: the name as received, the type
      mnemonic and the class. */
  datatype Query = Query(qname: string, qtype: string, qclass: nat)

  /** The result of the wildcard search. */
  datatype Search =
    | Matched(records: seq<StoredRecord>)
    | SearchFailed(err: StoreError)

  /** The response code returned with a database error. */
  const RcodeNameError := 3

  /** What `ServeDNS` does with a request: write a reply with an answer and
      an additional section, hand the request to the next plugin, return a
      database error with a response code, or fail on the unguarded index
      into an empty SOA result. */
  datatype Outcome =
    | Reply(answer: seq<RR>, extra: seq<RR>)
    | NextHandler
    | Failure(rcode: int, err: StoreError)
    | IndexOutOfRange

  // ----- Normalisation -------------------------------------------------

  /** The name used for the exact lookup: the query name lower-cased, with
      its last character removed unless it is the root. */
  function LookupName(qname: string): (name: string)
    requires |qname| > 0
    ensures Lower(qname) == "." ==> name == "."
    ensures Lower(qname) != "." ==>
      |name| == |qname| - 1 && name + [LowerChar(qname[|qname| - 1])] == Lower(qname)
  {
    var l := Lower(qname);
    if l != "." then l[..|l| - 1] else l
  }

  /** For a fully qualified name other than the root, the lookup name is the
      lower-cased name without its trailing dot. */
  lemma LookupNameFqdn(qname: string)
    requires EndsWithDot(qname) && qname != "."
    ensures LookupName(qname) + "." == Lower(qname)
  {
    LowerRoot(qname);
  }

  /** The type filter of the exact lookup: `ANY` asks for no particular
      type, written as the empty type. */
  function TypeFilter(qtype: string): (filter: string)
    ensures filter == "" <==> qtype == "ANY" || qtype == ""
    ensures qtype != "ANY" ==> filter == qtype
  {
    if qtype == "ANY" then "" else qtype
  }

  // ----- Zone walk -----------------------------------------------------

  /** The names the zone walk asks the database about, in order: each is the
      previous one with everything through its first dot removed, for as
      long as that dot is not the first character. */
  function ZoneCandidates(name: string): (cs: seq<string>)
    ensures |cs| == 0 <==> IndexOf(name, '.') <= 0
    ensures forall k :: 0 <= k < |cs| ==> |cs[k]| < |name|
    decreases |name|
  {
    var i := IndexOf(name, '.');
    if i <= 0 then [] else [name[i + 1..]] + ZoneCandidates(name[i + 1..])
  }

  /** `s` is what remains of `name` after some prefix ending in a dot. */
  predicate DotSuffix(s: string, name: string)
  {
    |s| < |name| && name[|name| - |s| - 1] == '.' && name[|name| - |s|..] == s
  }

  /** Being a dot suffix carries over from a suffix to the whole name. */
  lemma DotSuffixTrans(s: string, mid: string, name: string)
    requires DotSuffix(s, mid) && |mid| <= |name| && mid == name[|name| - |mid|..]
    ensures DotSuffix(s, name)
  {
    assert name[|name| - |s|..] == mid[|mid| - |s|..];
    assert name[|name| - |s| - 1] == mid[|mid| - |s| - 1];
  }

  /** Every candidate is a proper suffix of the name that follows a dot, and
      the candidates get strictly shorter: the walk moves towards the root
      one label at a time. */
  lemma {:induction false} ZoneCandidatesSuffixes(name: string)
    ensures forall k :: 0 <= k < |ZoneCandidates(name)| ==> DotSuffix(ZoneCandidates(name)[k], name)
    ensures forall j, k :: 0 <= j < k < |ZoneCandidates(name)| ==>
      |ZoneCandidates(name)[k]| < |ZoneCandidates(name)[j]|
    decreases |name|
  {
    var i := IndexOf(name, '.');
    if i > 0 {
      var next := name[i + 1..];
      var rest := ZoneCandidates(next);
      var cs := ZoneCandidates(name);
      assert cs == [next] + rest;
      ZoneCandidatesSuffixes(next);
      assert DotSuffix(next, name);
      forall k | 0 < k < |cs| ensures DotSuffix(cs[k], name) {
        assert cs[k] == rest[k - 1] && 0 <= k - 1 < |rest|;
        assert DotSuffix(rest[k - 1], next);
        DotSuffixTrans(rest[k - 1], next, name);
      }
      forall j, k | 0 <= j < k < |cs| ensures |cs[k]| < |cs[j]| {
        assert cs[k] == rest[k - 1];
        if j > 0 {
          assert cs[j] == rest[j - 1];
        }
      }
    }
  }

  // ----- Wildcard filter -----------------------------------------------

  /** `a` can be obtained from `b` by deleting elements. */
  predicate IsSubsequence(a: seq<StoredRecord>, b: seq<StoredRecord>)
    decreases |b|
  {
    || |a| == 0
    || (&& |b| > 0
        && (|| (a[|a| - 1] == b[|b| - 1] && IsSubsequence(a[..|a| - 1], b[..|b| - 1]))
            || IsSubsequence(a, b[..|b| - 1])))
  }

  /** The candidate rows whose name matches `qnameNoDot`, in their order:
      exactly the matching ones survive. */
  function Keep(qnameNoDot: string, rows: seq<StoredRecord>): (kept: seq<StoredRecord>)
    ensures IsSubsequence(kept, rows)
    ensures forall k :: 0 <= k < |kept| ==> Matches(qnameNoDot, kept[k].name)
    ensures forall k :: 0 <= k < |rows| && Matches(qnameNoDot, rows[k].name) ==> rows[k] in kept
  {
    if |rows| == 0 then []
    else
      var init := rows[..|rows| - 1];
      var last := rows[|rows| - 1];
      var front := Keep(qnameNoDot, init);
      assert rows == init + [last];
      SubsequenceExtend(front, init, last);
      if Matches(qnameNoDot, last.name) then front + [last] else front
  }

  /** Filtering a sequence grown by one row keeps that row exactly when it
      matches. */
  lemma KeepSnoc(qnameNoDot: string, rows: seq<StoredRecord>, x: StoredRecord)
    ensures Keep(qnameNoDot, rows + [x]) ==
      Keep(qnameNoDot, rows) + (if Matches(qnameNoDot, x.name) then [x] else [])
  {
    var r := rows + [x];
    assert r[..|r| - 1] == rows && r[|r| - 1] == x;
  }

  /** Filtering a concatenation filters each part: with the one-row case
      (a row is kept exactly when it matches) this pins the filter down,
      order and repetitions included. */
  lemma {:induction false} KeepAppend(qnameNoDot: string, a: seq<StoredRecord>, b: seq<StoredRecord>)
    ensures Keep(qnameNoDot, a + b) == Keep(qnameNoDot, a) + Keep(qnameNoDot, b)
    decreases |b|
  {
    if |b| == 0 {
      assert a + b == a;
      assert Keep(qnameNoDot, b) == [];
    } else {
      var init, last := b[..|b| - 1], b[|b| - 1];
      assert b == init + [last];
      assert a + b == (a + init) + [last];
      KeepAppend(qnameNoDot, a, init);
      KeepSnoc(qnameNoDot, a + init, last);
      KeepSnoc(qnameNoDot, init, last);
      var ka, ki := Keep(qnameNoDot, a), Keep(qnameNoDot, init);
      var tail := if Matches(qnameNoDot, last.name) then [last] else [];
      assert (ka + ki) + tail == ka + (ki + tail);
    }
  }

  /** One row is kept exactly when its name matches. */
  lemma KeepSingle(qnameNoDot: string, r: StoredRecord)
    ensures Keep(qnameNoDot, [r]) == if Matches(qnameNoDot, r.name) then [r] else []
  {
    assert [r][..0] == [];
  }

  /** A subsequence stays one when the sequence grows at the end, with or
      without the new element. */
  lemma SubsequenceExtend(a: seq<StoredRecord>, b: seq<StoredRecord>, x: StoredRecord)
    requires IsSubsequence(a, b)
    ensures IsSubsequence(a + [x], b + [x]) && IsSubsequence(a, b + [x])
  {
    assert (a + [x])[..|a|] == a;
    assert (b + [x])[..|b|] == b;
  }

  /** The filter loop of `SearchWildcard`. */
  method FilterMatching(qnameNoDot: string, rows: seq<StoredRecord>) returns (matched: seq<StoredRecord>)
    ensures matched == Keep(qnameNoDot, rows)
  {
    matched := [];
    var i := 0;
    while i < |rows|
      invariant 0 <= i <= |rows|
      invariant matched == Keep(qnameNoDot, rows[..i])
    {
      var ok := WildcardMatch(qnameNoDot, rows[i].name);
      if ok {
        matched := matched + [rows[i]];
      }
      assert rows[..i + 1][..i] == rows[..i];
      i := i + 1;
    }
    assert rows[..|rows|] == rows;
  }

  // ----- Wildcard search -----------------------------------------------

  /** The wildcard candidates of a zone, filtered against the query name. */
  function InZone(store: Store, domain: Domain, qnameNoDot: string, qtype: string): Search
  {
    match store.findWildcards(domain.id, qtype)
    case NotFound => Matched([])
    case Failed(e) => SearchFailed(e)
    case Rows(rows) => Matched(Keep(qnameNoDot, rows))
  }

  /** The search inside the zone the walk found: its wildcard rows of the
      queried type, filtered against the query name. */
  method SearchZone(store: Store, domain: Domain, qnameNoDot: string, qtype: string) returns (res: Search)
    ensures res == InZone(store, domain, qnameNoDot, qtype)
  {
    var wild := store.findWildcards(domain.id, qtype);
    match wild {
      case NotFound =>
        return Matched([]);
      case Failed(e) =>
        return SearchFailed(e);
      case Rows(rows) =>
        var matched := FilterMatching(qnameNoDot, rows);
        return Matched(matched);
    }
  }

  /** The walk over the candidate zone names: the first name the database
      knows as a domain decides the result, an error ends the walk, and
      running out of names finds nothing. */
  function Walk(store: Store, candidates: seq<string>, qnameNoDot: string, qtype: string): Search
  {
    if |candidates| == 0 then Matched([])
    else
      match store.findDomain(candidates[0])
      case NoDomain => Walk(store, candidates[1..], qnameNoDot, qtype)
      case DomainFailed(e) => SearchFailed(e)
      case Found(d) => InZone(store, d, qnameNoDot, qtype)
  }

  /** Whatever zone the walk stops at, every row it returns matches the
      query name. */
  lemma {:induction false} WalkSound(store: Store, candidates: seq<string>, qnameNoDot: string, qtype: string)
    ensures var r := Walk(store, candidates, qnameNoDot, qtype);
      r.Matched? ==> forall k :: 0 <= k < |r.records| ==> Matches(qnameNoDot, r.records[k].name)
    decreases |candidates|
  {
    if |candidates| > 0 && store.findDomain(candidates[0]).NoDomain? {
      WalkSound(store, candidates[1..], qnameNoDot, qtype);
    }
  }

  /** The walk as the loop performs it: strip everything through the first
      dot, as long as that dot is not the first character, and ask the
      database about what remains. */
  function WalkFrom(store: Store, name: string, qnameNoDot: string, qtype: string): Search
    decreases |name|
  {
    var i := IndexOf(name, '.');
    if i <= 0 then Matched([])
    else
      var next := name[i + 1..];
      match store.findDomain(next)
      case NoDomain => WalkFrom(store, next, qnameNoDot, qtype)
      case DomainFailed(e) => SearchFailed(e)
      case Found(d) => InZone(store, d, qnameNoDot, qtype)
  }

  /** Stripping labels one at a time is the walk over the list of candidate
      zones. */
  lemma {:induction false} WalkFromCandidates(store: Store, name: string, qnameNoDot: string, qtype: string)
    ensures WalkFrom(store, name, qnameNoDot, qtype) == Walk(store, ZoneCandidates(name), qnameNoDot, qtype)
    decreases |name|
  {
    var i := IndexOf(name, '.');
    if i > 0 {
      var next := name[i + 1..];
      var cs := ZoneCandidates(name);
      assert cs[0] == next && cs[1..] == ZoneCandidates(next);
      WalkFromCandidates(store, next, qnameNoDot, qtype);
    }
  }

  /** What `SearchWildcard(qname, qtype)` returns. */
  function SearchSpec(store: Store, qname: string, qtype: string): Search
    requires |qname| > 0
  {
    var qnameNoDot := qname[..|qname| - 1];
    WalkFrom(store, qnameNoDot, qnameNoDot, qtype)
  }

  /** The wildcard search returns only rows whose name matches the query
      name without its final dot, and nothing for a name with no dot past
      its first character. */
  lemma SearchSound(store: Store, qname: string, qtype: string)
    requires |qname| > 0
    ensures var r := SearchSpec(store, qname, qtype);
      r.Matched? ==> forall k :: 0 <= k < |r.records| ==> Matches(qname[..|qname| - 1], r.records[k].name)
    ensures IndexOf(qname[..|qname| - 1], '.') <= 0 ==> SearchSpec(store, qname, qtype) == Matched([])
  {
    var qnameNoDot := qname[..|qname| - 1];
    WalkFromCandidates(store, qnameNoDot, qnameNoDot, qtype);
    WalkSound(store, ZoneCandidates(qnameNoDot), qnameNoDot, qtype);
  }

  /** `SearchWildcard`: strip the leading label until the database knows
      the rest as a domain, then keep that domain's wildcard rows whose name
      matches the query name without its last character. */
  method SearchWildcard(store: Store, qname: string, qtype: string) returns (res: Search)
    requires |qname| > 0
    ensures res == SearchSpec(store, qname, qtype)
  {
    var qnameNoDot := qname[..|qname| - 1];
    ghost var spec := SearchSpec(store, qname, qtype);
    var name := qnameNoDot;
    while true
      invariant WalkFrom(store, name, qnameNoDot, qtype) == spec
      decreases |name|
    {
      var i := IndexOf(name, '.');
      if i <= 0 {
        return Matched([]);
      }
      name := name[i + 1..];
      var found := store.findDomain(name);
      if found.DomainFailed? {
        return SearchFailed(found.err);
      }
      if found.Found? {
        res := SearchZone(store, found.domain, qnameNoDot, qtype);
        return;
      }
    }
  }

  // ----- ServeDNS ------------------------------------------------------

  /** What `ServeDNS` does with a request. A database error on the exact
      lookup is returned with RcodeNameError. "Not found" leads to the SOA
      lookup, whose record only ever lands in the additional section, so the
      answer stays empty and the request goes to the next plugin, unless
      the SOA lookup succeeds with no row at all. Rows are answered one
      record per row; no rows lead to the wildcard search. An empty answer
      always goes to the next plugin. */
  function Serve(store: Store, q: Query): (out: Outcome)
    requires |q.qname| > 0
    ensures out.Reply? ==> |out.answer| > 0 && out.extra == []
    ensures out.Reply? ==> forall k :: 0 <= k < |out.answer| ==>
      out.answer[k].hdr.name == WithTrailingDot(Lower(q.qname))
  {
    var qname := Lower(q.qname);
    var name := LookupName(q.qname);
    match store.findRecords(name, TypeFilter(q.qtype))
    case Failed(e) => Failure(RcodeNameError, e)
    case NotFound => if store.findSOA(name) == Rows([]) then IndexOutOfRange else NextHandler
    case Rows(rows) =>
      if |rows| > 0 then Reply(BuildAnswer(qname, q.qclass, rows), [])
      else
        match SearchSpec(store, qname, q.qtype)
        case SearchFailed(e) => Failure(RcodeNameError, e)
        case Matched(found) =>
          if |found| == 0 then NextHandler else Reply(BuildAnswer(qname, q.qclass, found), [])
  }

  /** `ServeDNS`: the message is assembled step by step, the SOA record of
      the "not found" branch included, and the outcome is the one `Serve`
      describes. */
  method ServeDNS(store: Store, q: Query) returns (out: Outcome)
    requires |q.qname| > 0
    ensures out == Serve(store, q)
    ensures out.Reply? ==> |out.answer| > 0 && out.extra == []
  {
    var qname := Lower(q.qname);
    var answer: seq<RR> := [];
    var extra: seq<RR> := [];
    var name := LookupName(q.qname);
    var filter := TypeFilter(q.qtype);
    match store.findRecords(name, filter) {
      case Failed(e) =>
        return Failure(RcodeNameError, e);
      case NotFound =>
        match store.findSOA(name) {
          case Rows(soas) =>
            if |soas| == 0 {
              return IndexOutOfRange;
            }
            var p := ParseSOA(EmptySOA, soas[0].content);
            if p.ok {
              extra := extra + [RR(Header(qname, RRType.SOA, q.qclass, 0), SOAData(p.rr))];
            }
          case NotFound =>
          case Failed(_) =>
        }
      case Rows(rows) =>
        var records := rows;
        if |records| == 0 {
          var found := SearchWildcard(store, qname, q.qtype);
          if found.SearchFailed? {
            return Failure(RcodeNameError, found.err);
          }
          records := found.records;
        }
        answer := BuildAnswer(qname, q.qclass, records);
    }
    if |answer| == 0 {
      return NextHandler;
    }
    return Reply(answer, extra);
  }
}
