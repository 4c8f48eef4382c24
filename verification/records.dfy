/** The stored rows the plugin reads and the answer records it builds from
    them: the per-record type switch of `ServeDNS`. */
module Records {
  import opened Strings
  import opened Numbers
  import opened Soa

  /** The record types the plugin turns into answers. */
  datatype RRType = SOA | A | AAAA | TXT | NS | PTR

  /** A row of the records table. The name carries no trailing dot and may
      hold a `*` label; the content is text whose meaning depends on the
      type. */
  datatype StoredRecord = StoredRecord(
    domainId: int,
    name: string,
    rtype: RRType,
    content: string,
    ttl: uint32,
    disabled: bool)

  /** The header every answer record carries. */
  datatype Header = Header(name: string, rrtype: RRType, rrclass: nat, ttl: uint32)

  /** The type-specific data of an answer record. Addresses are kept as the
      stored text. */
  datatype RData =
    | SOAData(soa: SOAFields)
    | AData(a: string)
    | AAAAData(aaaa: string)
    | TXTData(txt: seq<string>)
    | NSData(ns: string)
    | PTRData(ptr: string)
  {
    /** The record type this data belongs to. */
    function Kind(): RRType
    {
      match this
      case SOAData(_) => RRType.SOA
      case AData(_) => A
      case AAAAData(_) => AAAA
      case TXTData(_) => TXT
      case NSData(_) => NS
      case PTRData(_) => PTR
    }
  }

  /** An answer record. */
  datatype RR = RR(hdr: Header, data: RData)

  predicate EndsWithDot(s: string)
  {
    |s| > 0 && s[|s| - 1] == '.'
  }

  /** `s` with a dot appended unless it already ends in one. */
  function WithTrailingDot(s: string): (r: string)
    ensures EndsWithDot(r)
    ensures |r| == |s| || |r| == |s| + 1
    ensures |s| <= |r| && r[..|s|] == s
    ensures EndsWithDot(s) <==> r == s
  {
    if EndsWithDot(s) then s else s + "."
  }

  /** Appending the trailing dot a second time changes nothing. */
  lemma WithTrailingDotIdempotent(s: string)
    ensures WithTrailingDot(WithTrailingDot(s)) == WithTrailingDot(s)
  {
  }

  /** The header of every answer to a query: the query name (already
      lower-cased) with a trailing dot ensured, the type of the row, the
      query class and the stored TTL. */
  function BuildHeader(qname: string, qclass: nat, v: StoredRecord): (h: Header)
    ensures EndsWithDot(h.name) && h.name == WithTrailingDot(qname)
    ensures h.rrtype == v.rtype && h.rrclass == qclass && h.ttl == v.ttl
  {
    Header(WithTrailingDot(qname), v.rtype, qclass, v.ttl)
  }

  /** The data of the answer for one row. TXT content becomes a single
      segment, NS and address content is kept verbatim, a PTR target gets a
      trailing dot unless it has one. An SOA row whose content does not
      parse still yields SOA data, holding the fields the parse wrote before
      it stopped. */
  function BuildData(v: StoredRecord): (d: RData)
    ensures d.Kind() == v.rtype
    ensures v.rtype == TXT ==> d.txt == [v.content]
    ensures v.rtype == NS ==> d.ns == v.content
    ensures v.rtype == A ==> d.a == v.content
    ensures v.rtype == AAAA ==> d.aaaa == v.content
    ensures v.rtype == PTR ==> EndsWithDot(d.ptr) && d.ptr == WithTrailingDot(v.content)
    ensures v.rtype == RRType.SOA ==> d.soa == ParseSOA(EmptySOA, v.content).rr
  {
    match v.rtype
    case SOA => SOAData(ParseSOA(EmptySOA, v.content).rr)
    case A => AData(v.content)
    case AAAA => AAAAData(v.content)
    case TXT => TXTData([v.content])
    case NS => NSData(v.content)
    case PTR => PTRData(WithTrailingDot(v.content))
  }

  /** The answer record for one stored row. */
  function BuildRR(qname: string, qclass: nat, v: StoredRecord): RR
  {
    RR(BuildHeader(qname, qclass, v), BuildData(v))
  }

  /** Building a PTR answer from content that is itself a built PTR target
      gives the same target: the dot is added at most once. */
  lemma PtrTargetIdempotent(qname: string, qclass: nat, v: StoredRecord)
    requires v.rtype == PTR
    ensures var r := BuildRR(qname, qclass, v);
      BuildRR(qname, qclass, v.(content := r.data.ptr)).data == r.data
  {
  }

  /** An SOA row stored in its canonical form (seven space-separated fields,
      timers in decimal, names without spaces) is answered with exactly the
      fields it was stored from. */
  lemma CanonicalSOARow(v: StoredRecord, f: SOAFields)
    requires v.rtype == RRType.SOA && v.content == FormatSOA(f)
    requires Free(f.ns, ' ') && Free(f.mbox, ' ')
    ensures BuildData(v) == SOAData(f)
  {
    ParseFormatSOA(EmptySOA, f);
  }

  /** An SOA row whose content does not parse is answered all the same: the
      record is not dropped, and with fewer than seven tokens it carries the
      empty SOA data. */
  lemma MalformedSOAIsKept(qname: string, qclass: nat, v: StoredRecord)
    requires v.rtype == RRType.SOA && !ParseSOA(EmptySOA, v.content).ok
    ensures BuildRR(qname, qclass, v).data.SOAData?
    ensures |Split(v.content, ' ')| < SOATokens ==> BuildRR(qname, qclass, v).data == SOAData(EmptySOA)
  {
  }

  /** The answer section built from the rows, one record per row in row
      order: no row is dropped. */
  function BuildAnswer(qname: string, qclass: nat, rows: seq<StoredRecord>): (answer: seq<RR>)
    ensures |answer| == |rows|
    ensures forall k :: 0 <= k < |rows| ==> answer[k] == BuildRR(qname, qclass, rows[k])
  {
    if |rows| == 0 then []
    else
      var init := rows[..|rows| - 1];
      var front := BuildAnswer(qname, qclass, init);
      assert forall k :: 0 <= k < |init| ==> init[k] == rows[k];
      front + [BuildRR(qname, qclass, rows[|rows| - 1])]
  }
}
