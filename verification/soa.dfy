/** `ParseSOA`: reading the seven SOA fields, in the RDATA order of section
    3.3.13 of RFC 1035 (MNAME, RNAME, SERIAL, REFRESH, RETRY, EXPIRE,
    MINIMUM), from the space-separated content of a stored record. */
module Soa {
  import opened Strings
  import opened Numbers

  /** The data of an SOA resource record, named as in the DNS library. */
  datatype SOAFields = SOAFields(
    ns: string,
    mbox: string,
    serial: uint32,
    refresh: uint32,
    retry: uint32,
    expire: uint32,
    minttl: uint32)

  /** A freshly allocated SOA record: every field zero. */
  const EmptySOA := SOAFields("", "", 0, 0, 0, 0, 0)

  /** Whether the parse succeeded, and the record as the parse left it. */
  datatype Parsed = Parsed(ok: bool, rr: SOAFields)

  /** The number of space-separated tokens the content must provide. */
  const SOATokens := 7

  /** Timer `j` of an SOA record, numbered by the token it is read from:
      2 serial, 3 refresh, 4 retry, 5 expire, 6 minimum TTL. */
  function Timer(rr: SOAFields, j: nat): uint32
    requires 2 <= j < SOATokens
  {
    if j == 2 then rr.serial
    else if j == 3 then rr.refresh
    else if j == 4 then rr.retry
    else if j == 5 then rr.expire
    else rr.minttl
  }

  /** `rr` with timer `j` set to `v`. */
  function WithTimer(rr: SOAFields, j: nat, v: uint32): (r: SOAFields)
    requires 2 <= j < SOATokens
    ensures Timer(r, j) == v
    ensures forall k :: 2 <= k < SOATokens && k != j ==> Timer(r, k) == Timer(rr, k)
    ensures r.ns == rr.ns && r.mbox == rr.mbox
  {
    if j == 2 then rr.(serial := v)
    else if j == 3 then rr.(refresh := v)
    else if j == 4 then rr.(retry := v)
    else if j == 5 then rr.(expire := v)
    else rr.(minttl := v)
  }

  /** Tokens `from` to `last` of `t` all read as integers. */
  predicate ReadFrom(t: seq<string>, from: nat, last: nat)
    requires |t| >= SOATokens && last < SOATokens
  {
    forall k :: from <= k <= last ==> Atoi(t[k]).Some?
  }

  /** Once token `from` reads as an integer, reading from `from` is reading
      from the next token on. */
  lemma ReadFromStep(t: seq<string>, from: nat)
    requires |t| >= SOATokens && from < SOATokens - 1 && Atoi(t[from]).Some?
    ensures forall k :: from < k < SOATokens ==> (ReadFrom(t, from, k) <==> ReadFrom(t, from + 1, k))
  {
  }

  /** The content has seven tokens and tokens 2 to `last` all read as
      integers: the parse gets as far as writing timer `last`. */
  predicate ParsedThrough(t: seq<string>, last: nat)
    requires last < SOATokens
  {
    |t| >= SOATokens && ReadFrom(t, 2, last)
  }

  /** The value written for numeric token `j`: Go's `uint32(i)`. */
  function Field(t: seq<string>, j: nat): uint32
    requires 2 <= j < SOATokens && |t| >= SOATokens && Atoi(t[j]).Some?
  {
    Uint32(Atoi(t[j]).value)
  }

  /** The timers from token `from` on, written one at a time until a token
      does not read as an integer. */
  function ParseTimers(rr: SOAFields, t: seq<string>, from: nat): (p: Parsed)
    requires |t| >= SOATokens && 2 <= from < SOATokens
    ensures p.ok <==> ReadFrom(t, from, SOATokens - 1)
    ensures p.rr.ns == rr.ns && p.rr.mbox == rr.mbox
    ensures forall k :: 2 <= k < SOATokens ==>
      Timer(p.rr, k) == (if from <= k && ReadFrom(t, from, k) then Field(t, k) else Timer(rr, k))
    decreases SOATokens - from
  {
    match Atoi(t[from])
    case None => Parsed(false, rr)
    case Some(v) =>
      var rr' := WithTimer(rr, from, Uint32(v));
      if from == SOATokens - 1 then Parsed(true, rr')
      else
        ReadFromStep(t, from);
        ParseTimers(rr', t, from + 1)
  }

  /** `ParseSOA(rr, line)`: too few tokens fail before anything is written;
      otherwise the names are written, then the timers one after the other,
      and the parse stops at the first token that is not an integer, so a
      failed parse leaves the fields before it written. */
  function ParseSOA(rr: SOAFields, line: string): (p: Parsed)
    ensures var t := Split(line, ' ');
      && (p.ok <==> ParsedThrough(t, SOATokens - 1))
      && (|t| < SOATokens ==> p.rr == rr)
      && (|t| >= SOATokens ==> p.rr.ns == t[0] && p.rr.mbox == t[1])
      && forall k :: 2 <= k < SOATokens ==>
           Timer(p.rr, k) == (if ParsedThrough(t, k) then Field(t, k) else Timer(rr, k))
  {
    var t := Split(line, ' ');
    if |t| < SOATokens then Parsed(false, rr)
    else ParseTimers(rr.(ns := t[0], mbox := t[1]), t, 2)
  }

  /** A successful parse fills every field from the first seven tokens,
      whatever the record held before. */
  lemma ParseSOAComplete(rr: SOAFields, line: string)
    requires ParseSOA(rr, line).ok
    ensures var t := Split(line, ' ');
      ParseSOA(rr, line).rr ==
        SOAFields(t[0], t[1], Field(t, 2), Field(t, 3), Field(t, 4), Field(t, 5), Field(t, 6))
  {
    var p := ParseSOA(rr, line);
    assert Timer(p.rr, 2) == p.rr.serial && Timer(p.rr, 3) == p.rr.refresh;
    assert Timer(p.rr, 4) == p.rr.retry && Timer(p.rr, 5) == p.rr.expire;
    assert Timer(p.rr, 6) == p.rr.minttl;
  }

  /** The content an SOA record is stored as: the seven fields, in order,
      separated by single spaces, the timers in decimal. */
  function FormatSOA(f: SOAFields): string
  {
    Join(Tokens(f), ' ')
  }

  /** A decimal numeral holds no space. */
  lemma ItoaFree(n: nat)
    ensures Free(Itoa(n), ' ')
  {
  }

  /** The tokens of the stored form of `f`. */
  function Tokens(f: SOAFields): seq<string>
  {
    [f.ns, f.mbox, Itoa(f.serial), Itoa(f.refresh), Itoa(f.retry), Itoa(f.expire), Itoa(f.minttl)]
  }

  /** A numeric token written by Itoa reads back as the value it was
      written from. */
  lemma FieldItoa(t: seq<string>, j: nat, v: uint32)
    requires 2 <= j < SOATokens && |t| >= SOATokens && t[j] == Itoa(v)
    ensures Atoi(t[j]).Some? && Field(t, j) == v
  {
    AtoiItoa(v);
  }

  /** Content whose tokens are those of `f` parses to `f`. */
  lemma ParseTokens(rr: SOAFields, line: string, f: SOAFields)
    requires Split(line, ' ') == Tokens(f)
    ensures ParseSOA(rr, line) == Parsed(true, f)
  {
    var t := Tokens(f);
    var values := [0, 0, f.serial, f.refresh, f.retry, f.expire, f.minttl];
    forall k | 2 <= k < SOATokens
      ensures Atoi(t[k]).Some? && Field(t, k) == values[k]
    {
      FieldItoa(t, k, values[k]);
    }
    ParseSOAComplete(rr, line);
  }

  /** Parsing the stored form of an SOA record gives the record back, as long
      as the two names hold no space. */
  lemma ParseFormatSOA(rr: SOAFields, f: SOAFields)
    requires Free(f.ns, ' ') && Free(f.mbox, ' ')
    ensures ParseSOA(rr, FormatSOA(f)) == Parsed(true, f)
  {
    var t := Tokens(f);
    ItoaFree(f.serial);
    ItoaFree(f.refresh);
    ItoaFree(f.retry);
    ItoaFree(f.expire);
    ItoaFree(f.minttl);
    SplitJoin(t, ' ');
    ParseTokens(rr, FormatSOA(f), f);
  }

  /** Content with fewer than seven tokens is rejected and nothing is
      written. */
  lemma ParseSOATooFewTokens(rr: SOAFields, line: string)
    requires |Split(line, ' ')| < SOATokens
    ensures ParseSOA(rr, line) == Parsed(false, rr)
  {
  }

  /** Tokens after the seventh are never read: appending more changes
      nothing. */
  lemma ParseSOAIgnoresExtraTokens(rr: SOAFields, line: string, extra: string)
    requires |Split(line, ' ')| >= SOATokens
    ensures ParseSOA(rr, line + " " + extra) == ParseSOA(rr, line)
  {
    var t := Split(line, ' ');
    assert line + " " + extra == line + [' '] + extra;
    SplitAppend(line, extra, ' ');
    var t' := Split(line + " " + extra, ' ');
    assert forall j :: 0 <= j < SOATokens ==> t'[j] == t[j];
  }

  /** The fields before the first malformed timer are written all the same:
      a record with a bad serial keeps its names from the content. */
  lemma ParseSOANotAllOrNothing(rr: SOAFields, line: string)
    requires |Split(line, ' ')| >= SOATokens
    requires Atoi(Split(line, ' ')[2]).None?
    ensures !ParseSOA(rr, line).ok
    ensures ParseSOA(rr, line).rr == rr.(ns := Split(line, ' ')[0], mbox := Split(line, ' ')[1])
  {
  }
}
