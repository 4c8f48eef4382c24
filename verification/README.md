# pdsql resolution core in Dafny

A model of how the CoreDNS `pdsql` plugin answers a DNS query from a
PowerDNS generic-SQL database:

- **Normalisation.** The query name is lower-cased and its final dot removed. An `ANY` query becomes an empty type filter.
- **Exact lookup.** The database is asked for the rows at the name.
- **Answers.** Each stored row becomes one answer record: SOA, A, AAAA, TXT, NS or PTR.
- **Wildcard search.** When the exact lookup finds no rows, the zone walk looks for the nearest enclosing domain. That domain's `*` rows are then filtered with the label-wise wildcard comparison.
- **Control flow.** The code decides between replying, returning a database error with RcodeNameError, and handing the request to the next plugin.

The SQL database is a `Store` value made of four lookup functions:
`findRecords`, `findSOA`, `findDomain` and `findWildcards`. Each returns rows, "not found" or an error. Writing the reply and calling the next plugin are represented by the `Outcome` a request ends in.

Modules, in dependency order:

- `Strings` (`strings.dfy`): first index of a character, `Split` and `Join` on a one-character separator, ASCII lower-casing.
- `Numbers` (`numbers.dfy`): Go's `strconv.Atoi`, with the 64-bit range check. Also `uint32(i)` as reduction modulo 2^32, and a decimal `Itoa` used as its inverse.
- `Wildcard` (`wildcard.dfy`): `equal` and `WildcardMatch` as methods, proven against the predicates `LabelEqual` and `Matches`.
- `Soa` (`soa.dfy`): `ParseSOA`, which writes the fields one at a time and stops at the first token that is not an integer.
- `Records` (`records.dfy`): stored rows, answer records, and the per-row type switch of `ServeDNS`.
- `Resolver` (`resolver.dfy`): the zone walk and wildcard filter (`SearchWildcard`), and `ServeDNS` with its reference definition `Serve`.
- `Scenarios` (`scenarios.dfy`): whole requests, namely the end-to-end example of the test file and the two wildcard cases.

Behaviour of the code worth knowing:

- `ParseSOA` is not all-or-nothing. The names and the timers before a malformed token stay written.
- `ParseSOA` accepts any signed integer in the 64-bit range and truncates it to 32 bits. It does not reject negative or large values.
- An SOA row whose content does not parse is not dropped from the answer. `rr = nil` assigns to the variable the type switch declares, so the record appended is the outer one, partly filled (`Records.MalformedSOAIsKept`).
- When the exact lookup reports "record not found", the SOA record is added only to the additional section of a message that is never written. The answer stays empty, so the request always goes to the next plugin. If the SOA lookup succeeds with no row, indexing its first row fails (`Outcome.IndexOutOfRange`).
- A lookup that succeeds with no rows leads to the wildcard search. Only the database's "record not found" error leads to the SOA lookup.

## Model

| member | source | states |
|---|---|---|
| Strings.Split | pdsql.go:165 | the pieces never contain the separator and there is always at least one piece |
| Strings.JoinSplit | pdsql.go:165 | joining the pieces with the separator gives back the original string, so splitting loses nothing |
| Strings.SplitJoin | pdsql.go:165 | splitting the join of separator-free pieces gives back exactly those pieces |
| Strings.SplitAppend | pdsql.go:165-168 | splitting `a + sep + b` gives the pieces of `a` followed by the pieces of `b` |
| Strings.LowerChar | pdsql.go:235-240 | an upper-case ASCII letter gets bit 0x20 set, which lands it in a..z; every other character is unchanged |
| Strings.LowerFixed | pdsql.go:30 | lower-casing leaves a string unchanged exactly when it has no upper-case ASCII letter |
| Strings.SplitLower | pdsql.go:205-206 | splitting on a caseless separator commutes with lower-casing |
| Numbers.Uint32 | pdsql.go:174 | the 32-bit conversion is the identity on 0..2^32-1 and otherwise differs from its input by a multiple of 2^32 |
| Numbers.Atoi | pdsql.go:171 | an accepted token is an optionally signed digit string; its value lies in the 64-bit signed range; a negative value comes only from a leading minus |
| Numbers.AtoiItoa | pdsql.go:171-174 | the decimal numeral of any value up to 2^63-1 reads back as that value, with or without a plus sign; with a minus sign it reads back as the negated value |
| Numbers.AtoiLeadingZero | pdsql.go:171-174 | a numeral with a leading zero is accepted and reads as the numeral itself |
| Numbers.AtoiRejectsMalformed | pdsql.go:171-173 | every token that is empty, a lone sign, or holds a non-digit anywhere after its optional sign is rejected |
| Numbers.AtoiRejectsOutOfRange | pdsql.go:171-173 | numerals beyond the 64-bit range are rejected |
| Wildcard.Labels | pdsql.go:205-206 | no label of a name contains a dot |
| Wildcard.LabelsJoin | pdsql.go:205-206 | joining the labels with dots gives back the name, up to the dropped trailing dot |
| Wildcard.LabelsCons | pdsql.go:205-206 | a dot-free label followed by a dot contributes exactly itself as the first label |
| Wildcard.Equal | pdsql.go:221-246 | the result is true exactly when either label is `*` or the two labels agree letter by letter ignoring ASCII case |
| Wildcard.WildcardMatch | pdsql.go:200-219 | the result is true exactly when either name is the root or both have equally many labels that match pairwise; a root always matches; different label counts never match |
| Wildcard.MatchesSymmetric | pdsql.go:200-219 | the comparison gives the same answer with its arguments swapped |
| Wildcard.MatchesReflexive | pdsql_test.go:88 | every name matches itself |
| Wildcard.MatchesCaseInsensitive | pdsql_test.go:109-114 | lower-casing either name never changes whether they match |
| Wildcard.StarMatchesAnyLeadingLabel | pdsql_test.go:89-90 | `*.rest` matches `x.rest` for every dot-free label `x` |
| Wildcard.StarNeverMatchesNoLabel | pdsql_test.go:87 | `*.rest` never matches `rest` itself |
| Soa.ParseTimers | pdsql.go:171-196 | the timers are written in order until a token is not an integer; the parse succeeds exactly when every remaining token reads; each timer holds its token's 32-bit value if every token up to it read, and its old value otherwise |
| Soa.ParseSOA | pdsql.go:164-197 | success exactly when there are at least seven tokens and tokens 2..6 are integers; too few tokens change nothing; otherwise the names come from tokens 0 and 1, and each timer is written exactly when it and every timer before it read |
| Soa.ParseSOAComplete | pdsql.go:169-196 | after a successful parse every field comes from the first seven tokens, whatever the record held before |
| Soa.ParseTokens | pdsql.go:164-197 | content whose tokens are a record's names followed by its five timers in decimal parses to that record |
| Soa.ParseFormatSOA | pdsql.go:164-197 | the space-joined stored form of any SOA record parses back to it, provided its names hold no space |
| Soa.ParseSOATooFewTokens | pdsql.go:165-168 | content with fewer than seven tokens is rejected and leaves the record unchanged |
| Soa.ParseSOAIgnoresExtraTokens | pdsql.go:165-170 | appending more tokens after the seventh does not change the result |
| Soa.ParseSOANotAllOrNothing | pdsql.go:169-173 | with a malformed serial the parse fails, but the two names are already written |
| Records.WithTrailingDot | pdsql.go:103-107 | the result ends in a dot, starts with the input, is at most one character longer, and equals the input exactly when the input already ends in a dot |
| Records.BuildHeader | pdsql.go:73-77 | the owner is the query name, fully qualified; the type is the row's type; the class is the query's class; the TTL is the row's TTL |
| Records.BuildData | pdsql.go:78-110 | the data has the row's type; TXT is the content as one segment; NS, A and AAAA keep the content; PTR gets a trailing dot; SOA holds what the parse wrote |
| Records.PtrTargetIdempotent | pdsql.go:100-107 | rebuilding a PTR record from its own target changes nothing, because the dot is added at most once |
| Records.CanonicalSOARow | pdsql.go:83-87 | an SOA row stored as its seven fields separated by single spaces, names free of spaces, is answered with exactly those fields |
| Records.MalformedSOAIsKept | pdsql.go:83-116 | a row whose SOA content does not parse still yields an SOA answer; with too few tokens it carries the all-zero SOA data |
| Records.BuildAnswer | pdsql.go:72-117 | the answer has exactly one record per row, in row order, with no row dropped |
| Resolver.LookupName | pdsql.go:30-42 | the root stays the root; any other name is lower-cased with its last character removed |
| Resolver.LookupNameFqdn | pdsql.go:38-42 | for a fully qualified name other than the root, the lookup name plus a dot is the lower-cased query name |
| Resolver.TypeFilter | pdsql.go:44-47 | the filter is empty exactly for `ANY` (or an empty type); every other type is passed on unchanged |
| Resolver.ZoneCandidates | pdsql.go:132-137 | the walk has no candidate exactly when the name has no dot or its first dot is its first character; each candidate is shorter than the name |
| Resolver.ZoneCandidatesSuffixes | pdsql.go:132-137 | every candidate is a proper suffix of the name that follows a dot, and the candidates get strictly shorter |
| Resolver.Keep | pdsql.go:153-160 | the kept rows are a subsequence of the candidates, every kept row matches the query name, and every matching candidate is kept |
| Resolver.KeepSnoc | pdsql.go:153-160 | a row added after the others is kept exactly when its name matches the query name, after the rows kept before it |
| Resolver.KeepSingle | pdsql.go:155-159 | a single candidate is kept if and only if its name matches the query name |
| Resolver.KeepAppend | pdsql.go:153-160 | filtering a concatenation of candidate lists is the concatenation of the filtered lists, so order and repetitions are kept |
| Resolver.FilterMatching | pdsql.go:153-160 | the filter loop returns exactly the rows the reference filter keeps |
| Resolver.SearchZone | pdsql.go:147-161 | the search in the zone found gives "nothing" when the database has no wildcard rows, passes an error on, and otherwise keeps the matching rows |
| Resolver.WalkSound | pdsql.go:132-161 | whichever zone the walk over the candidate list stops at, every row it returns matches the query name |
| Resolver.WalkFromCandidates | pdsql.go:132-145 | stripping one leading label at a time and asking the database about each remainder is the walk over the candidate list: the first known domain decides, an error ends the walk, no candidate left finds nothing |
| Resolver.SearchSound | pdsql.go:126-162 | the search returns only rows whose name matches the query name without its final dot, and nothing for a name with no dot past its first character |
| Resolver.SearchWildcard | pdsql.go:126-162 | the loop with its early returns computes exactly the label-stripping walk from the query name without its final dot |
| Resolver.Serve | pdsql.go:30-123 | a reply always has a non-empty answer and an empty additional section, and every answer record is owned by the lower-cased, fully qualified query name |
| Resolver.ServeDNS | pdsql.go:27-124 | the step-by-step handler, including the SOA lookup whose record is discarded, ends in the outcome the reference definition gives and never writes an additional section |
| Scenarios.ExactAnswer | pdsql_test.go:29-49 | an A query for example.org. against the one stored A row is answered with that address, owned by example.org. |
| Scenarios.SearchOneLabelDown | pdsql.go:126-145 | for a query one label below a known zone, the lookup name drops only the final dot and the walk stops at that zone |
| Scenarios.WildcardAnswersOneLabelDown | pdsql.go:64-117 | with no exact row, a zone's `*` row answers a query one label below the zone, and the answer is owned by the query name rather than the row's name |
| Scenarios.WildcardSkipsItsOwnName | pdsql_test.go:87 | a `*.x.zone` row never answers `x.zone`, so the request goes to the next plugin |

## Left out

- The SQL database, gorm and the schema are not modelled. The four queries are functions of the `Store`, and `LIKE` or `ILIKE` matching is whatever those functions return.
- `dns.Msg` assembly, compression, the authoritative flag and `WriteMsg` are not modelled. A written reply is `Outcome.Reply`.
- `plugin.NextOrFailure` and the rest of the plugin chain are not modelled. Handing on is `Outcome.NextHandler`.
- A run-time panic is modelled only for the empty SOA result (`Outcome.IndexOutOfRange`). No other panic is modelled.
- `net.ParseIP` is not modelled. A and AAAA data keep the stored text, because address parsing is a library call outside the plugin.
- Record types other than SOA, A, AAAA, TXT, NS and PTR are not modelled. The stored type is a closed datatype of these six. In the code, an unknown mnemonic calls a missing constructor. A known but unsupported type is appended as an empty record of that type, although a code comment says it is dropped.
- The `disabled` column is not modelled. It is carried but never consulted, because the code's exact query does not filter on it.
- `strings.ToLower` is modelled as ASCII lower-casing only. Unicode case folding is outside the model, and domain names in the store are ASCII.
- `dns.SplitDomainName` is modelled as splitting on dots without escapes. Escaped dots (`\.`) are not modelled.
- Numbers.Atoi: the contract gives necessary conditions for acceptance; that well-formed numerals are accepted is stated by `AtoiItoa` and `AtoiLeadingZero` for decimal numerals rather than for every digit string. The error values of `strconv.Atoi` are not modelled, only whether it fails, since the plugin never reads the error text.
- Resolver.SearchWildcard: the method states only that it computes the walk `WalkFrom`. The soundness facts (matching rows only, nothing found for a single-label name) are stated by `SearchSound` and are not repeated on the method.
- The plugin's setup, configuration parsing, `Name()` and database migration are not modelled. They are not part of resolution.
