# httprecord, modelled in Dafny

`httprecord` is a CoreDNS plugin that answers DNS queries for TXT, A and AAAA
records by fetching the answer over HTTP when the query arrives. It is set up by
a directive in the Corefile. The directive's arguments give origins and an
optional URI template for whole zones. Its block lists single records, each a
type, a name and a URI, plus three lines: `onerror servfail|cached`, `timeout`
and `fallthrough`.

At query time the plugin follows these steps:

1. It picks the first record matching the query's exact name and type. Failing
   that, it takes a zone whose origin contains the name.
2. It replaces every `%(fqdn)` in the URI by the query name.
3. It issues one GET under a timeout (five seconds when none is set) and reads
   at most 4095 bytes of the body.
4. It turns the status into success, NXDOMAIN (404), SERVFAIL (500 and up) or a
   plain error.
5. Optionally, it falls back to the last good payload for the same name and URI.
6. It decodes the body, line by line, into records.

Each body line reads `[TYPE [TTL]] DATA`. A line without a type is taken as
TXT. For A and AAAA, a line without a type goes to whichever family its address
belongs to. A line's TTL is kept when it is positive and at most the base TTL.
The base TTL comes from `max-age:` in the Cache-Control header, capped by a
configured maximum. It defaults to the maximum, or to 3600 when no maximum is
set.

The project has these modules:

- `Text`: the parts of Go's `strings` and `strconv` that the plugin uses.
  - `strings.Split` and `strings.Join`, with their round trip.
  - `strings.TrimSpace`.
  - `strings.ReplaceAll`.
  - `strings.ToLower` and `strings.ToUpper`.
  - `strconv.Atoi`, including its overflow behaviour.
  - The UTF-8 byte length of a string.
  - The 32-bit truncation `uint32(n)`.
- `Seqs`: one generic "map each element to zero or more pieces and concatenate"
  function, with its lemmas. The line splitter and the record decoder are both
  instances of it.
- `Foreign`: `Env`, the calls the plugin makes into code outside it. Its fields
  are functions:
  - `dns.StringToType` lookups;
  - `net.ParseIP`;
  - `dns.IsSubDomain` and `dns.IsFqdn`;
  - name and host normalisation;
  - `time.ParseDuration`;
  - the fallthrough policy.

  Every property is proved for whatever these calls return.
- `ResponseParsers` (`responseparsers.go`):
  - the line accessors `Type`, `TTL` and `Payload`;
  - the specification functions `Lines` and `Decode`;
  - the loops `parseLines`, `parseTXT`, `parseA` and `parseAAAA`, as methods
    proved equal to those functions.
- `HttpRecord` (`httprecord.go`):
  - the TTL selection; the Cache-Control regular expression `max-age:[\s]*([\d]+)`
    is modelled exactly, leftmost match first;
  - fetching and classification;
  - the fallback cache, as the class `FallbackCache`;
  - reply construction and dispatch;
  - the handler, as the class `HTTPRecord`, whose methods `MaybeFetchCached`,
    `FetchAndWrite` and `ServeDNS` are proved against the functions `CachedFetch`
    and `Serve`.
- `Serving`: properties of whole queries. It also covers the `ServeDNS` cases of
  `httprecord_test.go` that answer from the body: `Hello`, `A 1.2.3.4`,
  `1.2.3.4\n::1`, `AAAA 1800 ::1`, and `AAAA 3600 ::1` under `max-age: 1800`.
  The unsupported-type, 404 and outage cases are covered by the all-query
  lemmas.
- `Setup` (`setup.go`): `parseConfigBlock` and the argument handling of
  `parseConfig`.
  - The specification functions are `ApplyDirective`, `RunBlock`,
    `ApplyOccurrence` and `RunConfig`.
  - The methods `ParseLine`, `ParseConfigBlock`, `ParseOccurrence` and
    `ParseConfig` update an `HTTPRecord` and are proved equal to those functions.
- `SetupCases`: the configurations of `setup_test.go`.

The network is a parameter, `net: Request -> HttpResult`. A proof about a query
therefore holds for every upstream behaviour. Where one is needed, it can
constrain what the upstream returns for the exact request the plugin sends.

When a query name falls under a configured zone, `ServeDNS` always fetches from
the URI of the *first* configured zone, whichever zone matched
(`httprecord.go:108-110`). This is so even when the zones have different
origins; it is not limited to zones that share an origin. The model follows
the code: see `HttpRecord.Route` and `Serving.ZoneUsesFirstTemplate`.

`setup.go:66` slices the lower-cased last argument to its first four bytes. An
argument shorter than four bytes makes that slice panic. The model turns the
panic into the error `SliceOutOfRange`.

## Model

| member | source | states |
|---|---|---|
| ResponseParsers.LineType | responseparsers.go:26-33 | a non-empty type is a known type that is the line's first space-separated token, taken verbatim |
| ResponseParsers.LineTTL | responseparsers.go:35-43 | a non-zero TTL comes only from a line of at least three tokens whose first token is a type |
| ResponseParsers.Payload | responseparsers.go:45-60 | the payload is always a tail of the line: nothing is rewritten, only a prefix is dropped (which prefix: `UntypedLine`, `ParseTyped`, `ParseToken`, `ParseOverflow`) |
| ResponseParsers.UntypedLine | responseparsers.go:26-60 | a line whose first token is not a type, or which has one token, has no type, TTL 0 and is its own payload |
| ResponseParsers.ParseRender | responseparsers.go:26-60 | rendering type, TTL and data as `TYPE TTL DATA` and reading the line back yields the same three fields, whenever they can be told apart |
| ResponseParsers.ParseTyped | responseparsers.go:26-60 | `TYPE DATA` with a non-numeric first data token reads back as type TYPE, TTL 0 and payload DATA |
| ResponseParsers.ParseTimed | responseparsers.go:26-60 | `TYPE N DATA` reads back as type TYPE, TTL N and payload DATA |
| ResponseParsers.ParseToken | responseparsers.go:35-60 | after a type, any second token that Atoi reads (padded, signed, or past 32 bits) is dropped from the payload, leaving DATA, and its value truncated to 32 bits is the TTL |
| ResponseParsers.LineTTLToken | responseparsers.go:35-43 | after a type, the TTL is the second token read by Atoi and truncated to 32 bits |
| ResponseParsers.TypeAndNumberOnly | responseparsers.go:35-60 | `A 1800` has type A, TTL 0 (only two tokens) and payload `1800` (the number is kept as the last token) |
| ResponseParsers.ParseOverflow | responseparsers.go:35-60 | after a type, a second token that Atoi rejects as out of range is kept in the payload, while the TTL is the clamped value Atoi returns with the error, truncated to 32 bits |
| ResponseParsers.OverflowTTLKept | responseparsers.go:35-60 | `A 9223372036854775808 x` keeps the token in its payload and has TTL 4294967295 |
| ResponseParsers.NegativeTTLWraps | responseparsers.go:38-39 | a TTL token of `-1` becomes 4294967295 through the `uint32` conversion |
| ResponseParsers.PaddedTTL | responseparsers.go:38-55 | `A 007 x` has TTL 7 and payload `x` |
| ResponseParsers.EffectiveTTL | responseparsers.go:87-90 | a record's TTL is the line's TTL when it is positive and at most the base; otherwise it is the base |
| ResponseParsers.Item | responseparsers.go:85-99 | one line yields at most one record, and yields one exactly when the line qualifies for the requested family |
| ResponseParsers.Emits | responseparsers.go:92-149 | a decoder emits only lines typed with its own type or untyped; every line typed with its type is emitted, whether or not the address parses; TXT takes every untyped line |
| ResponseParsers.Decode | responseparsers.go:82-161 | there are never more records than lines; every record has the requested type, the query name and a TTL at most the base, positive when the base is |
| ResponseParsers.DecodeAppend | responseparsers.go:85-100 | decoding two blocks of lines gives the records of the first block followed by those of the second |
| ResponseParsers.DecodeStep | responseparsers.go:85-100 | decoding one more line appends exactly that line's records |
| ResponseParsers.DecodeOne | responseparsers.go:85-100 | a single line decodes to that line's own record, or to nothing |
| ResponseParsers.TypelessSplitBetweenFamilies | responseparsers.go:115-120 | when no line carries a type, every line is answered by exactly one of the A and AAAA parsers |
| ResponseParsers.TxtOnePerLine | responseparsers.go:92-99 | when every line is untyped or TXT, there is one TXT record per line, in order, holding that line's payload |
| ResponseParsers.MixedFamilies | responseparsers.go:115-120 | an untyped IPv4 line and an untyped IPv6 line give one record each: the IPv4 one to A, the IPv6 one to AAAA |
| ResponseParsers.OneToken | responseparsers.go:26-60 | a line of one token has no type and is its own payload, and its record takes the base TTL |
| ResponseParsers.TypedOnly | responseparsers.go:82-161 | a body that is the single line `TYPE DATA` gives one record of that type with the data and the base TTL |
| ResponseParsers.TypedTimed | responseparsers.go:82-161 | a body that is the single line `TYPE N DATA` gives one record of that type with the data and TTL N, capped by the base |
| ResponseParsers.TrimmedLine | responseparsers.go:71-76 | a segment gives at most one line; every line it gives is trimmed and non-empty |
| ResponseParsers.NonBlank | responseparsers.go:67-80 | there are no more lines than segments, and every line is trimmed and non-empty |
| ResponseParsers.Lines | responseparsers.go:67-80 | the body's lines are no more than its newline-separated segments, and each is trimmed and non-empty |
| ResponseParsers.NonBlankMembers | responseparsers.go:67-80 | a line is kept exactly when it is the trimmed, non-empty form of some segment |
| ResponseParsers.NonBlankAppend | responseparsers.go:67-80 | splitting two runs of segments gives the lines of the first run followed by those of the second |
| ResponseParsers.OneLine | responseparsers.go:67-80 | a trimmed body without newlines is one line |
| ResponseParsers.TwoLines | responseparsers.go:67-80 | two trimmed lines joined by a newline split back into the same two lines |
| ResponseParsers.ParseLines | responseparsers.go:67-80 | the loop returns exactly `Lines(response)` |
| ResponseParsers.ParseTXT | responseparsers.go:82-103 | the loop returns exactly the TXT decoding of the body's lines |
| ResponseParsers.ParseA | responseparsers.go:105-132 | the loop returns exactly the A decoding of the body's lines |
| ResponseParsers.ParseAAAA | responseparsers.go:134-161 | the loop returns exactly the AAAA decoding of the body's lines |
| HttpRecord.SkipRegexSpaces | httprecord.go:73 | drops exactly the leading `\s` characters; what remains is a tail that does not start with one |
| HttpRecord.LeadingDigits | httprecord.go:73 | the longest prefix of ASCII digits |
| HttpRecord.MaxAge | httprecord.go:73 | a match's captured group is a non-empty run of digits (no match at all: `MaxAgeNoMatch`; the leftmost match: `MaxAgeFirst`) |
| HttpRecord.MaxAgeNoMatch | httprecord.go:213-219 | there is no capture exactly when the expression matches at no position, so `FindStringSubmatch` returns nil |
| HttpRecord.DirectiveWithoutDigits | httprecord.go:73 | `max-age:` followed by white space and then a non-digit, with no `m` after it (`max-age: none`, `max-age: -5`, `max-age:`), matches nowhere; other values are covered by `MaxAgeNoMatch` |
| HttpRecord.MaxAgeNeedsDirective | httprecord.go:73 | a header without `max-age:` has no match |
| HttpRecord.MaxAgeFirst | httprecord.go:73 | when no match starts earlier, a `max-age:` followed by optional `\s` and a run of digits is the leftmost match, and the capture is all of those digits; an earlier `max-age:` with no digits after it is passed over |
| HttpRecord.NoDirectiveTTL | httprecord.go:210-232 | when the expression matches nowhere (no `max-age:`, or none followed by digits) the TTL is the maximum if one is set, else 3600 |
| HttpRecord.CandidateTTL | httprecord.go:213-219 | no match gives 0; a capture that Atoi reads gives that value modulo 2^32; a capture Atoi rejects gives 0 |
| HttpRecord.ExtractTTL | httprecord.go:210-232 | the TTL is positive and at most a set maximum; a positive candidate below the maximum is used; otherwise the maximum, or 3600 without one |
| HttpRecord.SelectTTL | httprecord.go:224-231 | the TTL is positive, at most a set maximum, and one of the candidate, the maximum or 3600; a positive candidate below the maximum is kept; with neither a candidate nor a maximum it is 3600 |
| HttpRecord.ClientTimeout | httprecord.go:139-146 | the client timeout is never 0: a zero setting becomes five seconds; any other setting is kept |
| HttpRecord.TemplateWithoutPlaceholder | httprecord.go:137 | a template without `%(fqdn)` is requested unchanged |
| HttpRecord.PlaceholderSubstituted | httprecord.go:137 | the first `%(fqdn)` of a template becomes the query name, the text before it is kept, and substitution goes on after it |
| HttpRecord.Classify | httprecord.go:156-183 | a read error fails; a full buffer is an error whatever the status; otherwise 200 succeeds with the body and the TTL `ExtractTTL` gives for the header, 404 gives a backend error mapped to NXDOMAIN, 500 and up a backend error mapped to SERVFAIL with its status, and any other status an unexpected-status error |
| HttpRecord.Fetch | httprecord.go:136-183 | a failed GET is an error; success exactly when the answer to the substituted request is a 200 that fits the buffer, carrying its body and the TTL `ExtractTTL` gives for its header |
| HttpRecord.CacheKey | httprecord.go:191-194 | the key is the name's characters followed by the URI's, as the hash is fed |
| HttpRecord.Fallback | httprecord.go:191-207 | a success is stored under its key and passed on; a failure leaves the cache unchanged and is replaced by the stored item when there is one |
| HttpRecord.CachedFetch | httprecord.go:186-208 | without `onerror cached` the cache is untouched and the fetch's own outcome is returned; with it, the result is the `Fallback` policy applied under the key of (name, URI) to the fetch's outcome; a failure never changes the cache |
| HttpRecord.CachedFetchBounded | httprecord.go:196-207 | when every cached TTL is one extractTTL can produce, every answer's TTL is too, and the cache keeps that property |
| HttpRecord.FallbackCache.Add | httprecord.go:198 | the cache maps the key to the new item; everything else is unchanged |
| HttpRecord.FallbackCache.Get | httprecord.go:202-206 | an item is found exactly when the key is present, and it is the stored item |
| HttpRecord.Parser | httprecord.go:74-78 | exactly TXT, A and AAAA have a parser, each its own |
| HttpRecord.Rcode | httprecord.go:236-241 | an upstream-indicated error gives its own DNS code; every other error gives SERVFAIL |
| HttpRecord.Respond | httprecord.go:234-260 | a failure or a missing parser fails with the right code; otherwise the answer is the decoded body with the fetched TTL; never defers to the next plugin |
| HttpRecord.Decline | httprecord.go:113-119 | defers to the next plugin exactly when fallthrough applies to the name; otherwise an empty answer (NODATA) |
| HttpRecord.FirstMatch | httprecord.go:94-98 | the index of the first record with the query's name and type; none only when no record matches |
| HttpRecord.Origins | httprecord.go:101-104 | the zones' origins, one per zone, in order |
| HttpRecord.Matches | httprecord.go:105 | the matched origin is one of the origins and contains the name; no containing origin is longer |
| HttpRecord.MatchesNonEmpty | httprecord.go:105-106 | a match exists exactly when some non-empty origin contains the name |
| HttpRecord.Route | httprecord.go:85-111 | an unsupported query type is never routed to an upstream |
| HttpRecord.Serve | httprecord.go:80-120 | a query that fetches nothing leaves the cache alone and declines; a query that fetches always answers or fails itself |
| HttpRecord.HTTPRecord.MaybeFetchCached | httprecord.go:186-208 | the request sent, the outcome and the new cache contents are those of `CachedFetch` |
| HttpRecord.HTTPRecord.FetchAndWrite | httprecord.go:234-260 | the reply and the new cache contents are those of `Respond` after `CachedFetch` |
| HttpRecord.HTTPRecord.ServeDNS | httprecord.go:80-120 | the reply, the request sent and the new cache contents are those of `Serve` |
| HttpRecord.FirstMatchPrefix | httprecord.go:94-98 | a match among the first records is the match among all records |
| Serving.UnsupportedTypeNeverFetches | httprecord.go:85-91 | a type other than TXT, A and AAAA never reaches the network or the cache |
| Serving.ExactRecordWins | httprecord.go:94-98 | the first record with the query's name and type decides which URI is fetched |
| Serving.ZoneUsesFirstTemplate | httprecord.go:100-111 | a name under any configured zone is fetched from the first zone's URI |
| Serving.UnknownNameDeclines | httprecord.go:113-119 | with neither a record nor a zone for the name, nothing is fetched and the plugin declines |
| Serving.RequestsAreSubstituted | httprecord.go:136-146 | every request carries the template with the name substituted, and a non-zero timeout |
| Serving.FreshAnswer | httprecord.go:164-172 | a 200 answer that fits the buffer is decoded with the TTL taken from its header |
| Serving.AnswersRespectMaxTTL | httprecord.go:224-231 | every answer record has the query name and a positive TTL within the maximum, and the cache stays bounded |
| Serving.RespondBounded | responseparsers.go:87-90 | records built from a bounded TTL have the query name and TTLs within the same bounds |
| Serving.NameErrorExactlyOn404 | httprecord.go:173-176 | without caching, NXDOMAIN is returned exactly when the upstream answers 404 with a body that fits |
| Serving.OutageWithoutCache | httprecord.go:149-152 | without caching, an unreachable upstream turns every routed query into SERVFAIL |
| Serving.CachedReplay | httprecord.go:196-206 | with caching, after a 200 answer that fits the buffer, the same query against an unreachable upstream returns the same reply |
| Serving.HelloLine | httprecord_test.go:49-55 | the body `Hello` is one TXT record holding `Hello` |
| Serving.NoHeaderTTL | httprecord.go:220-231 | no Cache-Control header and no maximum give TTL 3600 |
| Serving.HelloAnswer | httprecord_test.go:41-56 | the test's TXT record for example.com. answers `Hello` with TTL 3600 |
| Serving.DigitlessMaxAge | httprecord.go:210-232 | `max-age: none` with a maximum of 600 gives 600 |
| Serving.MaxAge1800 | httprecord_test.go:143 | `public, max-age: 1800` gives TTL 1800 |
| Serving.HeaderDigits | httprecord_test.go:143 | the captured digits of `public, max-age: 1800` are `1800` |
| Serving.Atoi1800 | httprecord.go:216 | `1800` reads as 1800 |
| Serving.RenderAAAA3600 | httprecord_test.go:144 | the test body is the rendering of type AAAA, TTL 3600 and data `::1` |
| Serving.AAAA3600Trimmed | httprecord_test.go:144 | the test body is a single trimmed line |
| Serving.CappedLine | responseparsers.go:137-157 | an AAAA line alone whose own TTL exceeds a positive base gives one AAAA record with the base TTL |
| Serving.CappedAAAALine | httprecord_test.go:136-150 | under base TTL 1800, the line `AAAA 3600 ::1` gives one AAAA record with TTL 1800 |
| Serving.HeaderCapsLineTTL | httprecord_test.go:136-150 | the zone test's header caps the line's TTL of 3600 at 1800 |
| Serving.TypedALine | httprecord_test.go:64-71 | the body `A 1.2.3.4` under base TTL 3600 gives one A record for 1.2.3.4 with TTL 3600 |
| Serving.ZoneTypedAnswer | httprecord_test.go:57-72 | under zone example.com., a query for foo.example.com. A answered `A 1.2.3.4` without a header gives one A record with TTL 3600 |
| Serving.UntypedPairForA | httprecord_test.go:80-87 | of the untyped lines `1.2.3.4` and `::1`, the A decoder keeps only 1.2.3.4 |
| Serving.ZoneUntypedAnswer | httprecord_test.go:73-88 | a zone query for A answered `1.2.3.4\n::1` gives only the IPv4 record, with TTL 3600 |
| Serving.LoweredAAAALine | httprecord_test.go:126-133 | the body `AAAA 1800 ::1` under base TTL 3600 gives one AAAA record with the line's TTL 1800 |
| Serving.LineLowersTTL | httprecord_test.go:119-134 | a zone query for AAAA answered `AAAA 1800 ::1` without a header gives one AAAA record with TTL 1800 |
| Setup.RelativeRecords | setup.go:151-157 | one record per origin, in origin order, with the name completed by that origin |
| Setup.NewRecords | setup.go:144-158 | an absolute name adds one record; a relative name adds one per origin |
| Setup.ApplyDirective | setup.go:101-162 | a line succeeds exactly when it is `LineValid`: `onerror` with `servfail` or `cached`, `timeout` with one parsable duration, any `fallthrough`, or a known upper-cased type with 2 arguments (1 when the block has a template); a failing line reports `LineError` and changes nothing; `onerror` sets caching on error to `args[0] == "cached"` and creates a cache for `cached`; `timeout` sets the parsed duration; `fallthrough` sets `fall` from its arguments; a record line appends `LineRecords` (upper-cased type, lower-cased name, own URI or else the template); each setting changes only through its own directive |
| Setup.RunBlock | setup.go:100-166 | reading a block never changes the zones or the maximum TTL |
| Setup.RunBlockSucceeds | setup.go:100-166 | a block is read without error exactly when every line is `LineValid` |
| Setup.RunBlockFirstError | setup.go:100-166 | a block with a rejected line fails with that first line's error, holding what the lines before it set |
| Setup.RunBlockRecords | setup.go:128-161 | an accepted block appends the records of its record lines, line after line, in order |
| Setup.RunBlockTimeout | setup.go:114-125 | in an accepted block the timeout is the duration of the last `timeout` line, and unchanged without one |
| Setup.RunBlockFall | setup.go:126-127 | in an accepted block `fall` is set from the last `fallthrough` line, and unchanged without one |
| Setup.RunBlockOnError | setup.go:103-113 | in an accepted block caching on error is on exactly when the last `onerror` line says `cached`, and unchanged without one |
| Setup.RunBlockCache | setup.go:110-113 | in an accepted block a cache exists exactly when one existed or some line is `onerror cached` |
| Setup.RunBlockPrefix | setup.go:101-163 | reading one line further applies that line to what the lines before it left, unless they failed |
| Setup.RunBlockAppends | setup.go:100-166 | a block only appends records, keeps the zones, and keeps the settings consistent |
| Setup.RunBlockSnoc | setup.go:101-163 | one more line applies to the settings the lines before it left, unless they failed |
| Setup.RunBlockStops | setup.go:106-107 | after the first failing line, nothing more is read |
| Setup.ServerBlockOrigins | setup.go:49-52 | one normalised host per server block key, in order |
| Setup.NormalizedOrigins | setup.go:72-74 | one normalised name per origin argument, in order |
| Setup.ZonesFor | setup.go:76-83 | one zone per origin, in order, all with the template URI |
| Setup.TemplateArg | setup.go:66-69 | the slice panics exactly when the lower-cased last argument is shorter than four bytes; otherwise the argument is the template exactly when its first four characters, lower-cased, are `http` |
| Setup.TemplateNonEmpty | setup.go:66-69 | a template is never empty, so a block with one accepts one-argument record lines |
| Setup.ApplyOccurrence | setup.go:55-94 | an unsliceable last argument fails with `SliceOutOfRange` and changes nothing; with a template, one zone per normalised origin is appended; without one, the zones are unchanged |
| Setup.ApplyOccurrenceSucceeds | setup.go:55-94 | a directive is read without error exactly when its last argument can be sliced and every line of its block is accepted |
| Setup.RunOccurrences | setup.go:54-95 | reading the directives never changes the maximum TTL |
| Setup.RunOccurrencesSucceeds | setup.go:54-95 | the directives are read without error exactly when every one of them is valid |
| Setup.OccurrenceConsistent | setup.go:55-94 | one directive keeps the settings consistent: caching on error implies a cache, every record has a known type, and every zone URI is a template |
| Setup.RunOccurrencesConsistent | setup.go:54-95 | every sequence of directives leaves the settings consistent |
| Setup.RunOccurrencesStops | setup.go:59-60 | after the first failing directive, nothing more is read |
| Setup.RunConfig | setup.go:46-98 | the finished settings are consistent |
| Setup.AddRecords | setup.go:144-158 | the records of one line are appended; no other field changes |
| Setup.NormalizeOrigins | setup.go:72-74 | the loop returns exactly the normalised origins, in order |
| Setup.AddZones | setup.go:76-83 | one zone per origin is appended with the template; no other field changes |
| Setup.ParseLine | setup.go:102-162 | the handler's new settings, cache presence and error are those of `ApplyDirective`; a newly created cache is empty with capacity 100 |
| Setup.ParseConfigBlock | setup.go:100-166 | the handler's new settings, cache presence and error are those of `RunBlock` |
| Setup.ParseOccurrence | setup.go:55-94 | the handler's new settings, cache presence and error are those of `ApplyOccurrence` |
| Setup.ParseConfig | setup.go:46-98 | a fresh handler whose settings, cache and error are those of `RunConfig`; the handler is valid, so caching on error finds a cache |
| SetupCases.AbsoluteRecordAndFallthrough | setup_test.go:30-44 | an absolute record line and a bare `fallthrough` give one record, and `fall` set from an empty argument list |
| SetupCases.NoURIAnywhere | setup_test.go:45-51 | a record line without a URI, in a directive without a template, is an argument error |
| SetupCases.OriginIsNoURI | setup_test.go:59-65 | an origin argument is not a template, so the line lacks a URI and is an argument error |
| SetupCases.UnknownRecordType | setup_test.go:52-58 | an unknown record type is rejected with its upper-cased name |
| SetupCases.RelativeNameEachOrigin | setup_test.go:66-82 | a relative name gives one record per origin, completed by that origin, and no zones |
| SetupCases.TemplateGivesZone | setup_test.go:83-92 | an origin followed by a template gives one zone and no records |
| SetupCases.TemplateZonesAndRelativeName | setup_test.go:93-116 | two origins and a template give two zones, and the relative line gives two records with the template |
| SetupCases.HttpsIsTemplate | setup_test.go:68 | `https://example.com` is a template |
| SetupCases.DomainIsOrigin | setup_test.go:60 | `example.com` is an origin |
| SetupCases.ShortArgumentPanics | setup.go:66 | a last argument `ex` cannot be sliced to four bytes |
| SetupCases.OnErrorCached | setup.go:103-113 | `onerror cached` turns caching on error on and creates a cache, and nothing else |
| SetupCases.OnErrorServfail | setup.go:103-113 | `onerror servfail` leaves caching off and creates no cache |
| SetupCases.OnErrorOtherValue | setup.go:106-107 | `onerror` with any other single value is rejected |
| SetupCases.TimeoutParsed | setup.go:114-125 | `timeout` with a parsable duration sets exactly the timeout |
| SetupCases.TimeoutUnparsable | setup.go:121-122 | `timeout` with an unparsable duration is rejected with that argument |
| SetupCases.TimeoutArityChecked | setup.go:117-118 | `timeout` with other than one argument is rejected |
| SetupCases.OneOccurrence | setup.go:54-95 | a configuration of one directive is that directive applied to the initial settings |
| SetupCases.OneLine | setup.go:101-163 | a block of one line is that line applied |
| SetupCases.TemplateOccurrence | setup.go:66-93 | origins followed by a template give one zone per normalised origin and read the block with those origins and the template |
| SetupCases.TwoOriginZones | setup.go:66-93 | two origins and a template give two zones, in order, and read the block with both origins |
| SetupCases.TwoOriginRecords | setup.go:144-158 | a relative record line under two origins adds one completed record per origin, in order |
| SetupCases.RecordLineAdds | setup.go:129-158 | a block of one accepted record line appends exactly that line's records |
| Text.Split | responseparsers.go:27 | `strings.Split`: at least one part, and no part contains the separator |
| Text.JoinSplit | responseparsers.go:59 | joining the parts of a split gives back the string |
| Text.SplitJoin | responseparsers.go:59 | splitting a join of separator-free parts gives back the parts |
| Text.SplitCount | responseparsers.go:28 | there are at least two parts exactly when the separator occurs |
| Text.TrimStart | responseparsers.go:71 | the number of leading `unicode.IsSpace` characters: all before it are white space, the one at it is not |
| Text.TrimSpace | responseparsers.go:71 | the result is the slice of the string starting at `TrimStart`, neither starting nor ending with white space, and every character dropped after it is white space; a string that does neither is unchanged |
| Text.Atoi | responseparsers.go:38 | a parsed value is within 64 bits; out of range gives the clamped bound; a string not starting with a sign or a digit is invalid |
| Text.AtoiDecimal | responseparsers.go:52 | the decimal rendering of a number reads back as that number |
| Text.AtoiOverflow | responseparsers.go:38 | a numeral above 2^63 - 1 (within 64 unsigned bits) is a range error returning 2^63 - 1 |
| Text.ToUint32 | responseparsers.go:39 | `uint32(n)` keeps n modulo 2^32 |
| Text.ToLower | setup.go:66 | same length, each character lowered, no upper-case ASCII letter remains |
| Text.ToUpper | setup.go:129 | same length, each character raised, no lower-case ASCII letter remains |
| Text.Utf8Len | setup.go:66 | a string's byte length is at least its character count, and equal to it for ASCII text |
| Text.ReplaceAllAbsent | httprecord.go:137 | replacing a pattern that does not occur changes nothing |
| Text.ReplaceAllFirst | httprecord.go:137 | `strings.Replace(s, pat, rep, -1)`: text before the leftmost occurrence is kept, that occurrence becomes `rep`, and the rest is replaced in turn |

## Left out

- The network is a parameter `net`, so opening connections, TLS and the time
  the request takes are not modelled. The timeout is only recorded in the
  request that is sent.
- The response body is modelled as the count one `Read` returned, plus the
  text those bytes decode to. Go's conversion of bytes to a string is not
  modelled.
- Header values are given as the first `Cache-Control` value, the one
  `Header.Get` returns. How HTTP headers are parsed is not modelled.
- The cache key is modelled as the concatenation of name and URI, which is what
  fnv hashes. Two different keys whose 64-bit hashes collide would share an
  entry in the plugin; the model keeps them apart.
- HttpRecord.FallbackCache.Add: never evicts. The plugin's cache holds at most
  100 items; its capacity is recorded but not enforced.
- Concurrency is not modelled: concurrent queries sharing the cache, and the
  locking inside the cache.
- DNS message construction is not modelled: `dns.Msg`, `SetReply`, the
  Authoritative and RecursionAvailable flags, and `WriteMsg` with its error.
  Replies are values: an answer, a failure code with its error, or "next
  plugin". `plugin.NextOrFailure` is represented by that last value.
- The calls in `Env` are not modelled, so every property holds for whatever
  they return. They are `dns.StringToType`, `net.ParseIP`, `dns.IsSubDomain`,
  `dns.IsFqdn`, name and host normalisation, `time.ParseDuration` and
  `fall.F.Through`. `plugin.Zones.Matches` is modelled on top of
  `dns.IsSubDomain`.
- Text.ToLower: folds ASCII letters only; `strings.ToLower` also folds
  non-ASCII letters.
- Text.ToUpper: folds ASCII letters only; `strings.ToUpper` also folds
  non-ASCII letters.
- The parsers' error result is always nil in the source. The methods return
  the records only.
- `fall.F.SetZonesFromArgs` is not modelled. The model keeps the `fallthrough`
  arguments, and `Env.through` decides for them; that an empty list means
  every zone is left to `Env.through`.
- `Name()` is not modelled, and neither is `setup()`: registering the plugin,
  logging, and hooking the handler into the chain.
- The messages of configuration errors are not modelled. Each error is a
  constructor of `SetupError`.
- The Corefile tokenizer is not modelled. Each directive arrives already split
  into its arguments and its block lines.
- `setup.go:66` panics on a last argument shorter than four bytes. The model
  returns `SliceOutOfRange` instead.
