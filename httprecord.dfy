/** The plugin's query handler: which URI a query is resolved against, how the HTTP answer
    is classified, how the TTL is chosen, when the fallback cache is consulted, and what
    reply the DNS server gets. */
module HttpRecord {
  import opened Text
  import opened Foreign
  import opened ResponseParsers

  const MaxHTTPBodySize: nat := 4096
  const RcodeSuccess: int := 0
  const RcodeServerFailure: int := 2
  const RcodeNameError: int := 3
  /** Five seconds, in nanoseconds (a `time.Duration`). */
  const DefaultTimeout: int := 5_000_000_000
  const DefaultTTL: uint32 := 3600
  const FqdnPlaceholder: string := "%(fqdn)"

  // ---------------------------------------------------------------------------
  // Configuration

  /** Names under `origin` are answered from `uri`. */
  datatype Zone = Zone(origin: string, uri: string)

  /** The exact name `name` of type `rtype` is answered from `uri`. */
  datatype Record = Record(name: string, rtype: string, uri: string)

  /** `fall.F`: its zero value never falls through; otherwise it holds the arguments of the
      `fallthrough` directive. */
  datatype Fall = NoFall | FallZones(args: seq<string>)

  predicate Through(env: Env, fall: Fall, qname: string)
  {
    match fall
    case NoFall => false
    case FallZones(args) => env.through(args, qname)
  }

  /** The handler's settings, as a value. */
  datatype Config = Config(
    records: seq<Record>,
    zones: seq<Zone>,
    timeout: int,
    maxTTL: uint32,
    returnCachedOnError: bool,
    fall: Fall)

  // ---------------------------------------------------------------------------
  // The TTL of an answer: `extractTTL`

  /** `\s` of the regular expression syntax: tab, newline, form feed, carriage return, space. */
  predicate IsRegexSpace(c: char)
  {
    c == '\t' || c == '\n' || c == '\U{000C}' || c == '\r' || c == ' '
  }

  function SkipRegexSpaces(s: string): (r: string)
    ensures |r| <= |s| && r == s[|s| - |r|..]
    ensures r == [] || !IsRegexSpace(r[0])
    decreases |s|
  {
    if s != [] && IsRegexSpace(s[0]) then SkipRegexSpaces(s[1..]) else s
  }

  /** The longest prefix of decimal digits. */
  function LeadingDigits(s: string): (d: string)
    ensures |d| <= |s| && d == s[..|d|]
    ensures forall i :: 0 <= i < |d| ==> IsDigit(d[i])
    ensures |d| < |s| ==> !IsDigit(s[|d|])
    decreases |s|
  {
    if s != [] && IsDigit(s[0]) then [s[0]] + LeadingDigits(s[1..]) else []
  }

  const MaxAgePrefix: string := "max-age:"

  /** The capture group of the leftmost match of `max-age:[\s]*([\d]+)` in a Cache-Control
      value: a non-empty run of digits that follows `max-age:` and optional white space. */
  function MaxAge(cc: string): (m: Option<string>)
    ensures m.Some? ==> m.value != [] && forall i :: 0 <= i < |m.value| ==> IsDigit(m.value[i])
    decreases |cc|
  {
    if |cc| < |MaxAgePrefix| then None
    else
      var d := LeadingDigits(SkipRegexSpaces(cc[|MaxAgePrefix|..]));
      if cc[..|MaxAgePrefix|] == MaxAgePrefix && d != [] then Some(d) else MaxAge(cc[1..])
  }

  /** Without `max-age:` in the value there is no match. */
  lemma {:induction false} MaxAgeNeedsDirective(cc: string)
    requires forall i :: !OccursAt(cc, MaxAgePrefix, i)
    ensures MaxAge(cc) == None
    decreases |cc|
  {
    if |cc| >= |MaxAgePrefix| {
      assert !OccursAt(cc, MaxAgePrefix, 0);
      assert cc[..|MaxAgePrefix|] == cc[0..0 + |MaxAgePrefix|];
      forall i ensures !OccursAt(cc[1..], MaxAgePrefix, i) {
        if OccursAt(cc[1..], MaxAgePrefix, i) {
          assert cc[1..][i..i + |MaxAgePrefix|] == cc[i + 1..i + 1 + |MaxAgePrefix|];
          assert OccursAt(cc, MaxAgePrefix, i + 1);
        }
      }
      MaxAgeNeedsDirective(cc[1..]);
    }
  }

  lemma {:induction false} SkipSpacesThen(sp: string, t: string)
    requires forall i :: 0 <= i < |sp| ==> IsRegexSpace(sp[i])
    requires t == [] || !IsRegexSpace(t[0])
    ensures SkipRegexSpaces(sp + t) == t
    decreases |sp|
  {
    if sp != [] {
      assert (sp + t)[1..] == sp[1..] + t;
      SkipSpacesThen(sp[1..], t);
    } else {
      assert sp + t == t;
    }
  }

  lemma {:induction false} LeadingDigitsThen(d: string, rest: string)
    requires forall i :: 0 <= i < |d| ==> IsDigit(d[i])
    requires rest == [] || !IsDigit(rest[0])
    ensures LeadingDigits(d + rest) == d
    decreases |d|
  {
    if d != [] {
      assert (d + rest)[1..] == d[1..] + rest;
      LeadingDigitsThen(d[1..], rest);
    } else {
      assert d + rest == rest;
    }
  }

  /** Whether `max-age:[\s]*([\d]+)` matches at position `i` of `cc`: `max-age:` occurs
      there and, after any white space, at least one digit follows. */
  predicate MatchesAt(cc: string, i: int)
  {
    OccursAt(cc, MaxAgePrefix, i) && LeadingDigits(SkipRegexSpaces(cc[i + |MaxAgePrefix|..])) != []
  }

  /** A match in the tail of a value is a match one position further in the value. */
  lemma MatchesShift(cc: string, i: nat)
    requires cc != []
    ensures MatchesAt(cc[1..], i) <==> MatchesAt(cc, i + 1)
  {
    OccursShift(cc, MaxAgePrefix, i);
    if i + 1 + |MaxAgePrefix| <= |cc| {
      assert cc[1..][i + |MaxAgePrefix|..] == cc[i + 1 + |MaxAgePrefix|..];
    }
  }

  /** One step of the scan: a match at the front is taken, otherwise the scan moves on. */
  lemma MaxAgeStep(cc: string)
    requires |cc| >= |MaxAgePrefix|
    ensures MatchesAt(cc, 0) ==> MaxAge(cc).Some?
    ensures !MatchesAt(cc, 0) ==> MaxAge(cc) == MaxAge(cc[1..])
  {
    assert cc[..|MaxAgePrefix|] == cc[0..0 + |MaxAgePrefix|];
  }

  /** There is no capture exactly when the expression matches nowhere in the value; in
      particular `max-age:` followed by no digits (`max-age: none`, `max-age: -5`) gives
      none, as `FindStringSubmatch` returns nil there. */
  lemma {:induction false} MaxAgeNoMatch(cc: string)
    ensures MaxAge(cc) == None <==> forall i :: 0 <= i < |cc| ==> !MatchesAt(cc, i)
    decreases |cc|
  {
    if |cc| >= |MaxAgePrefix| {
      MaxAgeStep(cc);
      MaxAgeNoMatch(cc[1..]);
      if MaxAge(cc) == None {
        forall i | 0 <= i < |cc|
          ensures !MatchesAt(cc, i)
        {
          if i > 0 {
            MatchesShift(cc, i - 1);
          }
        }
      } else if !MatchesAt(cc, 0) {
        var i :| 0 <= i < |cc[1..]| && MatchesAt(cc[1..], i);
        MatchesShift(cc, i);
      }
    }
  }

  /** A lone `max-age:` whose white space is followed by something other than a digit
      (and no further `m`) matches nowhere. */
  lemma DirectiveWithoutDigits(sp: string, rest: string)
    requires forall i :: 0 <= i < |sp| ==> IsRegexSpace(sp[i])
    requires rest == [] || (!IsDigit(rest[0]) && !IsRegexSpace(rest[0]))
    requires 'm' !in rest
    ensures forall i :: 0 <= i < |MaxAgePrefix + sp + rest| ==> !MatchesAt(MaxAgePrefix + sp + rest, i)
  {
    var cc := MaxAgePrefix + sp + rest;
    assert !MatchesAt(cc, 0) by {
      assert cc[|MaxAgePrefix|..] == sp + rest;
      SkipSpacesThen(sp, rest);
    }
    assert 'm' !in cc[1..] by {
      assert cc[1..] == MaxAgePrefix[1..] + sp + rest;
      assert 'm' !in MaxAgePrefix[1..];
    }
    forall i | 1 <= i < |cc|
      ensures !OccursAt(cc, MaxAgePrefix, i)
    {
      assert cc[i] == cc[1..][i - 1];
      if i + |MaxAgePrefix| <= |cc| {
        assert cc[i..i + |MaxAgePrefix|][0] == cc[i];
      }
    }
  }

  /** The leftmost match decides: a `max-age:` followed by optional white space and digits,
      with no match starting before it, gives all of those digits. Earlier occurrences of
      `max-age:` without digits after them are passed over, as the regular expression does. */
  lemma {:induction false} MaxAgeFirst(pre: string, sp: string, d: string, rest: string)
    requires forall i :: 0 <= i < |pre| ==> !MatchesAt(pre + MaxAgePrefix + sp + d + rest, i)
    requires forall i :: 0 <= i < |sp| ==> IsRegexSpace(sp[i])
    requires d != [] && forall i :: 0 <= i < |d| ==> IsDigit(d[i])
    requires rest == [] || !IsDigit(rest[0])
    ensures MaxAge(pre + MaxAgePrefix + sp + d + rest) == Some(d)
    decreases |pre|
  {
    var cc := pre + MaxAgePrefix + sp + d + rest;
    if pre == [] {
      assert cc == MaxAgePrefix + (sp + (d + rest));
      assert cc[..|MaxAgePrefix|] == MaxAgePrefix;
      assert cc[|MaxAgePrefix|..] == sp + (d + rest);
      LeadingDigitsThen(d, rest);
      SkipSpacesThen(sp, d + rest);
    } else {
      var tail := cc[1..];
      assert tail == pre[1..] + MaxAgePrefix + sp + d + rest;
      assert !MatchesAt(cc, 0);
      assert cc[..|MaxAgePrefix|] == cc[0..0 + |MaxAgePrefix|];
      forall i | 0 <= i < |pre[1..]|
        ensures !MatchesAt(tail, i)
      {
        assert tail[i..i + |MaxAgePrefix|] == cc[i + 1..i + 1 + |MaxAgePrefix|];
        assert tail[i + |MaxAgePrefix|..] == cc[i + 1 + |MaxAgePrefix|..];
        assert !MatchesAt(cc, i + 1);
      }
      MaxAgeFirst(pre[1..], sp, d, rest);
    }
  }

  /** A prefix without the letter `m` holds no start of a match. */
  lemma NoMatchWithoutM(pre: string, tail: string)
    requires 'm' !in pre
    ensures forall i :: 0 <= i < |pre| ==> !MatchesAt(pre + tail, i)
  {
    forall i | 0 <= i < |pre|
      ensures !OccursAt(pre + tail, MaxAgePrefix, i)
    {
      assert (pre + tail)[i] == pre[i] != 'm';
      if i + |MaxAgePrefix| <= |pre + tail| {
        assert (pre + tail)[i..i + |MaxAgePrefix|][0] == (pre + tail)[i];
      }
    }
  }

  /** The TTL the Cache-Control value announces: its max-age as a `uint32` when the digits
      parse as an `int` (wrapping modulo 2^32), and 0 otherwise. */
  function CandidateTTL(cc: string): (t: uint32)
    ensures MaxAge(cc).None? ==> t == 0
    ensures MaxAge(cc).Some? && Atoi(MaxAge(cc).value).Parsed? ==> t as int == Atoi(MaxAge(cc).value).n % TwoTo32
    ensures MaxAge(cc).Some? && !Atoi(MaxAge(cc).value).Parsed? ==> t == 0
  {
    match MaxAge(cc)
    case None => 0
    case Some(d) =>
      match Atoi(d)
      case Parsed(n) => ToUint32(n)
      case _ => 0
  }

  /** Without a match of the max-age expression (no `max-age:`, or none followed by digits)
      the TTL is the configured maximum, or 3600 without one. */
  lemma NoDirectiveTTL(cc: string, maxTTL: uint32)
    requires forall i :: 0 <= i < |cc| ==> !MatchesAt(cc, i)
    ensures ExtractTTL(cc, maxTTL) == if maxTTL > 0 then maxTTL else DefaultTTL
  {
    MaxAgeNoMatch(cc);
  }

  /** The selection of `extractTTL`: the announced TTL when it is positive and below the
      configured maximum (0 meaning no maximum), else the maximum when there is one, else
      3600. The result is never 0 and never above a configured maximum. */
  function SelectTTL(candidate: uint32, maxTTL: uint32): (r: uint32)
    ensures r > 0
    ensures maxTTL > 0 ==> r <= maxTTL
    ensures r == candidate || r == maxTTL || r == DefaultTTL
    ensures candidate > 0 && (maxTTL == 0 || candidate < maxTTL) ==> r == candidate
    ensures candidate == 0 && maxTTL == 0 ==> r == DefaultTTL
  {
    if candidate > 0 && (maxTTL == 0 || maxTTL > candidate) then candidate
    else if maxTTL > 0 then maxTTL
    else DefaultTTL
  }

  /** `extractTTL`. */
  function ExtractTTL(cacheControl: string, maxTTL: uint32): (t: uint32)
    ensures t > 0 && (maxTTL > 0 ==> t <= maxTTL)
    ensures 0 < CandidateTTL(cacheControl) && (maxTTL == 0 || CandidateTTL(cacheControl) < maxTTL) ==> t == CandidateTTL(cacheControl)
    ensures (CandidateTTL(cacheControl) == 0 || (maxTTL > 0 && CandidateTTL(cacheControl) >= maxTTL)) ==> t == (if maxTTL > 0 then maxTTL else DefaultTTL)
  {
    SelectTTL(CandidateTTL(cacheControl), maxTTL)
  }

  // ---------------------------------------------------------------------------
  // One HTTP exchange: `fetch`

  /** What the request sent to the upstream carries: the URL and the client timeout. */
  datatype Request = Request(url: string, timeout: int)

  /** How many bytes one read into the 4096-byte buffer returned. */
  type ReadCount = n: nat | n <= MaxHTTPBodySize

  /** The result of reading the body once: an error other than end-of-file, or the count
      read and the text it holds. */
  datatype Body = BodyError | Body(read: ReadCount, text: string)

  /** The upstream's answer: status code, the first Cache-Control value ("" without one),
      and the body as read. */
  datatype Response = Response(status: int, cacheControl: string, body: Body)

  /** What the network does with a request: the GET fails, or an answer arrives. */
  datatype HttpResult = GetFailed | Got(response: Response)

  datatype Error =
    | GetError
    | ReadError
    | BodyTooLong
    | BackendIndicated(httpCode: int, dnsCode: int)
    | UnexpectedStatus(status: int)
    | NoParser(rtype: string)

  /** A payload and its TTL, or the error that stands instead. */
  datatype Outcome = Success(payload: string, ttl: uint32) | Failure(err: Error)

  /** The timeout the HTTP client gets: 0 would mean no timeout and becomes five seconds;
      any other value is kept. */
  function ClientTimeout(timeout: int): (t: int)
    ensures t != 0
    ensures timeout != 0 ==> t == timeout
    ensures timeout == 0 ==> t == DefaultTimeout
  {
    if timeout == 0 then DefaultTimeout else timeout
  }

  /** The request `fetch` sends for `name`: every `%(fqdn)` of the template replaced by the
      name. */
  function RequestFor(timeout: int, name: string, uri: string): Request
  {
    Request(ReplaceAll(uri, FqdnPlaceholder, name), ClientTimeout(timeout))
  }

  /** The first `%(fqdn)` of a template becomes the name, and substitution goes on after
      it: text before the placeholder is sent as it is. */
  lemma PlaceholderSubstituted(timeout: int, name: string, a: string, b: string)
    requires forall i :: 0 <= i < |a| ==> !OccursAt(a + FqdnPlaceholder + b, FqdnPlaceholder, i)
    ensures RequestFor(timeout, name, a + FqdnPlaceholder + b).url == a + name + RequestFor(timeout, name, b).url
  {
    ReplaceAllFirst(a, FqdnPlaceholder, name, b);
  }

  /** A template that does not mention the placeholder is requested as it is. */
  lemma TemplateWithoutPlaceholder(timeout: int, name: string, uri: string)
    requires forall i :: !OccursAt(uri, FqdnPlaceholder, i)
    ensures RequestFor(timeout, name, uri).url == uri
  {
    ReplaceAllAbsent(uri, FqdnPlaceholder, name);
  }

  /** Whether a body was read without error and left room in the buffer. */
  predicate Fits(resp: Response)
  {
    resp.body.Body? && resp.body.read < MaxHTTPBodySize
  }

  /** The classification of an answer, in the order `fetch` checks: a read error, a full
      buffer (whatever the status), then status 200, 404, 500 and above, anything else. */
  function Classify(resp: Response, maxTTL: uint32): (o: Outcome)
    ensures o.Success? <==> Fits(resp) && resp.status == 200
    ensures o.Success? ==> o.payload == resp.body.text && o.ttl > 0 && (maxTTL > 0 ==> o.ttl <= maxTTL)
    ensures o == Failure(BodyTooLong) <==> resp.body.Body? && resp.body.read == MaxHTTPBodySize
    ensures o.Failure? && o.err.BackendIndicated? ==>
      || (o.err == BackendIndicated(404, RcodeNameError) && resp.status == 404)
      || (o.err == BackendIndicated(resp.status, RcodeServerFailure) && resp.status >= 500)
    ensures o.Failure? ==> o.err in {ReadError, BodyTooLong, UnexpectedStatus(resp.status)} || o.err.BackendIndicated?
    ensures o.Success? ==> o.ttl == ExtractTTL(resp.cacheControl, maxTTL)
    ensures resp.body.BodyError? ==> o == Failure(ReadError)
    ensures Fits(resp) && resp.status == 404 ==> o == Failure(BackendIndicated(404, RcodeNameError))
    ensures Fits(resp) && resp.status >= 500 ==> o == Failure(BackendIndicated(resp.status, RcodeServerFailure))
    ensures Fits(resp) && resp.status != 200 && resp.status != 404 && resp.status < 500 ==> o == Failure(UnexpectedStatus(resp.status))
  {
    match resp.body
    case BodyError => Failure(ReadError)
    case Body(read, text) =>
      if read == MaxHTTPBodySize then Failure(BodyTooLong)
      else if resp.status == 200 then Success(text, ExtractTTL(resp.cacheControl, maxTTL))
      else if resp.status == 404 then Failure(BackendIndicated(resp.status, RcodeNameError))
      else if resp.status >= 500 then Failure(BackendIndicated(resp.status, RcodeServerFailure))
      else Failure(UnexpectedStatus(resp.status))
  }

  /** `fetch`: one request to the substituted URI, its answer classified. */
  function Fetch(timeout: int, maxTTL: uint32, net: Request -> HttpResult, name: string, uri: string): (o: Outcome)
    ensures net(RequestFor(timeout, name, uri)).GetFailed? ==> o == Failure(GetError)
    ensures o.Success? <==> net(RequestFor(timeout, name, uri)).Got? && Fits(net(RequestFor(timeout, name, uri)).response)
                            && net(RequestFor(timeout, name, uri)).response.status == 200
    ensures o.Success? ==> o.payload == net(RequestFor(timeout, name, uri)).response.body.text
                           && o.ttl == ExtractTTL(net(RequestFor(timeout, name, uri)).response.cacheControl, maxTTL)
  {
    match net(RequestFor(timeout, name, uri))
    case GetFailed => Failure(GetError)
    case Got(resp) => Classify(resp, maxTTL)
  }

  // ---------------------------------------------------------------------------
  // The fallback cache: `maybeFetchCached`

  datatype CacheItem = CacheItem(payload: string, ttl: uint32)

  /** The cache key hashes the name's bytes followed by the template's bytes, that is the
      concatenation of the two. */
  function CacheKey(name: string, uri: string): (k: string)
    ensures |k| == |name| + |uri| && k[..|name|] == name && k[|name|..] == uri
  {
    name + uri
  }

  /** An outcome and the cache contents after it. */
  datatype Cached = Cached(outcome: Outcome, items: map<string, CacheItem>)

  /** The fallback policy when caching is on: a success is stored and passed on; a failure
      leaves the cache alone and is replaced by the stored item, when there is one. */
  function Fallback(items: map<string, CacheItem>, key: string, fetched: Outcome): (c: Cached)
    ensures fetched.Success? ==> c.outcome == fetched && c.items == items[key := CacheItem(fetched.payload, fetched.ttl)]
    ensures fetched.Failure? ==> c.items == items
    ensures fetched.Failure? && key in items ==> c.outcome == Success(items[key].payload, items[key].ttl)
    ensures fetched.Failure? && key !in items ==> c.outcome == fetched
  {
    match fetched
    case Success(payload, ttl) => Cached(fetched, items[key := CacheItem(payload, ttl)])
    case Failure(_) =>
      if key in items then Cached(Success(items[key].payload, items[key].ttl), items) else Cached(fetched, items)
  }

  /** What `maybeFetchCached` returns and leaves in the cache. */
  function CachedFetch(cfg: Config, items: map<string, CacheItem>, net: Request -> HttpResult, name: string, uri: string): (c: Cached)
    ensures !cfg.returnCachedOnError ==> c == Cached(Fetch(cfg.timeout, cfg.maxTTL, net, name, uri), items)
    ensures cfg.returnCachedOnError ==> c == Fallback(items, CacheKey(name, uri), Fetch(cfg.timeout, cfg.maxTTL, net, name, uri))
    ensures c.outcome.Failure? ==> c.items == items
  {
    var fetched := Fetch(cfg.timeout, cfg.maxTTL, net, name, uri);
    if !cfg.returnCachedOnError then Cached(fetched, items)
    else Fallback(items, CacheKey(name, uri), fetched)
  }

  /** Every cached TTL is one `extractTTL` could have produced: positive, and within the
      maximum when there is one. */
  predicate CacheBounded(items: map<string, CacheItem>, maxTTL: uint32)
  {
    forall k :: k in items ==> items[k].ttl > 0 && (maxTTL > 0 ==> items[k].ttl <= maxTTL)
  }

  /** A successful (possibly cached) fetch has a TTL like that, and the cache stays so. */
  lemma CachedFetchBounded(cfg: Config, items: map<string, CacheItem>, net: Request -> HttpResult, name: string, uri: string)
    requires CacheBounded(items, cfg.maxTTL)
    ensures var c := CachedFetch(cfg, items, net, name, uri);
      && CacheBounded(c.items, cfg.maxTTL)
      && (c.outcome.Success? ==> c.outcome.ttl > 0 && (cfg.maxTTL > 0 ==> c.outcome.ttl <= cfg.maxTTL))
  {
    var key := CacheKey(name, uri);
    if cfg.returnCachedOnError && key in items {
      assert items[key].ttl > 0;
    }
  }

  /** A cache that holds every fetched answer in the first place. */
  class FallbackCache {
    var items: map<string, CacheItem>
    const capacity: nat

    /** `cache.New(capacity)`. */
    constructor(capacity: nat)
      ensures this.capacity == capacity && items == map[]
    {
      this.capacity := capacity;
      items := map[];
    }

    method Add(key: string, item: CacheItem)
      modifies this
      ensures items == old(items)[key := item]
    {
      items := items[key := item];
    }

    method Get(key: string) returns (r: Option<CacheItem>)
      ensures r.Some? <==> key in items
      ensures r.Some? ==> r.value == items[key]
    {
      if key in items {
        r := Some(items[key]);
      } else {
        r := None;
      }
    }
  }

  // ---------------------------------------------------------------------------
  // Replies: `fetchAndWrite` and `nodata`

  /** What the handler does with a query: writes an answer (`nodata` writes an empty one,
      also with RcodeSuccess), fails with a return code and an error, or hands the query to
      the next plugin. */
  datatype Reply = Written(answer: seq<RR>) | Failed(rcode: int, err: Error) | Next

  /** The query types `responseToRR` has a decoder for. */
  function Parser(rtype: string): (k: Option<RRType>)
    ensures k.Some? <==> rtype in {"TXT", "A", "AAAA"}
    ensures k == Some(TypeTXT) <==> rtype == "TXT"
    ensures k == Some(TypeA) <==> rtype == "A"
  {
    if rtype == "TXT" then Some(TypeTXT)
    else if rtype == "A" then Some(TypeA)
    else if rtype == "AAAA" then Some(TypeAAAA)
    else None
  }

  /** The return code of a failed fetch: the DNS code a backend indicated, otherwise
      SERVFAIL. */
  function Rcode(e: Error): (rcode: int)
    ensures e.BackendIndicated? ==> rcode == e.dnsCode
    ensures !e.BackendIndicated? ==> rcode == RcodeServerFailure
  {
    if e.BackendIndicated? then e.dnsCode else RcodeServerFailure
  }

  /** The reply `fetchAndWrite` gives for an outcome: the mapped return code for a failure,
      SERVFAIL for a type without a decoder, otherwise the decoded records of the payload
      with the payload's TTL as their base. */
  function Respond(env: Env, o: Outcome, rtype: string, name: string): (r: Reply)
    ensures r.Failed? <==> o.Failure? || Parser(rtype).None?
    ensures o.Failure? ==> r == Failed(Rcode(o.err), o.err)
    ensures o.Success? && Parser(rtype).None? ==> r == Failed(RcodeServerFailure, NoParser(rtype))
    ensures r.Written? ==> r.answer == Decode(env, Parser(rtype).value, name, o.ttl, Lines(o.payload))
    ensures !r.Next?
  {
    match o
    case Failure(e) => Failed(Rcode(e), e)
    case Success(payload, ttl) =>
      match Parser(rtype)
      case None => Failed(RcodeServerFailure, NoParser(rtype))
      case Some(kind) => Written(Decode(env, kind, name, ttl, Lines(payload)))
  }

  /** No answer from this plugin: the next plugin when fallthrough applies to the name,
      otherwise NODATA. */
  function Decline(env: Env, fall: Fall, qname: string): (r: Reply)
    ensures r == Next <==> Through(env, fall, qname)
    ensures r != Next ==> r == Written([])
  {
    if Through(env, fall, qname) then Next else Written([])
  }

  // ---------------------------------------------------------------------------
  // Dispatch: `ServeDNS`

  /** The query as the handler sees it: lower-case absolute name and type mnemonic. */
  datatype Query = Query(qname: string, qtype: string)

  /** The first configured record for exactly this name and type. */
  function FirstMatch(records: seq<Record>, qname: string, qtype: string): (m: Option<nat>)
    ensures m.Some? ==> m.value < |records| && records[m.value].name == qname && records[m.value].rtype == qtype
    ensures m.Some? ==> forall j :: 0 <= j < m.value ==> !(records[j].name == qname && records[j].rtype == qtype)
    ensures m.None? <==> forall j :: 0 <= j < |records| ==> !(records[j].name == qname && records[j].rtype == qtype)
    decreases |records|
  {
    if records == [] then None
    else
      var init := records[..|records| - 1];
      var r := records[|records| - 1];
      match FirstMatch(init, qname, qtype)
      case Some(i) => Some(i)
      case None => if r.name == qname && r.rtype == qtype then Some(|records| - 1) else None
  }

  /** The zones' origins, in order. */
  function Origins(zones: seq<Zone>): (origins: seq<string>)
    ensures |origins| == |zones|
    ensures forall k :: 0 <= k < |zones| ==> origins[k] == zones[k].origin
    decreases |zones|
  {
    if zones == [] then [] else Origins(zones[..|zones| - 1]) + [zones[|zones| - 1].origin]
  }

  /** `plugin.Zones(origins).Matches(qname)`: the longest origin the name is in (the first
      of the longest), or "" when there is none. */
  function Matches(env: Env, origins: seq<string>, qname: string): (z: string)
    ensures z == "" || (z in origins && env.isSubDomain(z, qname))
    ensures forall k :: 0 <= k < |origins| && env.isSubDomain(origins[k], qname) ==> |origins[k]| <= |z|
    decreases |origins|
  {
    if origins == [] then ""
    else
      var init := origins[..|origins| - 1];
      var z := Matches(env, init, qname);
      var c := origins[|origins| - 1];
      assert forall k :: 0 <= k < |init| ==> init[k] == origins[k];
      if env.isSubDomain(c, qname) && |c| > |z| then c else z
  }

  /** A name is in some zone exactly when some non-empty origin contains it. */
  lemma MatchesNonEmpty(env: Env, origins: seq<string>, qname: string)
    ensures Matches(env, origins, qname) != ""
        <==> exists k :: 0 <= k < |origins| && origins[k] != "" && env.isSubDomain(origins[k], qname)
  {
    var z := Matches(env, origins, qname);
    if z != "" {
      var k :| 0 <= k < |origins| && origins[k] == z;
    }
  }

  /** The template a query is resolved against, or none: an unsupported type never is; the
      first exact record comes first; a name in any zone uses the first zone's template,
      whichever zone matched. */
  function Route(env: Env, cfg: Config, q: Query): (uri: Option<string>)
    ensures Parser(q.qtype).None? ==> uri.None?
  {
    if Parser(q.qtype).None? then None
    else
      match FirstMatch(cfg.records, q.qname, q.qtype)
      case Some(i) => Some(cfg.records[i].uri)
      case None =>
        if Matches(env, Origins(cfg.zones), q.qname) != "" then Some(cfg.zones[0].uri) else None
  }

  /** What one query does: the reply, the cache afterwards, and the request sent upstream. */
  datatype Handled = Handled(reply: Reply, items: map<string, CacheItem>, requested: Option<Request>)

  /** `ServeDNS` on values. */
  function Serve(env: Env, cfg: Config, items: map<string, CacheItem>, net: Request -> HttpResult, q: Query): (h: Handled)
    ensures h.requested.None? ==> h.items == items && h.reply == Decline(env, cfg.fall, q.qname)
    ensures h.requested.Some? ==> !h.reply.Next?
  {
    match Route(env, cfg, q)
    case None => Handled(Decline(env, cfg.fall, q.qname), items, None)
    case Some(uri) =>
      var c := CachedFetch(cfg, items, net, q.qname, uri);
      Handled(Respond(env, c.outcome, q.qtype, q.qname), c.items, Some(RequestFor(cfg.timeout, q.qname, uri)))
  }

  // ---------------------------------------------------------------------------
  // The handler object

  class HTTPRecord {
    var records: seq<Record>
    var zones: seq<Zone>
    var timeout: int
    var maxTTL: uint32
    var returnCachedOnError: bool
    var cache: FallbackCache?
    var fall: Fall

    /** `HTTPRecord{}`. */
    constructor()
      ensures records == [] && zones == [] && timeout == 0 && maxTTL == 0
      ensures !returnCachedOnError && cache == null && fall == NoFall
    {
      records := [];
      zones := [];
      timeout := 0;
      maxTTL := 0;
      returnCachedOnError := false;
      cache := null;
      fall := NoFall;
    }

    /** Caching on error needs a cache to fall back on. */
    predicate Valid()
      reads this
    {
      returnCachedOnError ==> cache != null
    }

    function Settings(): Config
      reads this
    {
      Config(records, zones, timeout, maxTTL, returnCachedOnError, fall)
    }

    function CacheItems(): map<string, CacheItem>
      reads this, cache
    {
      if cache == null then map[] else cache.items
    }

    /** `maybeFetchCached`, also returning the request `fetch` sent. */
    method MaybeFetchCached(net: Request -> HttpResult, name: string, uri: string) returns (o: Outcome, req: Request)
      requires Valid()
      modifies cache
      ensures req == RequestFor(timeout, name, uri)
      ensures Cached(o, CacheItems()) == CachedFetch(Settings(), old(CacheItems()), net, name, uri)
    {
      req := RequestFor(timeout, name, uri);
      var fetched := Fetch(timeout, maxTTL, net, name, uri);
      if !returnCachedOnError {
        return fetched, req;
      }
      var key := CacheKey(name, uri);
      if fetched.Success? {
        cache.Add(key, CacheItem(fetched.payload, fetched.ttl));
        return fetched, req;
      }
      var entry := cache.Get(key);
      if entry.Some? {
        return Success(entry.value.payload, entry.value.ttl), req;
      }
      o := fetched;
    }

    /** `fetchAndWrite`. */
    method FetchAndWrite(env: Env, net: Request -> HttpResult, rtype: string, name: string, uri: string)
      returns (reply: Reply, req: Request)
      requires Valid()
      modifies cache
      ensures req == RequestFor(timeout, name, uri)
      ensures var c := CachedFetch(Settings(), old(CacheItems()), net, name, uri);
        reply == Respond(env, c.outcome, rtype, name) && CacheItems() == c.items
    {
      var o;
      o, req := MaybeFetchCached(net, name, uri);
      if o.Failure? {
        if o.err.BackendIndicated? {
          return Failed(o.err.dnsCode, o.err), req;
        }
        return Failed(RcodeServerFailure, o.err), req;
      }
      var kind := Parser(rtype);
      if kind.None? {
        return Failed(RcodeServerFailure, NoParser(rtype)), req;
      }
      var rrs;
      match kind.value {
        case TypeTXT => rrs := ParseTXT(env, name, o.ttl, o.payload);
        case TypeA => rrs := ParseA(env, name, o.ttl, o.payload);
        case TypeAAAA => rrs := ParseAAAA(env, name, o.ttl, o.payload);
      }
      reply := Written(rrs);
    }

    /** `ServeDNS`, also returning the request sent upstream, if any. */
    method ServeDNS(env: Env, net: Request -> HttpResult, q: Query) returns (reply: Reply, requested: Option<Request>)
      requires Valid()
      modifies cache
      ensures var h := Serve(env, Settings(), old(CacheItems()), net, q);
        reply == h.reply && requested == h.requested && CacheItems() == h.items
    {
      if Parser(q.qtype).None? {
        // not a type the plugin answers: there is nothing to fetch
        return Decline(env, fall, q.qname), None;
      }
      for i := 0 to |records|
        invariant FirstMatch(records[..i], q.qname, q.qtype).None?
      {
        assert records[..i + 1][..i] == records[..i];
        if records[i].name == q.qname && records[i].rtype == q.qtype {
          assert FirstMatch(records, q.qname, q.qtype) == Some(i) by {
            FirstMatchPrefix(records, i + 1, q.qname, q.qtype);
          }
          var req;
          reply, req := FetchAndWrite(env, net, q.qtype, q.qname, records[i].uri);
          return reply, Some(req);
        }
      }
      assert records[..|records|] == records;
      var origins := [];
      for i := 0 to |zones|
        invariant origins == Origins(zones[..i])
      {
        assert zones[..i + 1][..i] == zones[..i];
        origins := origins + [zones[i].origin];
      }
      assert zones[..|zones|] == zones;
      var zone := Matches(env, origins, q.qname);
      if zone != "" {
        // the loop over the zones returns on its first turn: the first zone's template
        var req;
        reply, req := FetchAndWrite(env, net, q.qtype, q.qname, zones[0].uri);
        return reply, Some(req);
      }
      return Decline(env, fall, q.qname), None;
    }
  }

  /** A match within a prefix of the records is the first match of all of them. */
  lemma {:induction false} FirstMatchPrefix(records: seq<Record>, n: nat, qname: string, qtype: string)
    requires n <= |records|
    requires FirstMatch(records[..n], qname, qtype).Some?
    ensures FirstMatch(records, qname, qtype) == FirstMatch(records[..n], qname, qtype)
    decreases |records| - n
  {
    if n < |records| {
      assert records[..n + 1][..n] == records[..n];
      FirstMatchPrefix(records, n + 1, qname, qtype);
    } else {
      assert records[..n] == records;
    }
  }
}

/** What the handler promises across queries: dispatch order, the requests it sends, the
    return codes, the TTL bounds and the replay of cached answers. */
module Serving {
  import opened Text
  import opened Foreign
  import opened ResponseParsers
  import opened HttpRecord
  import opened Seqs

  /** A query type without a decoder never causes a request and never touches the cache:
      it falls through or gets NODATA. */
  lemma UnsupportedTypeNeverFetches(env: Env, cfg: Config, items: map<string, CacheItem>, net: Request -> HttpResult, q: Query)
    requires q.qtype !in {"TXT", "A", "AAAA"}
    ensures var h := Serve(env, cfg, items, net, q);
      && h.requested == None && h.items == items
      && h.reply == (if Through(env, cfg.fall, q.qname) then Next else Written([]))
  {
  }

  /** The first configured record for the name and type decides the request, before any
      zone. */
  lemma ExactRecordWins(env: Env, cfg: Config, items: map<string, CacheItem>, net: Request -> HttpResult, q: Query, i: nat)
    requires q.qtype in {"TXT", "A", "AAAA"}
    requires i < |cfg.records| && cfg.records[i].name == q.qname && cfg.records[i].rtype == q.qtype
    requires forall j :: 0 <= j < i ==> !(cfg.records[j].name == q.qname && cfg.records[j].rtype == q.qtype)
    ensures Serve(env, cfg, items, net, q).requested == Some(RequestFor(cfg.timeout, q.qname, cfg.records[i].uri))
  {
    var m := FirstMatch(cfg.records, q.qname, q.qtype);
    assert m.Some?;
    assert m.value == i;
  }

  /** Without an exact record, a name inside any non-empty origin is fetched from the first
      zone's template, whichever origin it is in. */
  lemma ZoneUsesFirstTemplate(env: Env, cfg: Config, items: map<string, CacheItem>, net: Request -> HttpResult, q: Query, k: nat)
    requires q.qtype in {"TXT", "A", "AAAA"}
    requires forall j :: 0 <= j < |cfg.records| ==> !(cfg.records[j].name == q.qname && cfg.records[j].rtype == q.qtype)
    requires k < |cfg.zones| && cfg.zones[k].origin != "" && env.isSubDomain(cfg.zones[k].origin, q.qname)
    ensures Serve(env, cfg, items, net, q).requested == Some(RequestFor(cfg.timeout, q.qname, cfg.zones[0].uri))
  {
    MatchesNonEmpty(env, Origins(cfg.zones), q.qname);
  }

  /** With neither an exact record nor a zone containing the name nothing is requested: the
      query falls through or gets NODATA. */
  lemma UnknownNameDeclines(env: Env, cfg: Config, items: map<string, CacheItem>, net: Request -> HttpResult, q: Query)
    requires forall j :: 0 <= j < |cfg.records| ==> !(cfg.records[j].name == q.qname && cfg.records[j].rtype == q.qtype)
    requires forall k :: 0 <= k < |cfg.zones| ==> cfg.zones[k].origin == "" || !env.isSubDomain(cfg.zones[k].origin, q.qname)
    ensures var h := Serve(env, cfg, items, net, q);
      && h.requested == None && h.items == items
      && h.reply == (if Through(env, cfg.fall, q.qname) then Next else Written([]))
  {
    MatchesNonEmpty(env, Origins(cfg.zones), q.qname);
  }

  /** Every request goes to the template with the name substituted, with a timeout that is
      never 0 and is the configured one unless that is 0. */
  lemma RequestsAreSubstituted(env: Env, cfg: Config, items: map<string, CacheItem>, net: Request -> HttpResult, q: Query)
    ensures var h := Serve(env, cfg, items, net, q);
      h.requested.Some? ==>
        && Route(env, cfg, q).Some?
        && h.requested.value.url == ReplaceAll(Route(env, cfg, q).value, FqdnPlaceholder, q.qname)
        && h.requested.value.timeout != 0
        && (cfg.timeout != 0 ==> h.requested.value.timeout == cfg.timeout)
  {
  }

  /** A 200 answer that fits the buffer is decoded whatever the cache holds: the records of
      its body for the query type, with the TTL extracted from its Cache-Control value as
      base. */
  lemma FreshAnswer(env: Env, cfg: Config, items: map<string, CacheItem>, net: Request -> HttpResult, q: Query,
                    cc: string, n: ReadCount, text: string)
    requires Route(env, cfg, q).Some?
    requires n < MaxHTTPBodySize
    requires net(RequestFor(cfg.timeout, q.qname, Route(env, cfg, q).value)) == Got(Response(200, cc, Body(n, text)))
    ensures Serve(env, cfg, items, net, q).reply
         == Written(Decode(env, Parser(q.qtype).value, q.qname, ExtractTTL(cc, cfg.maxTTL), Lines(text)))
  {
    var uri := Route(env, cfg, q).value;
    var o := Success(text, ExtractTTL(cc, cfg.maxTTL));
    assert Fetch(cfg.timeout, cfg.maxTTL, net, q.qname, uri) == o;
    assert CachedFetch(cfg, items, net, q.qname, uri).outcome == o;
    assert Serve(env, cfg, items, net, q).reply == Respond(env, o, q.qtype, q.qname);
  }

  /** When the cache holds only TTLs `extractTTL` could produce, so it does afterwards, and
      every answer record is of the query's name and type with a TTL that is positive and
      within the configured maximum. */
  lemma AnswersRespectMaxTTL(env: Env, cfg: Config, items: map<string, CacheItem>, net: Request -> HttpResult, q: Query)
    requires CacheBounded(items, cfg.maxTTL)
    ensures var h := Serve(env, cfg, items, net, q);
      && CacheBounded(h.items, cfg.maxTTL)
      && (h.reply.Written? ==> forall k :: 0 <= k < |h.reply.answer| ==>
            && h.reply.answer[k].name == q.qname
            && h.reply.answer[k].ttl > 0
            && (cfg.maxTTL > 0 ==> h.reply.answer[k].ttl <= cfg.maxTTL))
  {
    match Route(env, cfg, q) {
      case None =>
      case Some(uri) =>
        CachedFetchBounded(cfg, items, net, q.qname, uri);
        var c := CachedFetch(cfg, items, net, q.qname, uri);
        RespondBounded(env, c.outcome, q.qtype, q.qname, cfg.maxTTL);
    }
  }

  /** An answer built from a bounded TTL is of the query's name, with TTLs in bounds. */
  lemma RespondBounded(env: Env, o: Outcome, rtype: string, name: string, maxTTL: uint32)
    requires o.Success? ==> o.ttl > 0 && (maxTTL > 0 ==> o.ttl <= maxTTL)
    ensures var r := Respond(env, o, rtype, name);
      r.Written? ==> forall k :: 0 <= k < |r.answer| ==>
        && r.answer[k].name == name
        && r.answer[k].ttl > 0
        && (maxTTL > 0 ==> r.answer[k].ttl <= maxTTL)
  {
    if o.Success? && Parser(rtype).Some? {
      var rrs := Decode(env, Parser(rtype).value, name, o.ttl, Lines(o.payload));
      assert forall k :: 0 <= k < |rrs| ==> Conforms(Parser(rtype).value, name, o.ttl, rrs[k]);
    }
  }

  /** Without caching, NXDOMAIN is returned exactly when the upstream answered 404 with a
      body that fits the buffer. */
  lemma NameErrorExactlyOn404(env: Env, cfg: Config, items: map<string, CacheItem>, net: Request -> HttpResult, q: Query)
    requires !cfg.returnCachedOnError
    requires Route(env, cfg, q).Some?
    ensures var h := Serve(env, cfg, items, net, q);
      var r := net(RequestFor(cfg.timeout, q.qname, Route(env, cfg, q).value));
      (h.reply.Failed? && h.reply.rcode == RcodeNameError)
        <==> (r.Got? && r.response.status == 404 && r.response.body.Body? && r.response.body.read < MaxHTTPBodySize)
  {
  }

  /** Without caching, an upstream that cannot be reached turns every query that needs it
      into SERVFAIL. */
  lemma OutageWithoutCache(env: Env, cfg: Config, items: map<string, CacheItem>, net: Request -> HttpResult, q: Query)
    requires !cfg.returnCachedOnError
    requires Route(env, cfg, q).Some?
    requires forall r :: net(r) == GetFailed
    ensures Serve(env, cfg, items, net, q).reply == Failed(RcodeServerFailure, GetError)
  {
  }

  /** With caching on, a query answered once from a good upstream answer is answered the
      same way again while the upstream cannot be reached (as long as its entry stays in
      the cache). */
  lemma CachedReplay(env: Env, cfg: Config, items: map<string, CacheItem>, up: Request -> HttpResult, down: Request -> HttpResult, q: Query,
                     cc: string, n: ReadCount, text: string)
    requires cfg.returnCachedOnError
    requires Route(env, cfg, q).Some?
    requires n < MaxHTTPBodySize
    requires up(RequestFor(cfg.timeout, q.qname, Route(env, cfg, q).value)) == Got(Response(200, cc, Body(n, text)))
    requires down(RequestFor(cfg.timeout, q.qname, Route(env, cfg, q).value)) == GetFailed
    ensures var first := Serve(env, cfg, items, up, q);
      Serve(env, cfg, first.items, down, q).reply == first.reply
  {
    var uri := Route(env, cfg, q).value;
    var key := CacheKey(q.qname, uri);
    var o := Success(text, ExtractTTL(cc, cfg.maxTTL));
    assert Fetch(cfg.timeout, cfg.maxTTL, up, q.qname, uri) == o;
    var c := CachedFetch(cfg, items, up, q.qname, uri);
    assert c == Cached(o, items[key := CacheItem(o.payload, o.ttl)]);
    assert Fetch(cfg.timeout, cfg.maxTTL, down, q.qname, uri) == Failure(GetError);
    var d := CachedFetch(cfg, c.items, down, q.qname, uri);
    assert d.outcome == o;
  }

  /** `Hello` on its own is one TXT record with its base TTL. */
  lemma HelloLine(env: Env, name: string, base: uint32)
    ensures Decode(env, TypeTXT, name, base, Lines("Hello")) == [TXT(name, base, ["Hello"])]
  {
    assert '\n' !in "Hello" && ' ' !in "Hello" && Trimmed("Hello");
    OneLine("Hello");
    DecodeOne(env, TypeTXT, name, base, "Hello");
    OneToken(env, TypeTXT, name, base, "Hello");
  }

  lemma NoHeaderTTL()
    ensures ExtractTTL("", 0) == 3600
  {
  }

  /** An exact TXT record whose upstream answers `Hello` with no Cache-Control header gives
      one TXT record `Hello` with TTL 3600. */
  lemma HelloAnswer(env: Env, cfg: Config, items: map<string, CacheItem>, net: Request -> HttpResult, u: string)
    requires cfg.records == [Record("example.com.", "TXT", u)] && cfg.maxTTL == 0
    requires net(RequestFor(cfg.timeout, "example.com.", u)) == Got(Response(200, "", Body(5, "Hello")))
    ensures Serve(env, cfg, items, net, Query("example.com.", "TXT")).reply
         == Written([TXT("example.com.", 3600, ["Hello"])])
  {
    var q := Query("example.com.", "TXT");
    ExactRecordWins(env, cfg, items, net, q, 0);
    FreshAnswer(env, cfg, items, net, q, "", 5, "Hello");
    NoHeaderTTL();
    HelloLine(env, "example.com.", 3600);
  }

  /** `max-age: none` is no match, so the configured maximum applies. */
  lemma DigitlessMaxAge()
    ensures ExtractTTL("max-age: none", 600) == 600
  {
    assert "max-age: none" == MaxAgePrefix + " " + "none";
    DirectiveWithoutDigits(" ", "none");
    MaxAgeNoMatch("max-age: none");
  }

  /** `public, max-age: 1800` announces 1800 seconds. */
  lemma MaxAge1800()
    ensures ExtractTTL("public, max-age: 1800", 0) == 1800
  {
    HeaderDigits();
    Atoi1800();
  }

  lemma HeaderDigits()
    ensures MaxAge("public, max-age: 1800") == Some("1800")
  {
    assert "public, max-age: 1800" == "public, " + MaxAgePrefix + " " + "1800" + "";
    NoMatchWithoutM("public, ", MaxAgePrefix + " " + "1800" + "");
    assert "public, " + MaxAgePrefix + " " + "1800" + "" == "public, " + (MaxAgePrefix + " " + "1800" + "");
    MaxAgeFirst("public, ", " ", "1800", "");
  }

  lemma Atoi1800()
    ensures Atoi("1800") == Parsed(1800)
  {
    assert Decimal(18) == "18";
    assert Decimal(180) == "180";
    assert Decimal(1800) == "1800";
    AtoiDecimal(1800);
  }

  /** `AAAA 3600 ::1` is the line holding type AAAA, TTL 3600 and data `::1`. */
  lemma RenderAAAA3600()
    ensures Render(LineFields(Some("AAAA"), Some(3600), "::1")) == "AAAA 3600 ::1"
  {
    assert Decimal(360) == "360";
    assert Decimal(3600) == "3600";
  }

  lemma AAAA3600Trimmed()
    ensures '\n' !in "AAAA 3600 ::1" && Trimmed("AAAA 3600 ::1")
  {
  }

  /** A single AAAA line whose own TTL exceeds the base is one AAAA record with the base
      TTL. */
  lemma CappedLine(env: Env, name: string, base: uint32, line: string)
    requires '\n' !in line && Trimmed(line)
    requires LineType(env, line) == "AAAA" && LineTTL(env, line) > base > 0
    ensures Decode(env, TypeAAAA, name, base, Lines(line)) == [AAAA(name, base, env.parseIP(Payload(env, line)))]
  {
    OneLine(line);
    DecodeOne(env, TypeAAAA, name, base, line);
  }

  /** The line `AAAA 3600 ::1` under a base TTL of 1800 is one AAAA record with TTL 1800. */
  lemma CappedAAAALine(env: Env, name: string)
    requires env.isType("AAAA")
    ensures Decode(env, TypeAAAA, name, 1800, Lines("AAAA 3600 ::1")) == [AAAA(name, 1800, env.parseIP("::1"))]
  {
    var f := LineFields(Some("AAAA"), Some(3600), "::1");
    var line := Render(f);
    RenderAAAA3600();
    ParseRender(env, f);
    AAAA3600Trimmed();
    CappedLine(env, name, 1800, line);
  }

  /** A Cache-Control max-age of 1800 caps a line that asks for 3600. */
  lemma HeaderCapsLineTTL(env: Env, cfg: Config, items: map<string, CacheItem>, net: Request -> HttpResult, u: string)
    requires cfg.records == [] && cfg.zones == [Zone("example.com.", u)] && cfg.maxTTL == 0
    requires env.isSubDomain("example.com.", "foo.example.com.") && env.isType("AAAA")
    requires net(RequestFor(cfg.timeout, "foo.example.com.", u))
          == Got(Response(200, "public, max-age: 1800", Body(13, "AAAA 3600 ::1")))
    ensures Serve(env, cfg, items, net, Query("foo.example.com.", "AAAA")).reply
         == Written([AAAA("foo.example.com.", 1800, env.parseIP("::1"))])
  {
    var q := Query("foo.example.com.", "AAAA");
    ZoneUsesFirstTemplate(env, cfg, items, net, q, 0);
    FreshAnswer(env, cfg, items, net, q, "public, max-age: 1800", 13, "AAAA 3600 ::1");
    MaxAge1800();
    CappedAAAALine(env, "foo.example.com.");
  }

  /** The typed line `A 1.2.3.4` under base TTL 3600 is one A record with TTL 3600. */
  lemma TypedALine(env: Env, name: string)
    requires env.isType("A")
    ensures Decode(env, TypeA, name, 3600, Lines("A 1.2.3.4")) == [A(name, 3600, env.parseIP("1.2.3.4"))]
  {
    assert TypeName(TypeA) + " " + "1.2.3.4" == "A 1.2.3.4";
    TypedOnly(env, TypeA, name, 3600, "1.2.3.4");
  }

  /** A zone whose upstream answers `A 1.2.3.4` without a Cache-Control header gives one A
      record with TTL 3600. */
  lemma ZoneTypedAnswer(env: Env, cfg: Config, items: map<string, CacheItem>, net: Request -> HttpResult, u: string)
    requires cfg.records == [] && cfg.zones == [Zone("example.com.", u)] && cfg.maxTTL == 0
    requires env.isSubDomain("example.com.", "foo.example.com.") && env.isType("A")
    requires net(RequestFor(cfg.timeout, "foo.example.com.", u)) == Got(Response(200, "", Body(9, "A 1.2.3.4")))
    ensures Serve(env, cfg, items, net, Query("foo.example.com.", "A")).reply
         == Written([A("foo.example.com.", 3600, env.parseIP("1.2.3.4"))])
  {
    var q := Query("foo.example.com.", "A");
    ZoneUsesFirstTemplate(env, cfg, items, net, q, 0);
    FreshAnswer(env, cfg, items, net, q, "", 9, "A 1.2.3.4");
    NoHeaderTTL();
    TypedALine(env, "foo.example.com.");
  }

  /** Of the type-less lines `1.2.3.4` and `::1`, the A decoder keeps only the IPv4 one. */
  lemma UntypedPairForA(env: Env, name: string)
    requires HasIPv4Form(env.parseIP("1.2.3.4")) && !HasIPv4Form(env.parseIP("::1"))
    ensures Decode(env, TypeA, name, 3600, Lines("1.2.3.4\n::1")) == [A(name, 3600, env.parseIP("1.2.3.4"))]
  {
    assert "1.2.3.4" + "\n" + "::1" == "1.2.3.4\n::1";
    MixedFamilies(env, name, 3600, "1.2.3.4", "::1");
  }

  /** A zone whose upstream answers the two type-less lines `1.2.3.4` and `::1` gives, for
      an A query, the IPv4 address only, with TTL 3600. */
  lemma ZoneUntypedAnswer(env: Env, cfg: Config, items: map<string, CacheItem>, net: Request -> HttpResult, u: string)
    requires cfg.records == [] && cfg.zones == [Zone("example.com.", u)] && cfg.maxTTL == 0
    requires env.isSubDomain("example.com.", "foo.example.com.")
    requires HasIPv4Form(env.parseIP("1.2.3.4")) && !HasIPv4Form(env.parseIP("::1"))
    requires net(RequestFor(cfg.timeout, "foo.example.com.", u)) == Got(Response(200, "", Body(11, "1.2.3.4\n::1")))
    ensures Serve(env, cfg, items, net, Query("foo.example.com.", "A")).reply
         == Written([A("foo.example.com.", 3600, env.parseIP("1.2.3.4"))])
  {
    var q := Query("foo.example.com.", "A");
    ZoneUsesFirstTemplate(env, cfg, items, net, q, 0);
    FreshAnswer(env, cfg, items, net, q, "", 11, "1.2.3.4\n::1");
    NoHeaderTTL();
    UntypedPairForA(env, "foo.example.com.");
  }

  /** The line `AAAA 1800 ::1` under base TTL 3600 keeps its own, lower TTL. */
  lemma LoweredAAAALine(env: Env, name: string)
    requires env.isType("AAAA")
    ensures Decode(env, TypeAAAA, name, 3600, Lines("AAAA 1800 ::1")) == [AAAA(name, 1800, env.parseIP("::1"))]
  {
    assert Decimal(18) == "18";
    assert Decimal(180) == "180";
    assert Decimal(1800) == "1800";
    assert TypeName(TypeAAAA) + " " + Decimal(1800) + " " + "::1" == "AAAA 1800 ::1";
    TypedTimed(env, TypeAAAA, name, 3600, 1800, "::1");
  }

  /** A zone whose upstream answers `AAAA 1800 ::1` without a Cache-Control header gives one
      AAAA record with the line's TTL of 1800, below the default 3600. */
  lemma LineLowersTTL(env: Env, cfg: Config, items: map<string, CacheItem>, net: Request -> HttpResult, u: string)
    requires cfg.records == [] && cfg.zones == [Zone("example.com.", u)] && cfg.maxTTL == 0
    requires env.isSubDomain("example.com.", "foo.example.com.") && env.isType("AAAA")
    requires net(RequestFor(cfg.timeout, "foo.example.com.", u)) == Got(Response(200, "", Body(13, "AAAA 1800 ::1")))
    ensures Serve(env, cfg, items, net, Query("foo.example.com.", "AAAA")).reply
         == Written([AAAA("foo.example.com.", 1800, env.parseIP("::1"))])
  {
    var q := Query("foo.example.com.", "AAAA");
    ZoneUsesFirstTemplate(env, cfg, items, net, q, 0);
    FreshAnswer(env, cfg, items, net, q, "", 13, "AAAA 1800 ::1");
    NoHeaderTTL();
    LoweredAAAALine(env, "foo.example.com.");
  }
}
