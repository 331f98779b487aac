/** The record decoder: splits an HTTP response body into lines, reads the optional
    type and TTL prefix of each line, and builds TXT, A or AAAA records from them. */
module ResponseParsers {
  import opened Text
  import opened Foreign
  import opened Seqs

  // ---------------------------------------------------------------------------
  // One line: `[TYPE [TTL]] DATA`, tokens separated by single spaces

  /** `recordLine.Type`: a non-empty result is a known type that is the line's first
      space-separated token, taken as it is (no case folding). */
  function LineType(env: Env, line: string): (t: string)
    ensures t == "" || (&& env.isType(t) && ' ' !in t
                        && |t| < |line| && line[..|t|] == t && line[|t|] == ' ')
  {
    var p := Split(line, ' ');
    if |p| >= 2 && env.isType(p[0]) then
      SplitFirst(line, ' ');
      p[0]
    else ""
  }

  /** `recordLine.TTL`: the second token read by Atoi and truncated to 32 bits, when the
      first token is a type and at least three tokens exist; otherwise 0. */
  function LineTTL(env: Env, line: string): (n: uint32)
    ensures n != 0 ==> |Split(line, ' ')| >= 3 && env.isType(Split(line, ' ')[0])
  {
    var p := Split(line, ' ');
    if |p| >= 3 && env.isType(p[0]) then ToUint32(Atoi(p[1]).Value()) else 0
  }

  predicate IsSuffix(r: string, s: string)
  {
    |r| <= |s| && s[|s| - |r|..] == r
  }

  /** The tokens from the second or the third on, joined, are a tail of the line. */
  lemma TokensTail(line: string, k: nat)
    requires 1 <= k <= 2 && k < |Split(line, ' ')|
    ensures IsSuffix(Join(Split(line, ' ')[k..], ' '), line)
  {
    var p := Split(line, ' ');
    SplitFirst(line, ' ');
    var q := p[1..];
    assert IsSuffix(Join(q, ' '), line);
    if k == 2 {
      assert Join(q, ' ') == q[0] + [' '] + Join(q[1..], ' ');
      assert q[1..] == p[2..];
      var j := Join(p[2..], ' ');
      assert IsSuffix(j, Join(q, ' '));
      assert line[|line| - |j|..] == Join(q, ' ')[|Join(q, ' ')| - |j|..];
    }
  }

  /** `recordLine.Payload`: drops a leading type token, then a numeric second token, each
      only while another token remains, and joins the rest with single spaces. The payload
      is therefore always a tail of the line: nothing is rewritten, only a prefix dropped. */
  function Payload(env: Env, line: string): (data: string)
    ensures IsSuffix(data, line)
  {
    var p := Split(line, ' ');
    if |p| > 1 && env.isType(p[0]) then
      if |p[1..]| > 1 && Atoi(p[1]).Parsed? then
        TokensTail(line, 2);
        Join(p[2..], ' ')
      else
        TokensTail(line, 1);
        Join(p[1..], ' ')
    else
      JoinSplit(line, ' ');
      Join(p, ' ')
  }

  /** A line without a type prefix is its own payload, with no type and TTL 0. */
  lemma UntypedLine(env: Env, line: string)
    requires !(|Split(line, ' ')| >= 2 && env.isType(Split(line, ' ')[0]))
    ensures LineType(env, line) == "" && LineTTL(env, line) == 0
    ensures Payload(env, line) == line
  {
    JoinSplit(line, ' ');
  }

  /** The fields of a line as an upstream writes them: `[TYPE [TTL]] DATA`. */
  datatype LineFields = LineFields(rtype: Option<string>, ttl: Option<uint32>, data: string)

  /** A line holding the given fields, separated by single spaces. */
  function Render(f: LineFields): string
  {
    match f.rtype
    case None => f.data
    case Some(t) =>
      match f.ttl
      case None => t + " " + f.data
      case Some(n) => t + " " + Decimal(n) + " " + f.data
  }

  /** Fields that the line parser can tell apart once rendered: a TTL only after a type; a
      type that is one known token; data of a type-less line that does not itself start with
      a type token; and, after a type without TTL, data whose first token cannot be read as
      a number (or that has only one token). */
  predicate Unambiguous(env: Env, f: LineFields)
  {
    match f.rtype
    case None =>
      f.ttl == None && !(|Split(f.data, ' ')| >= 2 && env.isType(Split(f.data, ' ')[0]))
    case Some(t) =>
      && ' ' !in t && env.isType(t)
      && (f.ttl == None ==> ' ' !in f.data || Atoi(Split(f.data, ' ')[0]) == Invalid)
  }

  /** Reading a rendered line gives back its type, its TTL and its data. */
  lemma ParseRender(env: Env, f: LineFields)
    requires Unambiguous(env, f)
    ensures LineType(env, Render(f)) == (if f.rtype.Some? then f.rtype.value else "")
    ensures LineTTL(env, Render(f)) == (if f.ttl.Some? then f.ttl.value else 0)
    ensures Payload(env, Render(f)) == f.data
  {
    match f.rtype {
      case None =>
        UntypedLine(env, f.data);
      case Some(t) =>
        match f.ttl {
          case None => ParseTyped(env, t, f.data);
          case Some(n) => ParseTimed(env, t, n, f.data);
        }
    }
  }

  lemma ParseTyped(env: Env, t: string, data: string)
    requires ' ' !in t && env.isType(t)
    requires ' ' !in data || Atoi(Split(data, ' ')[0]) == Invalid
    ensures LineType(env, t + " " + data) == t
    ensures LineTTL(env, t + " " + data) == 0
    ensures Payload(env, t + " " + data) == data
  {
    var p := Split(t + " " + data, ' ');
    assert p[0] == t && p[1..] == Split(data, ' ') by {
      SplitCons(t, data, ' ');
    }
    assert Join(p[1..], ' ') == data by {
      JoinSplit(data, ' ');
    }
    if ' ' !in data {
      SplitNoSep(data, ' ');
    }
  }

  /** `TYPE TOK DATA` with a second token that Atoi reads (`007`, `+5`, `-1`, or one past
      32 bits alike) has that token dropped from the payload, and its value truncated to
      32 bits as TTL. */
  lemma ParseToken(env: Env, t: string, tok: string, data: string)
    requires ' ' !in t && env.isType(t)
    requires ' ' !in tok && Atoi(tok).Parsed?
    ensures LineType(env, t + " " + tok + " " + data) == t
    ensures LineTTL(env, t + " " + tok + " " + data) == ToUint32(Atoi(tok).n)
    ensures Payload(env, t + " " + tok + " " + data) == data
  {
    var line := t + " " + tok + " " + data;
    SplitCons(tok, data, ' ');
    assert line == t + [' '] + (tok + [' '] + data);
    SplitCons(t, tok + [' '] + data, ' ');
    var p := Split(line, ' ');
    assert p == [t, tok] + Split(data, ' ');
    assert p[1..] == [tok] + Split(data, ' ');
    assert p[2..] == Split(data, ' ');
    JoinSplit(data, ' ');
  }

  /** `TYPE TOK DATA` with a second token past the 64-bit range (`99999999999999999999`)
      keeps the token in the payload, since Atoi reports an error, yet takes the clamped
      value Atoi returns alongside that error, truncated to 32 bits, as TTL. */
  lemma ParseOverflow(env: Env, t: string, tok: string, data: string)
    requires ' ' !in t && env.isType(t)
    requires ' ' !in tok && Atoi(tok).OutOfRange?
    ensures LineType(env, t + " " + tok + " " + data) == t
    ensures LineTTL(env, t + " " + tok + " " + data) == ToUint32(Atoi(tok).Value())
    ensures Payload(env, t + " " + tok + " " + data) == tok + " " + data
  {
    var line := t + " " + tok + " " + data;
    SplitCons(tok, data, ' ');
    assert line == t + [' '] + (tok + [' '] + data);
    SplitCons(t, tok + [' '] + data, ' ');
    var p := Split(line, ' ');
    assert p[1..] == Split(tok + [' '] + data, ' ');
    JoinSplit(tok + [' '] + data, ' ');
    LineTTLToken(env, t, tok, data);
  }

  lemma ParseTimed(env: Env, t: string, n: uint32, data: string)
    requires ' ' !in t && env.isType(t)
    ensures LineType(env, t + " " + Decimal(n) + " " + data) == t
    ensures LineTTL(env, t + " " + Decimal(n) + " " + data) == n
    ensures Payload(env, t + " " + Decimal(n) + " " + data) == data
  {
    AtoiDecimal(n);
    assert ' ' !in Decimal(n);
    ParseToken(env, t, Decimal(n), data);
  }

  /** The TTL is the token after the type, read by Atoi and truncated to 32 bits. */
  lemma LineTTLToken(env: Env, t: string, tok: string, rest: string)
    requires ' ' !in t && ' ' !in tok && env.isType(t)
    ensures LineTTL(env, t + " " + tok + " " + rest) == ToUint32(Atoi(tok).Value())
  {
    SplitCons(tok, rest, ' ');
    assert t + " " + tok + " " + rest == t + [' '] + (tok + [' '] + rest);
    SplitCons(t, tok + [' '] + rest, ' ');
  }

  // ---------------------------------------------------------------------------
  // Records

  datatype RRType = TypeTXT | TypeA | TypeAAAA

  /** The type token that names a record family. */
  function TypeName(kind: RRType): string
  {
    match kind
    case TypeTXT => "TXT"
    case TypeA => "A"
    case TypeAAAA => "AAAA"
  }

  /** The answer records the decoders build (a nil `net.IP` is `None`). */
  datatype RR =
    | TXT(name: string, ttl: uint32, txt: seq<string>)
    | A(name: string, ttl: uint32, a: Option<IP>)
    | AAAA(name: string, ttl: uint32, aaaa: Option<IP>)
  {
    function Type(): RRType
    {
      match this
      case TXT(_, _, _) => TypeTXT
      case A(_, _, _) => TypeA
      case AAAA(_, _, _) => TypeAAAA
    }
  }

  /** The TTL a record gets: a line TTL of 0 or above the base TTL gives the base TTL, so a
      line may lower the TTL but never raise it. */
  function EffectiveTTL(lineTTL: uint32, base: uint32): (r: uint32)
    ensures r <= base
    ensures r == base || r == lineTTL
    ensures 0 < lineTTL <= base ==> r == lineTTL
    ensures base > 0 ==> r > 0
  {
    if lineTTL == 0 || lineTTL > base then base else lineTTL
  }

  /** Whether the decoder for `kind` emits a record for `line`. A type-less line goes to A
      when its payload parses as an IPv4 address and to AAAA otherwise (also when it does
      not parse); a typed line only to its own type, parsable or not. */
  predicate Emits(env: Env, kind: RRType, line: string)
    ensures Emits(env, kind, line) ==> LineType(env, line) in {"", TypeName(kind)}
    ensures LineType(env, line) == TypeName(kind) ==> Emits(env, kind, line)
    ensures LineType(env, line) == "" && kind == TypeTXT ==> Emits(env, kind, line)
  {
    var t := LineType(env, line);
    match kind
    case TypeTXT => t == "" || t == "TXT"
    case TypeA => t == "A" || (t == "" && HasIPv4Form(env.parseIP(Payload(env, line))))
    case TypeAAAA => t == "AAAA" || (t == "" && !HasIPv4Form(env.parseIP(Payload(env, line))))
  }

  /** The record of family `kind` for a payload: its text for TXT, its parsed address for A
      and AAAA. */
  function Build(env: Env, kind: RRType, name: string, ttl: uint32, data: string): RR
  {
    match kind
    case TypeTXT => TXT(name, ttl, [data])
    case TypeA => A(name, ttl, env.parseIP(data))
    case TypeAAAA => AAAA(name, ttl, env.parseIP(data))
  }

  function RecordFor(env: Env, kind: RRType, name: string, base: uint32, line: string): RR
  {
    Build(env, kind, name, EffectiveTTL(LineTTL(env, line), base), Payload(env, line))
  }

  /** The record a decoder builds for one line, if any. */
  function Item(env: Env, kind: RRType, name: string, base: uint32, line: string): (rr: seq<RR>)
    ensures |rr| <= 1
    ensures |rr| == 1 <==> Emits(env, kind, line)
  {
    if Emits(env, kind, line) then [RecordFor(env, kind, name, base, line)] else []
  }

  /** The decoder for `kind`, one line at a time. */
  function Decoder(env: Env, kind: RRType, name: string, base: uint32): string -> seq<RR>
  {
    line => Item(env, kind, name, base, line)
  }

  /** What a record of the decoder for `kind` looks like: of that type, named `name`, with a
      TTL no higher than `base`, and not 0 unless `base` is. */
  predicate Conforms(kind: RRType, name: string, base: uint32, rr: RR)
  {
    && rr.Type() == kind && rr.name == name
    && rr.ttl <= base && (base > 0 ==> rr.ttl > 0)
  }

  /** The records a decoder builds from the lines: at most one per line, each conforming to
      the decoder. */
  function Decode(env: Env, kind: RRType, name: string, base: uint32, lines: seq<string>): (rrs: seq<RR>)
    ensures |rrs| <= |lines|
    ensures forall k :: 0 <= k < |rrs| ==> Conforms(kind, name, base, rrs[k])
  {
    var f := Decoder(env, kind, name, base);
    CollectBound(f, lines);
    CollectAll(f, rr => Conforms(kind, name, base, rr), lines);
    Collect(f, lines)
  }

  /** Decoding keeps line order: the records of two blocks of lines are those of the first
      block followed by those of the second. */
  lemma DecodeAppend(env: Env, kind: RRType, name: string, base: uint32, xs: seq<string>, ys: seq<string>)
    ensures Decode(env, kind, name, base, xs + ys)
         == Decode(env, kind, name, base, xs) + Decode(env, kind, name, base, ys)
  {
    CollectAppend(Decoder(env, kind, name, base), xs, ys);
  }

  /** A decoder loop's step: the records of one more line follow those of the lines before. */
  lemma DecodeStep(env: Env, kind: RRType, name: string, base: uint32, lines: seq<string>, i: nat)
    requires i < |lines|
    ensures Decode(env, kind, name, base, lines[..i + 1])
         == Decode(env, kind, name, base, lines[..i]) + Item(env, kind, name, base, lines[i])
  {
    CollectSnoc(Decoder(env, kind, name, base), lines, i);
  }

  /** On type-less lines the A and AAAA decoders split the lines between them: every line
      yields a record in exactly one of the two. */
  lemma TypelessSplitBetweenFamilies(env: Env, name: string, base: uint32, lines: seq<string>)
    requires forall k :: 0 <= k < |lines| ==> LineType(env, lines[k]) == ""
    ensures |Decode(env, TypeA, name, base, lines)| + |Decode(env, TypeAAAA, name, base, lines)| == |lines|
  {
    CollectPartition(Decoder(env, TypeA, name, base), Decoder(env, TypeAAAA, name, base), lines);
  }

  /** The TXT decoder emits one record per line whose type is absent or TXT, in line
      order, whose text is the line's payload. */
  lemma TxtOnePerLine(env: Env, name: string, base: uint32, lines: seq<string>)
    requires forall k :: 0 <= k < |lines| ==> LineType(env, lines[k]) in {"", "TXT"}
    ensures |Decode(env, TypeTXT, name, base, lines)| == |lines|
    ensures forall k :: 0 <= k < |lines| ==>
      Decode(env, TypeTXT, name, base, lines)[k] == RecordFor(env, TypeTXT, name, base, lines[k])
  {
    CollectSingletons(Decoder(env, TypeTXT, name, base), lines);
  }

  // ---------------------------------------------------------------------------
  // Splitting the body into lines

  /** A non-empty string with no white space at either end. */
  predicate Trimmed(l: string)
  {
    l != [] && !IsSpace(l[0]) && !IsSpace(l[|l| - 1])
  }

  /** A segment trimmed, or nothing when that leaves it empty. */
  function TrimmedLine(segment: string): (l: seq<string>)
    ensures |l| <= 1
    ensures forall j :: 0 <= j < |l| ==> Trimmed(l[j])
  {
    var t := TrimSpace(segment);
    if t == "" then [] else [t]
  }

  /** The trimmed, non-blank segments, in order: never more than there are segments, each
      non-empty and without white space at either end. */
  function NonBlank(segments: seq<string>): (lines: seq<string>)
    ensures |lines| <= |segments|
    ensures forall k :: 0 <= k < |lines| ==> Trimmed(lines[k])
  {
    CollectBound(TrimmedLine, segments);
    CollectAll(TrimmedLine, Trimmed, segments);
    Collect(TrimmedLine, segments)
  }

  /** The lines of a response body: its `\n`-separated segments, trimmed, blank ones dropped. */
  function Lines(response: string): (lines: seq<string>)
    ensures |lines| <= |Split(response, '\n')|
    ensures forall k :: 0 <= k < |lines| ==> Trimmed(lines[k])
  {
    NonBlank(Split(response, '\n'))
  }

  /** A line is in the result exactly when it is the non-empty trimming of some segment. */
  lemma NonBlankMembers(segments: seq<string>, x: string)
    ensures x in NonBlank(segments)
        <==> x != "" && exists i :: 0 <= i < |segments| && TrimSpace(segments[i]) == x
  {
    CollectMembers(TrimmedLine, segments, x);
    if x != "" && exists i :: 0 <= i < |segments| && TrimSpace(segments[i]) == x {
      var i :| 0 <= i < |segments| && TrimSpace(segments[i]) == x;
      assert x in TrimmedLine(segments[i]);
    }
  }

  /** Order is kept: the lines of two blocks of segments are those of the first block
      followed by those of the second. */
  lemma NonBlankAppend(xs: seq<string>, ys: seq<string>)
    ensures NonBlank(xs + ys) == NonBlank(xs) + NonBlank(ys)
  {
    CollectAppend(TrimmedLine, xs, ys);
  }

  // ---------------------------------------------------------------------------
  // The three decoders, as the loops they are

  /** `parseLines`. */
  method ParseLines(response: string) returns (lines: seq<string>)
    ensures lines == Lines(response)
  {
    var segments := Split(response, '\n');
    lines := [];
    for i := 0 to |segments|
      invariant lines == NonBlank(segments[..i])
    {
      assert segments[..i + 1][..i] == segments[..i];
      var line := TrimSpace(segments[i]);
      if line == "" {
        continue;
      }
      lines := lines + [line];
    }
    assert segments[..|segments|] == segments;
  }

  /** `parseTXT`. */
  method ParseTXT(env: Env, name: string, ttl: uint32, response: string) returns (rrs: seq<RR>)
    ensures rrs == Decode(env, TypeTXT, name, ttl, Lines(response))
  {
    var lines := ParseLines(response);
    rrs := [];
    for i := 0 to |lines|
      invariant rrs == Decode(env, TypeTXT, name, ttl, lines[..i])
    {
      DecodeStep(env, TypeTXT, name, ttl, lines, i);
      var l := lines[i];
      var t := LineType(env, l);
      var rttl := LineTTL(env, l);
      if rttl == 0 || rttl > ttl {
        rttl := ttl;
      }
      assert rttl == EffectiveTTL(LineTTL(env, l), ttl);
      if t == "" || t == "TXT" {
        assert Item(env, TypeTXT, name, ttl, l) == [TXT(name, rttl, [Payload(env, l)])];
        rrs := rrs + [TXT(name, rttl, [Payload(env, l)])];
      } else {
        assert Item(env, TypeTXT, name, ttl, l) == [];
      }
    }
    assert lines[..|lines|] == lines;
  }

  /** `parseA`. */
  method ParseA(env: Env, name: string, ttl: uint32, response: string) returns (rrs: seq<RR>)
    ensures rrs == Decode(env, TypeA, name, ttl, Lines(response))
  {
    var lines := ParseLines(response);
    rrs := [];
    for i := 0 to |lines|
      invariant rrs == Decode(env, TypeA, name, ttl, lines[..i])
    {
      DecodeStep(env, TypeA, name, ttl, lines, i);
      var l := lines[i];
      var t := LineType(env, l);
      var rttl := LineTTL(env, l);
      if rttl == 0 || rttl > ttl {
        rttl := ttl;
      }
      assert rttl == EffectiveTTL(LineTTL(env, l), ttl);
      if t == "" || t == "A" {
        var ip := env.parseIP(Payload(env, l));
        if t == "" && !HasIPv4Form(ip) {
          assert Item(env, TypeA, name, ttl, l) == [];
          // a type-less line that is not an IPv4 address is left to the AAAA decoder
          continue;
        }
        assert Item(env, TypeA, name, ttl, l) == [A(name, rttl, ip)];
        rrs := rrs + [A(name, rttl, ip)];
      } else {
        assert Item(env, TypeA, name, ttl, l) == [];
      }
    }
    assert lines[..|lines|] == lines;
  }

  /** `parseAAAA`. */
  method ParseAAAA(env: Env, name: string, ttl: uint32, response: string) returns (rrs: seq<RR>)
    ensures rrs == Decode(env, TypeAAAA, name, ttl, Lines(response))
  {
    var lines := ParseLines(response);
    rrs := [];
    for i := 0 to |lines|
      invariant rrs == Decode(env, TypeAAAA, name, ttl, lines[..i])
    {
      DecodeStep(env, TypeAAAA, name, ttl, lines, i);
      var l := lines[i];
      var t := LineType(env, l);
      var rttl := LineTTL(env, l);
      if rttl == 0 || rttl > ttl {
        rttl := ttl;
      }
      assert rttl == EffectiveTTL(LineTTL(env, l), ttl);
      if t == "" || t == "AAAA" {
        var ip := env.parseIP(Payload(env, l));
        if t == "" && HasIPv4Form(ip) {
          assert Item(env, TypeAAAA, name, ttl, l) == [];
          // a type-less IPv4 address is left to the A decoder
          continue;
        }
        assert Item(env, TypeAAAA, name, ttl, l) == [AAAA(name, rttl, ip)];
        rrs := rrs + [AAAA(name, rttl, ip)];
      } else {
        assert Item(env, TypeAAAA, name, ttl, l) == [];
      }
    }
    assert lines[..|lines|] == lines;
  }

  // ---------------------------------------------------------------------------
  // Worked cases

  /** `A 1800` has a type and two tokens only, so 1800 is its payload and its TTL is 0. */
  lemma TypeAndNumberOnly(env: Env)
    requires env.isType("A")
    ensures LineType(env, "A 1800") == "A"
    ensures LineTTL(env, "A 1800") == 0
    ensures Payload(env, "A 1800") == "1800"
  {
    ParseTyped(env, "A", "1800");
    assert "A" + " " + "1800" == "A 1800";
  }

  /** A zero-padded TTL token is still a number: `A 007 x` has TTL 7 and payload `x`. */
  lemma PaddedTTL(env: Env)
    requires env.isType("A")
    ensures LineTTL(env, "A 007 x") == 7
    ensures Payload(env, "A 007 x") == "x"
  {
    assert "007"[..2] == "00" && "00"[..1] == "0" && "0"[..0] == [];
    assert Atoi("007") == Parsed(7);
    ParseToken(env, "A", "007", "x");
    assert "A" + " " + "007" + " " + "x" == "A 007 x";
  }

  /** A TTL token one past the 64-bit range is kept in the payload, and the clamped value
      Atoi returns with its error, 2^63 - 1, truncates to a TTL of 2^32 - 1. */
  lemma OverflowTTLKept(env: Env)
    requires env.isType("A")
    ensures LineTTL(env, "A " + Decimal(MaxInt64 + 1) + " x") == 0xFFFF_FFFF
    ensures Payload(env, "A " + Decimal(MaxInt64 + 1) + " x") == Decimal(MaxInt64 + 1) + " x"
  {
    var tok := Decimal(MaxInt64 + 1);
    AtoiOverflow(MaxInt64 + 1);
    assert ' ' !in tok;
    ParseOverflow(env, "A", tok, "x");
    assert "A" + " " + tok + " " + "x" == "A " + tok + " x";
    assert tok + " " + "x" == tok + " x";
  }

  /** A negative TTL token wraps around: `A -1 x` has TTL 2^32 - 1. */
  lemma NegativeTTLWraps(env: Env)
    requires env.isType("A")
    ensures LineTTL(env, "A -1 x") == 0xffff_ffff
  {
    LineTTLToken(env, "A", "-1", "x");
    assert "A" + " " + "-1" + " " + "x" == "A -1 x";
    assert "-1"[1..] == "1";
    assert "1"[..0] == [];
  }

  /** A body of one non-blank line, already trimmed, has exactly that line. */
  lemma OneLine(a: string)
    requires '\n' !in a && Trimmed(a)
    ensures Lines(a) == [a]
  {
    SplitNoSep(a, '\n');
    assert TrimmedLine(a) == [a];
    CollectOne(TrimmedLine, a);
  }

  /** The records decoded from a single line. */
  lemma DecodeOne(env: Env, kind: RRType, name: string, base: uint32, line: string)
    ensures Decode(env, kind, name, base, [line]) == Item(env, kind, name, base, line)
  {
    CollectOne(Decoder(env, kind, name, base), line);
  }

  /** A body that is one line `TYPE DATA`, with a one-token data, is one record of that
      type carrying the base TTL. */
  lemma TypedOnly(env: Env, kind: RRType, name: string, base: uint32, data: string)
    requires env.isType(TypeName(kind)) && ' ' !in data
    requires '\n' !in data && Trimmed(TypeName(kind) + " " + data)
    ensures Decode(env, kind, name, base, Lines(TypeName(kind) + " " + data)) == [Build(env, kind, name, base, data)]
  {
    var line := TypeName(kind) + " " + data;
    ParseTyped(env, TypeName(kind), data);
    OneLine(line);
    DecodeOne(env, kind, name, base, line);
  }

  /** A body that is one line `TYPE TTL DATA` is one record of that type whose TTL is the
      line's, unless that is 0 or above the base. */
  lemma TypedTimed(env: Env, kind: RRType, name: string, base: uint32, n: uint32, data: string)
    requires env.isType(TypeName(kind))
    requires '\n' !in data && Trimmed(TypeName(kind) + " " + Decimal(n) + " " + data)
    ensures Decode(env, kind, name, base, Lines(TypeName(kind) + " " + Decimal(n) + " " + data))
         == [Build(env, kind, name, EffectiveTTL(n, base), data)]
  {
    var line := TypeName(kind) + " " + Decimal(n) + " " + data;
    ParseTimed(env, TypeName(kind), n, data);
    OneLine(line);
    DecodeOne(env, kind, name, base, line);
  }

  /** A body of two non-blank lines, each already trimmed, has exactly those two lines. */
  lemma TwoLines(a: string, b: string)
    requires '\n' !in a && '\n' !in b && Trimmed(a) && Trimmed(b)
    ensures Lines(a + "\n" + b) == [a, b]
  {
    SplitNoSep(b, '\n');
    SplitCons(a, b, '\n');
    assert a + "\n" + b == a + ['\n'] + b;
    assert Split(a + "\n" + b, '\n') == [a, b];
    assert TrimmedLine(a) == [a] && TrimmedLine(b) == [b];
    CollectPair(TrimmedLine, a, b);
  }

  /** A line with no space is type-less and decoded as a whole. */
  lemma OneToken(env: Env, kind: RRType, name: string, base: uint32, line: string)
    requires ' ' !in line
    ensures LineType(env, line) == "" && Payload(env, line) == line
    ensures RecordFor(env, kind, name, base, line).ttl == base
  {
    SplitNoSep(line, ' ');
    UntypedLine(env, line);
  }

  /** A body of an IPv4 line and an IPv6 line, neither typed, gives its first line to the
      A decoder and its second to the AAAA decoder. */
  lemma MixedFamilies(env: Env, name: string, base: uint32, v4: string, v6: string)
    requires '\n' !in v4 && '\n' !in v6 && ' ' !in v4 && ' ' !in v6 && Trimmed(v4) && Trimmed(v6)
    requires HasIPv4Form(env.parseIP(v4)) && !HasIPv4Form(env.parseIP(v6))
    ensures Decode(env, TypeA, name, base, Lines(v4 + "\n" + v6)) == [A(name, base, env.parseIP(v4))]
    ensures Decode(env, TypeAAAA, name, base, Lines(v4 + "\n" + v6)) == [AAAA(name, base, env.parseIP(v6))]
  {
    TwoLines(v4, v6);
    OneToken(env, TypeA, name, base, v4);
    OneToken(env, TypeA, name, base, v6);
    OneToken(env, TypeAAAA, name, base, v4);
    OneToken(env, TypeAAAA, name, base, v6);
    CollectPair(Decoder(env, TypeA, name, base), v4, v6);
    CollectPair(Decoder(env, TypeAAAA, name, base), v4, v6);
  }
}
