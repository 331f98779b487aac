/** Reading the `httprecord` directive of a server block: its arguments (origins and a
    template URI) and the lines of its block (`onerror`, `timeout`, `fallthrough`, and one
    line per record type). */
module Setup {
  import opened Text
  import opened Foreign
  import opened HttpRecord
  import opened Seqs

  /** One line of a block: its first token and the tokens after it. */
  datatype Directive = Directive(name: string, args: seq<string>)

  /** One `httprecord` directive: its arguments and the lines of its block. */
  datatype Occurrence = Occurrence(args: seq<string>, block: seq<Directive>)

  datatype SetupError =
    | BadOnError
    | TimeoutArity
    | BadDuration(arg: string)
    | UnknownType(rtype: string)
    | ArgErr
    /** `[:len("http")]` of a last argument shorter than 4 bytes: a run-time panic. */
    | SliceOutOfRange(arg: string)

  /** Where reading stands: the settings so far, whether a cache was created, and the error
      that stopped it, if any. */
  datatype Progress = Progress(cfg: Config, hasCache: bool, err: Option<SetupError>)

  const CacheCapacity: nat := 100

  // ---------------------------------------------------------------------------
  // Record lines

  /** One record per origin, in origin order, the relative name completed by the origin. */
  function RelativeRecords(rtype: string, name: string, uri: string, origins: seq<string>): (rs: seq<Record>)
    ensures |rs| == |origins|
    ensures forall k :: 0 <= k < |origins| ==> rs[k] == Record(name + "." + origins[k], rtype, uri)
    decreases |origins|
  {
    if origins == [] then []
    else
      RelativeRecords(rtype, name, uri, origins[..|origins| - 1])
        + [Record(name + "." + origins[|origins| - 1], rtype, uri)]
  }

  /** The records a record line adds: one for an absolute name, else one per origin. */
  function NewRecords(env: Env, rtype: string, name: string, uri: string, origins: seq<string>): (rs: seq<Record>)
    ensures env.isFqdn(name) ==> rs == [Record(name, rtype, uri)]
    ensures !env.isFqdn(name) ==> |rs| == |origins|
    ensures !env.isFqdn(name) ==> forall k :: 0 <= k < |origins| ==> rs[k] == Record(name + "." + origins[k], rtype, uri)
  {
    if env.isFqdn(name) then [Record(name, rtype, uri)] else RelativeRecords(rtype, name, uri, origins)
  }

  /** A record line is well formed with a known type (compared upper-cased) and either two
      arguments, or one when the block has a template. */
  predicate RecordLineArity(args: seq<string>, blockuri: string)
  {
    |args| == 2 || (|args| == 1 && blockuri != "")
  }

  /** The lines read as a record: every line but the three settings. */
  predicate IsRecordLine(d: Directive)
  {
    d.name !in {"onerror", "timeout", "fallthrough"}
  }

  /** Whether a line is accepted: `onerror` with `servfail` or `cached`, `timeout` with one
      duration, any `fallthrough`, and a record line of a known type with the right number
      of arguments. It depends on the line and the block's template only, never on the
      lines before it. */
  predicate LineValid(env: Env, d: Directive, blockuri: string)
  {
    if d.name == "onerror" then d.args == ["servfail"] || d.args == ["cached"]
    else if d.name == "timeout" then |d.args| == 1 && env.parseDuration(d.args[0]).Some?
    else if d.name == "fallthrough" then true
    else env.isType(ToUpper(d.name)) && RecordLineArity(d.args, blockuri)
  }

  /** The error a rejected line reports. */
  function LineError(env: Env, d: Directive): SetupError
  {
    if d.name == "onerror" then BadOnError
    else if d.name == "timeout" then (if |d.args| != 1 then TimeoutArity else BadDuration(d.args[0]))
    else if env.isType(ToUpper(d.name)) then ArgErr
    else UnknownType(ToUpper(d.name))
  }

  /** The records an accepted record line adds: its type upper-cased, its name lower-cased,
      and its own URI or else the block's template. Other lines add none. */
  function LineRecords(env: Env, d: Directive, origins: seq<string>, blockuri: string): seq<Record>
  {
    if IsRecordLine(d) && LineValid(env, d, blockuri) then
      NewRecords(env, ToUpper(d.name), ToLower(d.args[0]), if |d.args| == 2 then d.args[1] else blockuri, origins)
    else []
  }

  /** Every line of a block is accepted. */
  predicate AllValid(env: Env, block: seq<Directive>, blockuri: string)
  {
    forall k :: 0 <= k < |block| ==> LineValid(env, block[k], blockuri)
  }

  // ---------------------------------------------------------------------------
  // One line of a block

  /** What one line does to the settings. A failing line changes nothing. */
  function ApplyDirective(env: Env, cfg: Config, hasCache: bool, d: Directive, origins: seq<string>, blockuri: string): (r: Progress)
    ensures r.err.None? <==> LineValid(env, d, blockuri)
    ensures r.err.Some? ==> r.err == Some(LineError(env, d)) && r.cfg == cfg && r.hasCache == hasCache
    ensures r.err.None? ==> r.cfg.records == cfg.records + LineRecords(env, d, origins, blockuri)
    ensures r.err.None? && d.name == "onerror" ==>
      r.cfg.returnCachedOnError == (d.args[0] == "cached") && r.hasCache == (hasCache || d.args[0] == "cached")
    ensures r.err.None? && d.name == "timeout" ==> env.parseDuration(d.args[0]) == Some(r.cfg.timeout)
    ensures d.name == "fallthrough" ==> r.cfg.fall == FallZones(d.args)
    ensures r.cfg.zones == cfg.zones && r.cfg.maxTTL == cfg.maxTTL
    ensures |cfg.records| <= |r.cfg.records| && r.cfg.records[..|cfg.records|] == cfg.records
    ensures r.hasCache != hasCache ==> d.name == "onerror" && r.cfg.returnCachedOnError
    ensures r.cfg.returnCachedOnError != cfg.returnCachedOnError ==> d.name == "onerror"
    ensures r.cfg.timeout != cfg.timeout ==> d.name == "timeout" && |d.args| == 1 && env.parseDuration(d.args[0]) == Some(r.cfg.timeout)
    ensures r.cfg.fall != cfg.fall ==> d.name == "fallthrough" && r.cfg.fall == FallZones(d.args)
    ensures forall k :: |cfg.records| <= k < |r.cfg.records| ==>
      && r.cfg.records[k].rtype == ToUpper(d.name) && env.isType(r.cfg.records[k].rtype)
      && d.name !in {"onerror", "timeout", "fallthrough"}
  {
    var args := d.args;
    if d.name == "onerror" then
      if |args| != 1 || (args[0] != "servfail" && args[0] != "cached") then Progress(cfg, hasCache, Some(BadOnError))
      else
        var cached := args[0] == "cached";
        Progress(cfg.(returnCachedOnError := cached), hasCache || cached, None)
    else if d.name == "timeout" then
      if |args| != 1 then Progress(cfg, hasCache, Some(TimeoutArity))
      else
        match env.parseDuration(args[0])
        case None => Progress(cfg, hasCache, Some(BadDuration(args[0])))
        case Some(t) => Progress(cfg.(timeout := t), hasCache, None)
    else if d.name == "fallthrough" then
      Progress(cfg.(fall := FallZones(args)), hasCache, None)
    else
      var rtype := ToUpper(d.name);
      if !env.isType(rtype) then Progress(cfg, hasCache, Some(UnknownType(rtype)))
      else if RecordLineArity(args, blockuri) then
        var uri := if |args| == 2 then args[1] else blockuri;
        var added := NewRecords(env, rtype, ToLower(args[0]), uri, origins);
        assert (cfg.records + added)[..|cfg.records|] == cfg.records;
        Progress(cfg.(records := cfg.records + added), hasCache, None)
      else Progress(cfg, hasCache, Some(ArgErr))
  }

  /** `parseConfigBlock` on values: the lines in order, stopping at the first error. */
  function RunBlock(env: Env, cfg: Config, hasCache: bool, block: seq<Directive>, origins: seq<string>, blockuri: string): (r: Progress)
    ensures r.cfg.zones == cfg.zones && r.cfg.maxTTL == cfg.maxTTL
    decreases |block|
  {
    if block == [] then Progress(cfg, hasCache, None)
    else
      var before := RunBlock(env, cfg, hasCache, block[..|block| - 1], origins, blockuri);
      if before.err.Some? then before
      else ApplyDirective(env, before.cfg, before.hasCache, block[|block| - 1], origins, blockuri)
  }


  /** What reading keeps true of the settings: caching on error is only switched on
      together with a cache, every record names a known type, and every zone's URI is a
      template (its lower-cased first four bytes are `http`). */
  predicate Consistent(env: Env, cfg: Config, hasCache: bool)
  {
    && (cfg.returnCachedOnError ==> hasCache)
    && (forall k :: 0 <= k < |cfg.records| ==> env.isType(cfg.records[k].rtype))
    && (forall k :: 0 <= k < |cfg.zones| ==> TemplateArg(cfg.zones[k].uri) == IsTemplate)
  }

  /** A block only appends records, keeps the zones, and keeps the settings consistent. */
  lemma {:induction false} RunBlockAppends(env: Env, cfg: Config, hasCache: bool, block: seq<Directive>, origins: seq<string>, blockuri: string)
    ensures var r := RunBlock(env, cfg, hasCache, block, origins, blockuri);
      && |cfg.records| <= |r.cfg.records| && r.cfg.records[..|cfg.records|] == cfg.records
      && r.cfg.zones == cfg.zones
      && (Consistent(env, cfg, hasCache) ==> Consistent(env, r.cfg, r.hasCache))
    decreases |block|
  {
    if block != [] {
      var init := block[..|block| - 1];
      RunBlockAppends(env, cfg, hasCache, init, origins, blockuri);
      var before := RunBlock(env, cfg, hasCache, init, origins, blockuri);
      if before.err.None? {
        var r := ApplyDirective(env, before.cfg, before.hasCache, block[|block| - 1], origins, blockuri);
        assert r.cfg.records[..|before.cfg.records|] == before.cfg.records;
        assert r.cfg.records[..|cfg.records|] == r.cfg.records[..|before.cfg.records|][..|cfg.records|];
        if Consistent(env, cfg, hasCache) {
          forall k | 0 <= k < |r.cfg.records|
            ensures env.isType(r.cfg.records[k].rtype)
          {
            if k < |before.cfg.records| {
              assert r.cfg.records[k] == r.cfg.records[..|before.cfg.records|][k];
            }
          }
        }
      }
    }
  }

  /** A record line after other lines adds its records after theirs. */
  lemma RunBlockSnoc(env: Env, cfg: Config, hasCache: bool, block: seq<Directive>, d: Directive, origins: seq<string>, blockuri: string)
    ensures var before := RunBlock(env, cfg, hasCache, block, origins, blockuri);
      RunBlock(env, cfg, hasCache, block + [d], origins, blockuri)
        == if before.err.Some? then before else ApplyDirective(env, before.cfg, before.hasCache, d, origins, blockuri)
  {
    assert (block + [d])[..|block|] == block;
  }

  /** Reading one line further into a block applies that line after the ones before it. */
  lemma RunBlockPrefix(env: Env, cfg: Config, hasCache: bool, block: seq<Directive>, j: nat, origins: seq<string>, blockuri: string)
    requires j < |block|
    ensures var before := RunBlock(env, cfg, hasCache, block[..j], origins, blockuri);
      RunBlock(env, cfg, hasCache, block[..j + 1], origins, blockuri)
        == if before.err.Some? then before else ApplyDirective(env, before.cfg, before.hasCache, block[j], origins, blockuri)
  {
    assert block[..j + 1][..j] == block[..j];
  }

  /** Reading stops at the first failing line: what follows it is never applied. */
  lemma {:induction false} RunBlockStops(env: Env, cfg: Config, hasCache: bool, block: seq<Directive>, i: nat, origins: seq<string>, blockuri: string)
    requires i <= |block|
    requires RunBlock(env, cfg, hasCache, block[..i], origins, blockuri).err.Some?
    ensures RunBlock(env, cfg, hasCache, block, origins, blockuri) == RunBlock(env, cfg, hasCache, block[..i], origins, blockuri)
    decreases |block| - i
  {
    if i < |block| {
      var init := block[..|block| - 1];
      assert init[..i] == block[..i];
      RunBlockStops(env, cfg, hasCache, init, i, origins, blockuri);
    } else {
      assert block[..i] == block;
    }
  }

  /** A block is read without error exactly when every line of it is accepted. */
  lemma {:induction false} RunBlockSucceeds(env: Env, cfg: Config, hasCache: bool, block: seq<Directive>, origins: seq<string>, blockuri: string)
    ensures RunBlock(env, cfg, hasCache, block, origins, blockuri).err.None? <==> AllValid(env, block, blockuri)
    decreases |block|
  {
    if block != [] {
      AllValidSnoc(env, block, blockuri);
      RunBlockSucceeds(env, cfg, hasCache, block[..|block| - 1], origins, blockuri);
    }
  }

  /** A block with a rejected line fails at the first one, with that line's error, and holds
      what the lines before it set. */
  lemma RunBlockFirstError(env: Env, cfg: Config, hasCache: bool, block: seq<Directive>, j: nat, origins: seq<string>, blockuri: string)
    requires j < |block| && !LineValid(env, block[j], blockuri)
    requires AllValid(env, block[..j], blockuri)
    ensures var before := RunBlock(env, cfg, hasCache, block[..j], origins, blockuri);
      RunBlock(env, cfg, hasCache, block, origins, blockuri) == Progress(before.cfg, before.hasCache, Some(LineError(env, block[j])))
  {
    var before := RunBlock(env, cfg, hasCache, block[..j], origins, blockuri);
    var r := ApplyDirective(env, before.cfg, before.hasCache, block[j], origins, blockuri);
    assert RunBlock(env, cfg, hasCache, block[..j + 1], origins, blockuri) == r by {
      RunBlockSucceeds(env, cfg, hasCache, block[..j], origins, blockuri);
      RunBlockPrefix(env, cfg, hasCache, block, j, origins, blockuri);
    }
    assert r == Progress(before.cfg, before.hasCache, Some(LineError(env, block[j])));
    RunBlockStops(env, cfg, hasCache, block, j + 1, origins, blockuri);
  }

  /** The index of the last line named `name`, or -1 when there is none. */
  function LastIndex(block: seq<Directive>, name: string): (i: int)
    ensures -1 <= i < |block|
    ensures i >= 0 ==> block[i].name == name
    ensures forall j :: i < j < |block| ==> block[j].name != name
    decreases |block|
  {
    if block == [] then -1
    else if block[|block| - 1].name == name then |block| - 1
    else LastIndex(block[..|block| - 1], name)
  }

  lemma AllValidSnoc(env: Env, block: seq<Directive>, blockuri: string)
    requires block != []
    ensures AllValid(env, block, blockuri)
      <==> AllValid(env, block[..|block| - 1], blockuri) && LineValid(env, block[|block| - 1], blockuri)
  {
    var init := block[..|block| - 1];
    assert forall k :: 0 <= k < |init| ==> init[k] == block[k];
  }

  /** The record decoder of a block, one line at a time. */
  function BlockRecords(env: Env, origins: seq<string>, blockuri: string): Directive -> seq<Record>
  {
    d => LineRecords(env, d, origins, blockuri)
  }

  /** An accepted block adds the records of its record lines, line after line. */
  lemma {:induction false} RunBlockRecords(env: Env, cfg: Config, hasCache: bool, block: seq<Directive>, origins: seq<string>, blockuri: string)
    requires AllValid(env, block, blockuri)
    ensures RunBlock(env, cfg, hasCache, block, origins, blockuri).cfg.records
      == cfg.records + Collect(BlockRecords(env, origins, blockuri), block)
    decreases |block|
  {
    if block != [] {
      var init, d := block[..|block| - 1], block[|block| - 1];
      var f := BlockRecords(env, origins, blockuri);
      var before := RunBlock(env, cfg, hasCache, init, origins, blockuri);
      assert RunBlock(env, cfg, hasCache, block, origins, blockuri).cfg.records == before.cfg.records + f(d) by {
        AllValidSnoc(env, block, blockuri);
        RunBlockSucceeds(env, cfg, hasCache, init, origins, blockuri);
        assert f(d) == LineRecords(env, d, origins, blockuri);
      }
      assert before.cfg.records == cfg.records + Collect(f, init) by {
        AllValidSnoc(env, block, blockuri);
        RunBlockRecords(env, cfg, hasCache, init, origins, blockuri);
      }
      assert Collect(f, block) == Collect(f, init) + f(d);
    }
  }

  /** In an accepted block the timeout is that of the last `timeout` line, and is kept when
      there is none. */
  lemma {:induction false} RunBlockTimeout(env: Env, cfg: Config, hasCache: bool, block: seq<Directive>, origins: seq<string>, blockuri: string)
    requires AllValid(env, block, blockuri)
    ensures var r, i := RunBlock(env, cfg, hasCache, block, origins, blockuri), LastIndex(block, "timeout");
      && (i < 0 ==> r.cfg.timeout == cfg.timeout)
      && (i >= 0 ==> env.parseDuration(block[i].args[0]) == Some(r.cfg.timeout))
    decreases |block|
  {
    if block != [] {
      var init, d := block[..|block| - 1], block[|block| - 1];
      var before := RunBlock(env, cfg, hasCache, init, origins, blockuri);
      var r := RunBlock(env, cfg, hasCache, block, origins, blockuri);
      assert r == ApplyDirective(env, before.cfg, before.hasCache, d, origins, blockuri) && r.err.None? by {
        AllValidSnoc(env, block, blockuri);
        RunBlockSucceeds(env, cfg, hasCache, init, origins, blockuri);
      }
      if d.name != "timeout" {
        var i := LastIndex(init, "timeout");
        assert LastIndex(block, "timeout") == i;
        assert (i < 0 ==> before.cfg.timeout == cfg.timeout)
          && (i >= 0 ==> env.parseDuration(init[i].args[0]) == Some(before.cfg.timeout)) by {
          AllValidSnoc(env, block, blockuri);
          RunBlockTimeout(env, cfg, hasCache, init, origins, blockuri);
        }
        if i >= 0 {
          assert block[i] == init[i];
        }
      }
    }
  }

  /** In an accepted block `fall` is set by the last `fallthrough` line, and is kept when
      there is none. */
  lemma {:induction false} RunBlockFall(env: Env, cfg: Config, hasCache: bool, block: seq<Directive>, origins: seq<string>, blockuri: string)
    requires AllValid(env, block, blockuri)
    ensures var r, i := RunBlock(env, cfg, hasCache, block, origins, blockuri), LastIndex(block, "fallthrough");
      && (i < 0 ==> r.cfg.fall == cfg.fall)
      && (i >= 0 ==> r.cfg.fall == FallZones(block[i].args))
    decreases |block|
  {
    if block != [] {
      var init, d := block[..|block| - 1], block[|block| - 1];
      var before := RunBlock(env, cfg, hasCache, init, origins, blockuri);
      var r := RunBlock(env, cfg, hasCache, block, origins, blockuri);
      assert r == ApplyDirective(env, before.cfg, before.hasCache, d, origins, blockuri) && r.err.None? by {
        AllValidSnoc(env, block, blockuri);
        RunBlockSucceeds(env, cfg, hasCache, init, origins, blockuri);
      }
      if d.name != "fallthrough" {
        var i := LastIndex(init, "fallthrough");
        assert LastIndex(block, "fallthrough") == i;
        assert (i < 0 ==> before.cfg.fall == cfg.fall)
          && (i >= 0 ==> before.cfg.fall == FallZones(init[i].args)) by {
          AllValidSnoc(env, block, blockuri);
          RunBlockFall(env, cfg, hasCache, init, origins, blockuri);
        }
        if i >= 0 {
          assert block[i] == init[i];
        }
      }
    }
  }

  /** In an accepted block the last `onerror` line decides whether a cached answer is
      returned on error, and the setting is kept when there is none. */
  lemma {:induction false} RunBlockOnError(env: Env, cfg: Config, hasCache: bool, block: seq<Directive>, origins: seq<string>, blockuri: string)
    requires AllValid(env, block, blockuri)
    ensures var r, i := RunBlock(env, cfg, hasCache, block, origins, blockuri), LastIndex(block, "onerror");
      && (i < 0 ==> r.cfg.returnCachedOnError == cfg.returnCachedOnError)
      && (i >= 0 ==> r.cfg.returnCachedOnError == (block[i].args == ["cached"]))
    decreases |block|
  {
    if block != [] {
      var init, d := block[..|block| - 1], block[|block| - 1];
      var before := RunBlock(env, cfg, hasCache, init, origins, blockuri);
      var r := RunBlock(env, cfg, hasCache, block, origins, blockuri);
      assert r == ApplyDirective(env, before.cfg, before.hasCache, d, origins, blockuri) && r.err.None? by {
        AllValidSnoc(env, block, blockuri);
        RunBlockSucceeds(env, cfg, hasCache, init, origins, blockuri);
      }
      if d.name == "onerror" {
        assert d.args == ["servfail"] || d.args == ["cached"] by {
          AllValidSnoc(env, block, blockuri);
        }
      } else {
        var i := LastIndex(init, "onerror");
        assert LastIndex(block, "onerror") == i;
        assert (i < 0 ==> before.cfg.returnCachedOnError == cfg.returnCachedOnError)
          && (i >= 0 ==> before.cfg.returnCachedOnError == (init[i].args == ["cached"])) by {
          AllValidSnoc(env, block, blockuri);
          RunBlockOnError(env, cfg, hasCache, init, origins, blockuri);
        }
        if i >= 0 {
          assert block[i] == init[i];
        }
      }
    }
  }

  /** In an accepted block a cache exists exactly when there was one before or some line
      says `onerror cached`. */
  lemma {:induction false} RunBlockCache(env: Env, cfg: Config, hasCache: bool, block: seq<Directive>, origins: seq<string>, blockuri: string)
    requires AllValid(env, block, blockuri)
    ensures RunBlock(env, cfg, hasCache, block, origins, blockuri).hasCache
      <==> hasCache || Directive("onerror", ["cached"]) in block
    decreases |block|
  {
    if block != [] {
      var init, d := block[..|block| - 1], block[|block| - 1];
      var before := RunBlock(env, cfg, hasCache, init, origins, blockuri);
      var r := RunBlock(env, cfg, hasCache, block, origins, blockuri);
      assert r.hasCache == (before.hasCache || d == Directive("onerror", ["cached"])) by {
        AllValidSnoc(env, block, blockuri);
        RunBlockSucceeds(env, cfg, hasCache, init, origins, blockuri);
        assert r == ApplyDirective(env, before.cfg, before.hasCache, d, origins, blockuri);
      }
      assert before.hasCache <==> hasCache || Directive("onerror", ["cached"]) in init by {
        AllValidSnoc(env, block, blockuri);
        RunBlockCache(env, cfg, hasCache, init, origins, blockuri);
      }
      assert block == init + [d];
    }
  }

  // ---------------------------------------------------------------------------
  // The arguments of the directive

  /** The server block's keys, normalised to origins. */
  function ServerBlockOrigins(env: Env, keys: seq<string>): (origins: seq<string>)
    ensures |origins| == |keys|
    ensures forall i :: 0 <= i < |keys| ==> origins[i] == env.hostNormalize(keys[i])
  {
    seq(|keys|, i requires 0 <= i < |keys| => env.hostNormalize(keys[i]))
  }

  function NormalizedOrigins(env: Env, args: seq<string>): (origins: seq<string>)
    ensures |origins| == |args|
    ensures forall i :: 0 <= i < |args| ==> origins[i] == env.nameNormalize(args[i])
  {
    seq(|args|, i requires 0 <= i < |args| => env.nameNormalize(args[i]))
  }

  /** One zone per origin, in order, all with the template. */
  function ZonesFor(origins: seq<string>, uri: string): (zones: seq<Zone>)
    ensures |zones| == |origins|
    ensures forall i :: 0 <= i < |origins| ==> zones[i] == Zone(origins[i], uri)
  {
    seq(|origins|, i requires 0 <= i < |origins| => Zone(origins[i], uri))
  }

  /** Whether the last argument is the template: its lower-cased first four bytes are
      `http`. A last argument shorter than four bytes makes the slice panic. */
  function TemplateArg(last: string): (r: LastArg)
    ensures r.Panics? <==> Utf8Len(ToLower(last)) < 4
    ensures r.IsTemplate? <==> Utf8Len(ToLower(last)) >= 4 && |last| >= 4 && ToLower(last)[..4] == "http"
    ensures r.IsTemplate? ==> last != ""
  {
    var low := ToLower(last);
    if Utf8Len(low) < 4 then Panics
    else if |low| >= 4 && low[..4] == "http" then IsTemplate
    else IsOrigin
  }

  datatype LastArg = Panics | IsTemplate | IsOrigin

  /** A template is never empty: a block handed one has a URI for its record lines. */
  lemma TemplateNonEmpty(last: string)
    requires TemplateArg(last) == IsTemplate
    ensures last != ""
  {
  }

  /** The template a directive hands its block: its last argument when that is a template,
      else none (""). */
  function OccurrenceTemplate(occ: Occurrence): string
  {
    if occ.args != [] && TemplateArg(occ.args[|occ.args| - 1]) == IsTemplate then occ.args[|occ.args| - 1] else ""
  }

  /** Whether a directive is read without error: its last argument can be sliced, and every
      line of its block is accepted. Like `LineValid`, this does not depend on what was read
      before it. */
  predicate OccurrenceValid(env: Env, occ: Occurrence)
  {
    && (occ.args == [] || TemplateArg(occ.args[|occ.args| - 1]) != Panics)
    && AllValid(env, occ.block, OccurrenceTemplate(occ))
  }

  /** One `httprecord` directive: an optional template as last argument, the rest origins
      (normalised) that each get a zone when there is a template; then its block, with the
      server block's origins standing in when no origin is given. */
  function ApplyOccurrence(env: Env, serverOrigins: seq<string>, cfg: Config, hasCache: bool, occ: Occurrence): (r: Progress)
    ensures occ.args != [] && TemplateArg(occ.args[|occ.args| - 1]) == Panics ==>
      r == Progress(cfg, hasCache, Some(SliceOutOfRange(occ.args[|occ.args| - 1])))
    ensures OccurrenceTemplate(occ) != "" ==>
      r.cfg.zones == cfg.zones + ZonesFor(NormalizedOrigins(env, occ.args[..|occ.args| - 1]), OccurrenceTemplate(occ))
    ensures OccurrenceTemplate(occ) == "" ==> r.cfg.zones == cfg.zones
    ensures r.cfg.maxTTL == cfg.maxTTL
  {
    if occ.args == [] then RunBlock(env, cfg, hasCache, occ.block, serverOrigins, "")
    else
      var last := occ.args[|occ.args| - 1];
      match TemplateArg(last)
      case Panics => Progress(cfg, hasCache, Some(SliceOutOfRange(last)))
      case IsTemplate =>
        var origins := NormalizedOrigins(env, occ.args[..|occ.args| - 1]);
        var withZones := cfg.(zones := cfg.zones + ZonesFor(origins, last));
        RunBlock(env, withZones, hasCache, occ.block, if origins == [] then serverOrigins else origins, last)
      case IsOrigin =>
        var origins := NormalizedOrigins(env, occ.args);
        RunBlock(env, cfg, hasCache, occ.block, origins, "")
  }

  predicate AllOccurrencesValid(env: Env, occs: seq<Occurrence>)
  {
    forall k :: 0 <= k < |occs| ==> OccurrenceValid(env, occs[k])
  }

  lemma AllOccurrencesValidSnoc(env: Env, occs: seq<Occurrence>)
    requires occs != []
    ensures AllOccurrencesValid(env, occs)
      <==> AllOccurrencesValid(env, occs[..|occs| - 1]) && OccurrenceValid(env, occs[|occs| - 1])
  {
    var init := occs[..|occs| - 1];
    assert forall k :: 0 <= k < |init| ==> init[k] == occs[k];
  }

  /** The `httprecord` directives in order, stopping at the first error. */
  function RunOccurrences(env: Env, serverOrigins: seq<string>, cfg: Config, hasCache: bool, occs: seq<Occurrence>): (r: Progress)
    ensures r.cfg.maxTTL == cfg.maxTTL
    decreases |occs|
  {
    if occs == [] then Progress(cfg, hasCache, None)
    else
      var init := occs[..|occs| - 1];
      var before := RunOccurrences(env, serverOrigins, cfg, hasCache, init);
      if before.err.Some? then before
      else ApplyOccurrence(env, serverOrigins, before.cfg, before.hasCache, occs[|occs| - 1])
  }

  /** One directive is read without error exactly when it is valid. */
  lemma ApplyOccurrenceSucceeds(env: Env, serverOrigins: seq<string>, cfg: Config, hasCache: bool, occ: Occurrence)
    ensures ApplyOccurrence(env, serverOrigins, cfg, hasCache, occ).err.None? <==> OccurrenceValid(env, occ)
  {
    if occ.args == [] {
      RunBlockSucceeds(env, cfg, hasCache, occ.block, serverOrigins, "");
    } else {
      var last := occ.args[|occ.args| - 1];
      if TemplateArg(last) == IsTemplate {
        var origins := NormalizedOrigins(env, occ.args[..|occ.args| - 1]);
        RunBlockSucceeds(env, cfg.(zones := cfg.zones + ZonesFor(origins, last)), hasCache, occ.block,
                         if origins == [] then serverOrigins else origins, last);
      } else if TemplateArg(last) == IsOrigin {
        RunBlockSucceeds(env, cfg, hasCache, occ.block, NormalizedOrigins(env, occ.args), "");
      }
    }
  }

  /** The directives are read without error exactly when every one of them is valid. */
  lemma {:induction false} RunOccurrencesSucceeds(env: Env, serverOrigins: seq<string>, cfg: Config, hasCache: bool, occs: seq<Occurrence>)
    ensures RunOccurrences(env, serverOrigins, cfg, hasCache, occs).err.None? <==> AllOccurrencesValid(env, occs)
    decreases |occs|
  {
    if occs != [] {
      var init := occs[..|occs| - 1];
      AllOccurrencesValidSnoc(env, occs);
      RunOccurrencesSucceeds(env, serverOrigins, cfg, hasCache, init);
      var before := RunOccurrences(env, serverOrigins, cfg, hasCache, init);
      if before.err.None? {
        ApplyOccurrenceSucceeds(env, serverOrigins, before.cfg, before.hasCache, occs[|occs| - 1]);
      }
    }
  }

  /** Reading stops at the first failing directive. */
  lemma {:induction false} RunOccurrencesStops(env: Env, serverOrigins: seq<string>, cfg: Config, hasCache: bool, occs: seq<Occurrence>, n: nat)
    requires n <= |occs|
    requires RunOccurrences(env, serverOrigins, cfg, hasCache, occs[..n]).err.Some?
    ensures RunOccurrences(env, serverOrigins, cfg, hasCache, occs) == RunOccurrences(env, serverOrigins, cfg, hasCache, occs[..n])
    decreases |occs| - n
  {
    if n < |occs| {
      var init := occs[..|occs| - 1];
      assert init[..n] == occs[..n];
      RunOccurrencesStops(env, serverOrigins, cfg, hasCache, init, n);
    } else {
      assert occs[..n] == occs;
    }
  }

  /** One directive keeps the settings consistent. */
  lemma OccurrenceConsistent(env: Env, serverOrigins: seq<string>, cfg: Config, hasCache: bool, occ: Occurrence)
    requires Consistent(env, cfg, hasCache)
    ensures var r := ApplyOccurrence(env, serverOrigins, cfg, hasCache, occ); Consistent(env, r.cfg, r.hasCache)
  {
    if occ.args != [] {
      var last := occ.args[|occ.args| - 1];
      if TemplateArg(last) == IsTemplate {
        var origins := NormalizedOrigins(env, occ.args[..|occ.args| - 1]);
        var zones := cfg.zones + ZonesFor(origins, last);
        forall k | 0 <= k < |zones|
          ensures TemplateArg(zones[k].uri) == IsTemplate
        {
          if k >= |cfg.zones| {
            assert zones[k] == Zone(origins[k - |cfg.zones|], last);
          }
        }
        RunBlockAppends(env, cfg.(zones := zones), hasCache, occ.block, if origins == [] then serverOrigins else origins, last);
      } else if TemplateArg(last) == IsOrigin {
        RunBlockAppends(env, cfg, hasCache, occ.block, NormalizedOrigins(env, occ.args), "");
      }
    } else {
      RunBlockAppends(env, cfg, hasCache, occ.block, serverOrigins, "");
    }
  }

  /** Every prefix of the directives leaves the settings consistent. */
  lemma {:induction false} RunOccurrencesConsistent(env: Env, serverOrigins: seq<string>, cfg: Config, hasCache: bool, occs: seq<Occurrence>)
    requires Consistent(env, cfg, hasCache)
    ensures var r := RunOccurrences(env, serverOrigins, cfg, hasCache, occs); Consistent(env, r.cfg, r.hasCache)
    decreases |occs|
  {
    if occs != [] {
      var init := occs[..|occs| - 1];
      RunOccurrencesConsistent(env, serverOrigins, cfg, hasCache, init);
      var before := RunOccurrences(env, serverOrigins, cfg, hasCache, init);
      if before.err.None? {
        OccurrenceConsistent(env, serverOrigins, before.cfg, before.hasCache, occs[|occs| - 1]);
      }
    }
  }

  /** The settings of `HTTPRecord{}`. */
  const Initial: Config := Config([], [], 0, 0, false, NoFall)

  /** `parseConfig` on values. */
  function RunConfig(env: Env, keys: seq<string>, occs: seq<Occurrence>): (r: Progress)
    ensures Consistent(env, r.cfg, r.hasCache)
  {
    RunOccurrencesConsistent(env, ServerBlockOrigins(env, keys), Initial, false, occs);
    RunOccurrences(env, ServerBlockOrigins(env, keys), Initial, false, occs)
  }


  // ---------------------------------------------------------------------------
  // The two functions, as the loops they are

  /** The record branch of `parseConfigBlock`: appends the records of one line. */
  method AddRecords(env: Env, h: HTTPRecord, rtype: string, name: string, uri: string, origins: seq<string>)
    modifies h
    ensures h.Settings() == old(h.Settings()).(records := old(h.records) + NewRecords(env, rtype, name, uri, origins))
    ensures h.cache == old(h.cache)
  {
    if env.isFqdn(name) {
      h.records := h.records + [Record(name, rtype, uri)];
    } else {
      var start := h.records;
      for j := 0 to |origins|
        invariant h.records == start + RelativeRecords(rtype, name, uri, origins[..j])
        invariant h.Settings() == old(h.Settings()).(records := h.records) && h.cache == old(h.cache)
      {
        assert origins[..j + 1][..j] == origins[..j];
        h.records := h.records + [Record(name + "." + origins[j], rtype, uri)];
      }
      assert origins[..|origins|] == origins;
    }
  }

  /** One line of the block. */
  method ParseLine(env: Env, h: HTTPRecord, d: Directive, origins: seq<string>, blockuri: string)
    returns (err: Option<SetupError>)
    modifies h
    ensures var r := ApplyDirective(env, old(h.Settings()), old(h.cache) != null, d, origins, blockuri);
      h.Settings() == r.cfg && (h.cache != null) == r.hasCache && err == r.err
    ensures h.cache != old(h.cache) ==> fresh(h.cache) && h.cache.items == map[] && h.cache.capacity == CacheCapacity
  {
    var args := d.args;
    if d.name == "onerror" {
      if |args| != 1 || (args[0] != "servfail" && args[0] != "cached") {
        return Some(BadOnError);
      }
      h.returnCachedOnError := args[0] == "cached";
      if h.returnCachedOnError {
        h.cache := new FallbackCache(CacheCapacity);
      }
    } else if d.name == "timeout" {
      if |args| != 1 {
        return Some(TimeoutArity);
      }
      var timeout := env.parseDuration(args[0]);
      if timeout.None? {
        return Some(BadDuration(args[0]));
      }
      h.timeout := timeout.value;
    } else if d.name == "fallthrough" {
      h.fall := FallZones(args);
    } else {
      var rtype := ToUpper(d.name);
      if !env.isType(rtype) {
        return Some(UnknownType(rtype));
      }
      if |args| == 2 || (|args| == 1 && blockuri != "") {
        var uri := blockuri;
        if |args| == 2 {
          uri := args[1];
        }
        AddRecords(env, h, rtype, ToLower(args[0]), uri, origins);
      } else {
        return Some(ArgErr);
      }
    }
    return None;
  }

  /** `parseConfigBlock`: the lines in order, returning at the first error. */
  method ParseConfigBlock(env: Env, h: HTTPRecord, block: seq<Directive>, origins: seq<string>, blockuri: string)
    returns (err: Option<SetupError>)
    modifies h
    ensures var r := RunBlock(env, old(h.Settings()), old(h.cache) != null, block, origins, blockuri);
      h.Settings() == r.cfg && (h.cache != null) == r.hasCache && err == r.err
    ensures h.cache != old(h.cache) ==> fresh(h.cache) && h.cache.items == map[] && h.cache.capacity == CacheCapacity
  {
    ghost var cfg0, cache0 := h.Settings(), h.cache != null;
    for i := 0 to |block|
      invariant var r := RunBlock(env, cfg0, cache0, block[..i], origins, blockuri);
        h.Settings() == r.cfg && (h.cache != null) == r.hasCache && r.err.None?
      invariant h.cache != old(h.cache) ==> fresh(h.cache) && h.cache.items == map[] && h.cache.capacity == CacheCapacity
    {
      RunBlockSnoc(env, cfg0, cache0, block[..i], block[i], origins, blockuri);
      assert block[..i + 1] == block[..i] + [block[i]];
      err := ParseLine(env, h, block[i], origins, blockuri);
      if err.Some? {
        RunBlockStops(env, cfg0, cache0, block, i + 1, origins, blockuri);
        return;
      }
    }
    assert block[..|block|] == block;
    return None;
  }

  /** The origin arguments, normalised in place. */
  method NormalizeOrigins(env: Env, args: seq<string>) returns (origins: seq<string>)
    ensures origins == NormalizedOrigins(env, args)
  {
    origins := args;
    for i := 0 to |args|
      invariant |origins| == |args|
      invariant forall k :: 0 <= k < i ==> origins[k] == env.nameNormalize(args[k])
    {
      origins := origins[i := env.nameNormalize(args[i])];
    }
  }

  /** Appends one zone per origin, all with the template. */
  method AddZones(h: HTTPRecord, origins: seq<string>, uri: string)
    modifies h
    ensures h.Settings() == old(h.Settings()).(zones := old(h.zones) + ZonesFor(origins, uri))
    ensures h.cache == old(h.cache)
  {
    var start := h.zones;
    for i := 0 to |origins|
      invariant h.zones == start + ZonesFor(origins[..i], uri)
      invariant h.Settings() == old(h.Settings()).(zones := h.zones) && h.cache == old(h.cache)
    {
      assert ZonesFor(origins[..i + 1], uri) == ZonesFor(origins[..i], uri) + [Zone(origins[i], uri)];
      h.zones := h.zones + [Zone(origins[i], uri)];
    }
    assert origins[..|origins|] == origins;
  }

  /** The argument handling of one `httprecord` directive, then its block. */
  method ParseOccurrence(env: Env, h: HTTPRecord, serverOrigins: seq<string>, occ: Occurrence)
    returns (err: Option<SetupError>)
    modifies h
    ensures var r := ApplyOccurrence(env, serverOrigins, old(h.Settings()), old(h.cache) != null, occ);
      h.Settings() == r.cfg && (h.cache != null) == r.hasCache && err == r.err
    ensures h.cache != old(h.cache) ==> fresh(h.cache) && h.cache.items == map[] && h.cache.capacity == CacheCapacity
  {
    var args := occ.args;
    if |args| == 0 {
      err := ParseConfigBlock(env, h, occ.block, serverOrigins, "");
      return;
    }
    var uri := "";
    var last := args[|args| - 1];
    var low := ToLower(last);
    if Utf8Len(low) < 4 {
      // `low[:4]` is out of range: the running server panics here
      return Some(SliceOutOfRange(last));
    }
    if |low| >= 4 && low[..4] == "http" {
      uri := last;
      args := args[..|args| - 1];
    }
    var origins := NormalizeOrigins(env, args);
    if uri != "" {
      AddZones(h, origins, uri);
    }
    if |origins| == 0 {
      err := ParseConfigBlock(env, h, occ.block, serverOrigins, uri);
    } else {
      err := ParseConfigBlock(env, h, occ.block, origins, uri);
    }
  }

  /** `parseConfig`: the handler the directives describe, and the error that stopped
      reading, if any (the handler then holds what was read before it). */
  method ParseConfig(env: Env, keys: seq<string>, occs: seq<Occurrence>) returns (h: HTTPRecord, err: Option<SetupError>)
    ensures fresh(h)
    ensures var r := RunConfig(env, keys, occs);
      h.Settings() == r.cfg && (h.cache != null) == r.hasCache && err == r.err
    ensures h.cache != null ==> fresh(h.cache) && h.cache.items == map[] && h.cache.capacity == CacheCapacity
    ensures h.Valid()
  {
    h := new HTTPRecord();
    var serverOrigins := seq(|keys|, _ => "");
    for i := 0 to |keys|
      invariant |serverOrigins| == |keys|
      invariant forall k :: 0 <= k < i ==> serverOrigins[k] == env.hostNormalize(keys[k])
    {
      serverOrigins := serverOrigins[i := env.hostNormalize(keys[i])];
    }
    assert serverOrigins == ServerBlockOrigins(env, keys);
    for n := 0 to |occs|
      invariant var r := RunOccurrences(env, serverOrigins, Initial, false, occs[..n]);
        h.Settings() == r.cfg && (h.cache != null) == r.hasCache && r.err.None?
      invariant h.cache != null ==> fresh(h.cache) && h.cache.items == map[] && h.cache.capacity == CacheCapacity
    {
      ghost var before := RunOccurrences(env, serverOrigins, Initial, false, occs[..n]);
      assert occs[..n + 1][..n] == occs[..n];
      assert RunOccurrences(env, serverOrigins, Initial, false, occs[..n + 1])
        == ApplyOccurrence(env, serverOrigins, before.cfg, before.hasCache, occs[n]);
      err := ParseOccurrence(env, h, serverOrigins, occs[n]);
      if err.Some? {
        RunOccurrencesStops(env, serverOrigins, Initial, false, occs, n + 1);
        return;
      }
    }
    assert occs[..|occs|] == occs;
    return h, None;
  }
}
