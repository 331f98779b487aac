/** The configurations of the setup tests, stated for every environment that gives the
    names and types involved the properties the tests rely on. */
module SetupCases {
  import opened Text
  import opened Foreign
  import opened HttpRecord
  import opened Setup

  lemma OneOccurrence(env: Env, keys: seq<string>, occ: Occurrence)
    ensures RunConfig(env, keys, [occ]) == ApplyOccurrence(env, ServerBlockOrigins(env, keys), Initial, false, occ)
  {
    var origins := ServerBlockOrigins(env, keys);
    assert [occ][..0] == [];
    assert RunOccurrences(env, origins, Initial, false, []) == Progress(Initial, false, None);
    assert RunOccurrences(env, origins, Initial, false, [occ])
      == ApplyOccurrence(env, origins, Initial, false, occ);
  }

  lemma OneLine(env: Env, cfg: Config, hasCache: bool, d: Directive, origins: seq<string>, blockuri: string)
    ensures RunBlock(env, cfg, hasCache, [d], origins, blockuri) == ApplyDirective(env, cfg, hasCache, d, origins, blockuri)
  {
    assert [d][..0] == [];
  }

  /** `httprecord { A example.com. https://example.com; fallthrough }`: one absolute record,
      and `fall` set from an empty argument list. */
  lemma AbsoluteRecordAndFallthrough(env: Env, keys: seq<string>, t: string, name: string, uri: string)
    requires IsRecordLine(Directive(t, [])) && ToUpper(t) == t && env.isType(t)
    requires ToLower(name) == name && env.isFqdn(name)
    ensures RunConfig(env, keys, [Occurrence([], [Directive(t, [name, uri]), Directive("fallthrough", [])])])
      == Progress(Initial.(records := [Record(name, t, uri)], fall := FallZones([])), false, None)
  {
    var block := [Directive(t, [name, uri]), Directive("fallthrough", [])];
    OneOccurrence(env, keys, Occurrence([], block));
    assert block[..1] == [block[0]];
    OneLine(env, Initial, false, block[0], ServerBlockOrigins(env, keys), "");
  }

  /** `httprecord { A example.com. }`: a record line without a URI, and no template. */
  lemma NoURIAnywhere(env: Env, keys: seq<string>, t: string, name: string)
    requires IsRecordLine(Directive(t, [])) && env.isType(ToUpper(t))
    ensures RunConfig(env, keys, [Occurrence([], [Directive(t, [name])])]).err == Some(ArgErr)
  {
    OneOccurrence(env, keys, Occurrence([], [Directive(t, [name])]));
    OneLine(env, Initial, false, Directive(t, [name]), ServerBlockOrigins(env, keys), "");
  }

  /** `httprecord example.com { A example.com. }`: an origin is not a template. */
  lemma OriginIsNoURI(env: Env, keys: seq<string>, origin: string, t: string, name: string)
    requires TemplateArg(origin) == IsOrigin
    requires IsRecordLine(Directive(t, [])) && env.isType(ToUpper(t))
    ensures RunConfig(env, keys, [Occurrence([origin], [Directive(t, [name])])]).err == Some(ArgErr)
  {
    OneOccurrence(env, keys, Occurrence([origin], [Directive(t, [name])]));
    OneLine(env, Initial, false, Directive(t, [name]), NormalizedOrigins(env, [origin]), "");
  }

  /** `httprecord http://example.com { URGBLAH }`: an unknown record type. */
  lemma UnknownRecordType(env: Env, keys: seq<string>, uri: string, t: string)
    requires TemplateArg(uri) == IsTemplate
    requires IsRecordLine(Directive(t, [])) && !env.isType(ToUpper(t))
    ensures RunConfig(env, keys, [Occurrence([uri], [Directive(t, [])])]).err == Some(UnknownType(ToUpper(t)))
  {
    OneOccurrence(env, keys, Occurrence([uri], [Directive(t, [])]));
    assert [uri][..0] == [];
    assert NormalizedOrigins(env, []) == [] && ZonesFor([], uri) == [];
    OneLine(env, Initial.(zones := Initial.zones + []), false, Directive(t, []), ServerBlockOrigins(env, keys), uri);
  }

  /** `httprecord example.com example.org { A relative https://example.com }`: a relative
      name is completed by each origin, in order. */
  lemma RelativeNameEachOrigin(env: Env, keys: seq<string>, o1: string, o2: string, t: string, name: string, uri: string)
    requires TemplateArg(o2) == IsOrigin
    requires IsRecordLine(Directive(t, [])) && env.isType(ToUpper(t)) && !env.isFqdn(ToLower(name))
    ensures var r := RunConfig(env, keys, [Occurrence([o1, o2], [Directive(t, [name, uri])])]);
      && r.err == None
      && r.cfg.zones == []
      && r.cfg.records == [Record(ToLower(name) + "." + env.nameNormalize(o1), ToUpper(t), uri),
                           Record(ToLower(name) + "." + env.nameNormalize(o2), ToUpper(t), uri)]
  {
    OneOccurrence(env, keys, Occurrence([o1, o2], [Directive(t, [name, uri])]));
    var origins := NormalizedOrigins(env, [o1, o2]);
    OneLine(env, Initial, false, Directive(t, [name, uri]), origins, "");
    var added := NewRecords(env, ToUpper(t), ToLower(name), uri, origins);
    assert added == [added[0], added[1]];
  }

  /** `httprecord example.com https://example.com`: a zone per origin, no records. */
  lemma TemplateGivesZone(env: Env, keys: seq<string>, origin: string, uri: string)
    requires TemplateArg(uri) == IsTemplate
    ensures RunConfig(env, keys, [Occurrence([origin, uri], [])])
      == Progress(Initial.(zones := [Zone(env.nameNormalize(origin), uri)]), false, None)
  {
    OneOccurrence(env, keys, Occurrence([origin, uri], []));
    assert [origin, uri][..1] == [origin];
    assert ZonesFor(NormalizedOrigins(env, [origin]), uri) == [Zone(env.nameNormalize(origin), uri)];
  }

  /** `httprecord example.com example.org https://example.com { A relative }`: zones for
      both origins, and the relative record completed by each, with the template. */
  lemma TemplateZonesAndRelativeName(env: Env, keys: seq<string>, o1: string, o2: string, uri: string, t: string, name: string)
    requires TemplateArg(uri) == IsTemplate
    requires IsRecordLine(Directive(t, [])) && env.isType(ToUpper(t)) && !env.isFqdn(ToLower(name))
    ensures var r := RunConfig(env, keys, [Occurrence([o1, o2, uri], [Directive(t, [name])])]);
      && r.err == None
      && r.cfg.zones == [Zone(env.nameNormalize(o1), uri), Zone(env.nameNormalize(o2), uri)]
      && r.cfg.records == [Record(ToLower(name) + "." + env.nameNormalize(o1), ToUpper(t), uri),
                           Record(ToLower(name) + "." + env.nameNormalize(o2), ToUpper(t), uri)]
  {
    var n1, n2 := env.nameNormalize(o1), env.nameNormalize(o2);
    OneOccurrence(env, keys, Occurrence([o1, o2, uri], [Directive(t, [name])]));
    TwoOriginZones(env, ServerBlockOrigins(env, keys), o1, o2, uri, [Directive(t, [name])]);
    TemplateNonEmpty(uri);
    TwoOriginRecords(env, Initial.(zones := [Zone(n1, uri), Zone(n2, uri)]), t, name, n1, n2, uri);
  }

  /** Two origins and a template: a zone for each, and the block read with both origins. */
  lemma TwoOriginZones(env: Env, serverOrigins: seq<string>, o1: string, o2: string, uri: string, block: seq<Directive>)
    requires TemplateArg(uri) == IsTemplate
    ensures ApplyOccurrence(env, serverOrigins, Initial, false, Occurrence([o1, o2, uri], block))
      == RunBlock(env, Initial.(zones := [Zone(env.nameNormalize(o1), uri), Zone(env.nameNormalize(o2), uri)]), false, block,
                  [env.nameNormalize(o1), env.nameNormalize(o2)], uri)
  {
    var n1, n2 := env.nameNormalize(o1), env.nameNormalize(o2);
    var origins := NormalizedOrigins(env, [o1, o2]);
    assert origins == [n1, n2] by {
      assert origins[0] == n1 && origins[1] == n2;
    }
    assert ZonesFor(origins, uri) == [Zone(n1, uri), Zone(n2, uri)] by {
      var z := ZonesFor(origins, uri);
      assert z[0] == Zone(n1, uri) && z[1] == Zone(n2, uri);
    }
    assert [o1, o2, uri] == [o1, o2] + [uri];
    TemplateOccurrence(env, serverOrigins, Initial, false, [o1, o2], uri, block);
    assert Initial.zones + ZonesFor(origins, uri) == [Zone(n1, uri), Zone(n2, uri)];
  }

  /** A relative record line under two origins adds one completed record for each. */
  lemma TwoOriginRecords(env: Env, cfg: Config, t: string, name: string, n1: string, n2: string, uri: string)
    requires IsRecordLine(Directive(t, [])) && env.isType(ToUpper(t)) && !env.isFqdn(ToLower(name)) && uri != ""
    ensures RunBlock(env, cfg, false, [Directive(t, [name])], [n1, n2], uri)
      == Progress(cfg.(records := cfg.records + [Record(ToLower(name) + "." + n1, ToUpper(t), uri),
                                                 Record(ToLower(name) + "." + n2, ToUpper(t), uri)]), false, None)
  {
    RecordLineAdds(env, cfg, false, t, [name], [n1, n2], uri);
    var added := NewRecords(env, ToUpper(t), ToLower(name), uri, [n1, n2]);
    assert added == [added[0], added[1]];
  }

  /** A block of one accepted record line adds that line's records and nothing else. */
  lemma RecordLineAdds(env: Env, cfg: Config, hasCache: bool, t: string, args: seq<string>, origins: seq<string>, blockuri: string)
    requires IsRecordLine(Directive(t, [])) && env.isType(ToUpper(t)) && RecordLineArity(args, blockuri)
    ensures RunBlock(env, cfg, hasCache, [Directive(t, args)], origins, blockuri)
      == Progress(cfg.(records := cfg.records + NewRecords(env, ToUpper(t), ToLower(args[0]), if |args| == 2 then args[1] else blockuri, origins)),
                  hasCache, None)
  {
    OneLine(env, cfg, hasCache, Directive(t, args), origins, blockuri);
  }

  /** Origins followed by a template: one zone per origin, and the block read with those
      origins and the template. */
  lemma TemplateOccurrence(env: Env, serverOrigins: seq<string>, cfg: Config, hasCache: bool, origins: seq<string>, uri: string, block: seq<Directive>)
    requires TemplateArg(uri) == IsTemplate && origins != []
    ensures ApplyOccurrence(env, serverOrigins, cfg, hasCache, Occurrence(origins + [uri], block))
      == RunBlock(env, cfg.(zones := cfg.zones + ZonesFor(NormalizedOrigins(env, origins), uri)), hasCache, block,
                  NormalizedOrigins(env, origins), uri)
  {
    var args := origins + [uri];
    assert args[|args| - 1] == uri && args[..|args| - 1] == origins;
  }

  /** `httprecord { onerror cached }`: the cached answer is returned on error, and a cache
      is created. */
  lemma OnErrorCached(env: Env, keys: seq<string>)
    ensures RunConfig(env, keys, [Occurrence([], [Directive("onerror", ["cached"])])])
      == Progress(Initial.(returnCachedOnError := true), true, None)
  {
    OneOccurrence(env, keys, Occurrence([], [Directive("onerror", ["cached"])]));
    OneLine(env, Initial, false, Directive("onerror", ["cached"]), ServerBlockOrigins(env, keys), "");
  }

  /** `httprecord { onerror servfail }`: errors give SERVFAIL, and no cache is created. */
  lemma OnErrorServfail(env: Env, keys: seq<string>)
    ensures RunConfig(env, keys, [Occurrence([], [Directive("onerror", ["servfail"])])])
      == Progress(Initial, false, None)
  {
    OneOccurrence(env, keys, Occurrence([], [Directive("onerror", ["servfail"])]));
    OneLine(env, Initial, false, Directive("onerror", ["servfail"]), ServerBlockOrigins(env, keys), "");
  }

  /** `onerror` with any other value is rejected. */
  lemma OnErrorOtherValue(env: Env, keys: seq<string>, v: string)
    requires v != "servfail" && v != "cached"
    ensures RunConfig(env, keys, [Occurrence([], [Directive("onerror", [v])])]).err == Some(BadOnError)
  {
    OneOccurrence(env, keys, Occurrence([], [Directive("onerror", [v])]));
    OneLine(env, Initial, false, Directive("onerror", [v]), ServerBlockOrigins(env, keys), "");
  }

  /** `httprecord { timeout D }` with a duration that parses sets the timeout. */
  lemma TimeoutParsed(env: Env, keys: seq<string>, arg: string, t: int)
    requires env.parseDuration(arg) == Some(t)
    ensures RunConfig(env, keys, [Occurrence([], [Directive("timeout", [arg])])])
      == Progress(Initial.(timeout := t), false, None)
  {
    OneOccurrence(env, keys, Occurrence([], [Directive("timeout", [arg])]));
    OneLine(env, Initial, false, Directive("timeout", [arg]), ServerBlockOrigins(env, keys), "");
  }

  /** A duration that does not parse is rejected with that argument. */
  lemma TimeoutUnparsable(env: Env, keys: seq<string>, arg: string)
    requires env.parseDuration(arg) == None
    ensures RunConfig(env, keys, [Occurrence([], [Directive("timeout", [arg])])]).err == Some(BadDuration(arg))
  {
    OneOccurrence(env, keys, Occurrence([], [Directive("timeout", [arg])]));
    OneLine(env, Initial, false, Directive("timeout", [arg]), ServerBlockOrigins(env, keys), "");
  }

  /** `timeout` needs exactly one argument. */
  lemma TimeoutArityChecked(env: Env, keys: seq<string>, args: seq<string>)
    requires |args| != 1
    ensures RunConfig(env, keys, [Occurrence([], [Directive("timeout", args)])]).err == Some(TimeoutArity)
  {
    OneOccurrence(env, keys, Occurrence([], [Directive("timeout", args)]));
    OneLine(env, Initial, false, Directive("timeout", args), ServerBlockOrigins(env, keys), "");
  }

  /** The URIs of the tests are templates. */
  lemma HttpsIsTemplate()
    ensures TemplateArg("https://example.com") == IsTemplate
  {
    assert ToLower("https://example.com")[..4] == "http";
  }

  /** A last argument such as `example.com` is an origin. */
  lemma DomainIsOrigin()
    ensures TemplateArg("example.com") == IsOrigin
  {
    assert ToLower("example.com")[..4] == "exam";
  }

  /** A last argument shorter than four bytes, such as `ex`, cannot be sliced. */
  lemma ShortArgumentPanics()
    ensures ApplyOccurrence(Env((_ => false), (_ => None), ((_, _) => false), (_ => false), (s => s), (s => s), (_ => None), ((_, _) => false)),
                            [], Initial, false, Occurrence(["ex"], [])).err == Some(SliceOutOfRange("ex"))
  {
    assert Utf8Len(ToLower("ex")) == 2;
  }
}
