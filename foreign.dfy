/** The collaborators the plugin calls but does not implement: lookups in the DNS
    library, the address parser of the standard library, the host's name
    normalisation and fallthrough policy, and the duration parser. Each is a field of
    `Env`, so every property of the model holds for whatever these calls do. */
module Foreign {
  import opened Text

  /** A `net.IP`: its bytes, 4 long or 16 long. */
  datatype IP = IP(bytes: seq<int>)

  /** `ip.To4() != nil`: a 4-byte address, or a 16-byte IPv4-mapped one (::ffff:a.b.c.d).
      A failed parse (`nil`) is not an IPv4 address. */
  predicate HasIPv4Form(ip: Option<IP>)
  {
    match ip
    case None => false
    case Some(a) =>
      || |a.bytes| == 4
      || (&& |a.bytes| == 16
          && (forall i :: 0 <= i < 10 ==> a.bytes[i] == 0)
          && a.bytes[10] == 0xff && a.bytes[11] == 0xff)
  }

  datatype Env = Env(
    /** `dns.StringToType[t]` exists (exact case). */
    isType: string -> bool,
    /** `net.ParseIP(s)`, `None` for nil. */
    parseIP: string -> Option<IP>,
    /** `dns.IsSubDomain(parent, child)`. */
    isSubDomain: (string, string) -> bool,
    /** `dns.IsFqdn(s)`. */
    isFqdn: string -> bool,
    /** `plugin.Name(s).Normalize()`. */
    nameNormalize: string -> string,
    /** `plugin.Host(s).NormalizeExact()[0]`. */
    hostNormalize: string -> string,
    /** `time.ParseDuration(s)` in nanoseconds, `None` on error. */
    parseDuration: string -> Option<int>,
    /** `fall.F.Through(qname)` for a policy set from the given `fallthrough` arguments. */
    through: (seq<string>, string) -> bool
  )
}
