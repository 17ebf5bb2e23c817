/** What the daemon and the helper know of Cast devices and of discovery:
    a device's identity, the outcome of a `get_listed_chromecasts` lookup,
    and the arguments such a lookup is made with. */
module CastDevices {
  import opened Common

  /** A Cast device as discovery returns it (`cast_info`). */
  datatype Cast = Cast(name: string, host: string, model: string)

  /** Outcome of a lookup (`get_listed_chromecasts`, and `cast.wait` where
      the caller waits): the devices listed, or the exception raised. */
  datatype Lookup = Listed(casts: seq<Cast>) | LookupRaised(error: string)

  /** The arguments of one `get_listed_chromecasts` call. */
  datatype DiscoveryCall = DiscoveryCall(friendlyNames: seq<string>, knownHosts: seq<string>, timeout: nat)

  /** The known-hosts lookup for `name` at address `ip`. */
  function HostLookup(name: string, ip: string, timeout: nat): DiscoveryCall {
    DiscoveryCall([name], [ip], timeout)
  }

  /** The full mDNS scan for `name`. */
  function ScanLookup(name: string): DiscoveryCall {
    DiscoveryCall([name], [], 10)
  }

  /** A non-empty address is a hint; None and "" are not (Python truthiness). */
  predicate Hinted(ip: Option<string>) {
    Truthy(ip)
  }

  /** The first device a lookup lists, if it lists any. */
  function FirstListed(l: Lookup): (r: Option<Cast>)
    ensures r.Some? <==> l.Listed? && |l.casts| > 0
    ensures r.Some? ==> r.value == l.casts[0]
  {
    if l.Listed? && |l.casts| > 0 then Some(l.casts[0]) else None
  }

  /** The message every lookup failure is reported with. */
  function NotFoundMessage(name: string): string {
    "Speaker '" + name + "' not found"
  }
}
