/** `is_safe_url` of the connector base: the SSRF guard that every connector
    fetch passes through. URL parsing and DNS resolution are inputs: the
    result of `urlparse(url)` (`None` where it raises) and the address that
    `socket.gethostbyname` gives for a host name (`None` where it raises). */
module UrlSafety {
  import opened Wrappers
  import opened Text

  datatype Version = IPv4 | IPv6

  /** An IP address as its integer value. */
  datatype Address = Address(version: Version, value: nat)

  /** A network in CIDR notation: its first address and its prefix length. */
  datatype Network = Network(version: Version, first: nat, prefixLen: nat)

  function Bits(v: Version): nat {
    if v == IPv4 then 32 else 128
  }

  function Pow2(n: nat): (p: nat)
    ensures p >= 1
  {
    if n == 0 then 1 else 2 * Pow2(n - 1)
  }

  lemma {:induction false} Pow2Add(a: nat, b: nat)
    ensures Pow2(a + b) == Pow2(a) * Pow2(b)
    decreases a
  {
    if a > 0 {
      Pow2Add(a - 1, b);
    }
  }

  /** The sizes of the IPv4 host parts of the blocked networks. */
  lemma Pow2HostSizes()
    ensures Pow2(16) == 65536 && Pow2(20) == 1048576 && Pow2(24) == 16777216
  {
    assert Pow2(4) == 16 by {
      assert Pow2(1) == 2;
      assert Pow2(2) == 4;
      assert Pow2(3) == 8;
    }
    Pow2Add(4, 4);
    Pow2Add(8, 8);
    Pow2Add(16, 4);
    Pow2Add(16, 8);
  }

  /** `a.b.c.d` as an integer. */
  function Dotted(a: nat, b: nat, c: nat, d: nat): nat {
    ((a * 256 + b) * 256 + c) * 256 + d
  }

  function HostBits(n: Network): nat {
    if n.prefixLen <= Bits(n.version) then Bits(n.version) - n.prefixLen else 0
  }

  /** `ip in network`: same version and the same leading `prefixLen` bits.
      Python answers `False` when the versions differ. */
  predicate InNetwork(a: Address, n: Network) {
    a.version == n.version && a.value / Pow2(HostBits(n)) == n.first / Pow2(HostBits(n))
  }

  /** `_BLOCKED_IP_RANGES`, in the order the loop tries them. */
  const BlockedNetworks: seq<Network> := [
    Network(IPv4, Dotted(10, 0, 0, 0), 8),
    Network(IPv4, Dotted(172, 16, 0, 0), 12),
    Network(IPv4, Dotted(192, 168, 0, 0), 16),
    Network(IPv4, Dotted(127, 0, 0, 0), 8),
    Network(IPv4, Dotted(169, 254, 0, 0), 16),
    Network(IPv6, 1, 128),                                // ::1/128
    Network(IPv6, 0xfc00 * 0x1_0000_0000_0000_0000_0000_0000_0000, 7),  // fc00::/7
    Network(IPv6, 0xfe80 * 0x1_0000_0000_0000_0000_0000_0000_0000, 10)  // fe80::/10
  ]

  /** The loop over the blocked networks: the index of the first one that
      holds the address. */
  function FirstBlocking(a: Address, nets: seq<Network>): (r: Option<nat>)
    ensures r.Some? ==> r.value < |nets| && InNetwork(a, nets[r.value])
    ensures r.Some? ==> forall j :: 0 <= j < r.value ==> !InNetwork(a, nets[j])
    ensures r.None? ==> forall j :: 0 <= j < |nets| ==> !InNetwork(a, nets[j])
  {
    if nets == [] then None
    else if InNetwork(a, nets[0]) then Some(0)
    else match FirstBlocking(a, nets[1..])
      case Some(k) => Some(k + 1)
      case None => None
  }

  predicate Blocked(a: Address) {
    FirstBlocking(a, BlockedNetworks).Some?
  }

  /** The parts of `urlparse(url)` that are read: the scheme, the network
      location and the host name, which is `None` when the URL has no host
      part. */
  datatype ParsedUrl = ParsedUrl(scheme: string, netloc: string, hostname: Option<string>)

  /** The domain restriction: the host is the allowed domain or one of its
      subdomains. */
  predicate DomainAllowed(host: string, allowedDomain: Option<string>) {
    !Truthy(allowedDomain) || host == allowedDomain.value || EndsWith(host, "." + allowedDomain.value)
  }

  /** `is_safe_url(url, allowed_domain)`. `parsed` is `urlparse(url)` and
      `resolve` is `gethostbyname` (IPv4 only); `None` stands for a raised
      exception, which the guard turns into `False`. */
  function IsSafeUrl(parsed: Option<ParsedUrl>, allowedDomain: Option<string>,
                     resolve: string -> Option<nat>): (safe: bool)
    ensures safe ==> parsed.Some? && parsed.value.scheme in {"http", "https"}
    ensures safe ==> Truthy(parsed.value.hostname)
    ensures safe ==> DomainAllowed(parsed.value.hostname.value, allowedDomain)
    ensures safe ==> resolve(parsed.value.hostname.value).Some?
    ensures safe ==> !Blocked(Address(IPv4, resolve(parsed.value.hostname.value).value))
  {
    if parsed.None? then false
    else if parsed.value.scheme != "http" && parsed.value.scheme != "https" then false
    else if !Truthy(parsed.value.hostname) then false
    else
      var host := parsed.value.hostname.value;
      if !DomainAllowed(host, allowedDomain) then false
      else match resolve(host)
        case None => false
        case Some(ip) => !Blocked(Address(IPv4, ip))
  }

  /** The guard accepts exactly the http(s) URLs with a host inside the
      allowed domain whose address resolves outside every blocked network. */
  lemma SafeExactly(parsed: Option<ParsedUrl>, allowedDomain: Option<string>, resolve: string -> Option<nat>)
    ensures IsSafeUrl(parsed, allowedDomain, resolve) <==>
              parsed.Some? && parsed.value.scheme in {"http", "https"} && Truthy(parsed.value.hostname)
              && DomainAllowed(parsed.value.hostname.value, allowedDomain)
              && resolve(parsed.value.hostname.value).Some?
              && forall k :: 0 <= k < |BlockedNetworks| ==>
                   !InNetwork(Address(IPv4, resolve(parsed.value.hostname.value).value), BlockedNetworks[k])
  {
    if parsed.Some? && Truthy(parsed.value.hostname) {
      var host := parsed.value.hostname.value;
      if resolve(host).Some? {
        var r := FirstBlocking(Address(IPv4, resolve(host).value), BlockedNetworks);
        if r.Some? {
          assert InNetwork(Address(IPv4, resolve(host).value), BlockedNetworks[r.value]);
        }
      }
    }
  }

  /** `gethostbyname` yields IPv4 addresses, and an IPv4 address is never in
      an IPv6 network: the last three entries of the list never block. */
  lemma IPv6EntriesNeverMatch(ip: nat, k: nat)
    requires 5 <= k < |BlockedNetworks|
    ensures !InNetwork(Address(IPv4, ip), BlockedNetworks[k])
  {
  }

  /** "evilexample.com" is not a subdomain of "example.com". */
  lemma SuffixIsNotSubdomain(scheme: string, netloc: string, resolve: string -> Option<nat>)
    ensures !IsSafeUrl(Some(ParsedUrl(scheme, netloc, Some("evilexample.com"))), Some("example.com"), resolve)
  {
    var host := "evilexample.com";
    assert "." + "example.com" == ".example.com";
    assert !EndsWith(host, ".example.com") by {
      assert host[|host| - 12..][0] == 'l';
    }
  }

  /** A subdomain of the allowed domain passes the domain check. */
  lemma SubdomainAllowed()
    ensures DomainAllowed("www.example.com", Some("example.com"))
  {
    var host := "www.example.com";
    assert host[|host| - 12..] == ".example.com";
  }

  lemma LoopbackBlocked()
    ensures Blocked(Address(IPv4, Dotted(127, 0, 0, 1)))
  {
    Pow2HostSizes();
    assert InNetwork(Address(IPv4, Dotted(127, 0, 0, 1)), BlockedNetworks[3]);
  }

  lemma PrivateTenBlocked()
    ensures Blocked(Address(IPv4, Dotted(10, 0, 0, 5)))
  {
    Pow2HostSizes();
    assert InNetwork(Address(IPv4, Dotted(10, 0, 0, 5)), BlockedNetworks[0]);
  }

  lemma PrivateOneNineTwoBlocked()
    ensures Blocked(Address(IPv4, Dotted(192, 168, 1, 1)))
  {
    Pow2HostSizes();
    assert InNetwork(Address(IPv4, Dotted(192, 168, 1, 1)), BlockedNetworks[2]);
  }
}
