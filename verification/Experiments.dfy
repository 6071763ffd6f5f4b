/** What an experiment stands for: what it may leave open, what the constructors make, and how it is
    written down. */
module Experiments {
  import opened Model
  import opened Selectors
  import opened Canonical
  import opened Text

  /** Normalizing keeps everything that is given, the ID included. */
  lemma GivenIsKept(ident: Ident, e: Experiment)
    ensures var n, s := Normalize(ident, e), e.spec;
            var d := n.spec;
            && (e.id != "" ==> n.id == e.id) && (e.id == "" ==> n.id == ident(d))
            && (d.layer, d.alpn, d.sni) == (s.layer, s.alpn, s.sni)
            && (d.target.url, d.target.port) == (s.target.url, s.target.port)
            && (s.target.host != "" ==> d.target.host == s.target.host)
            && (s.family != NoFamily ==> d.family == s.family)
            && (s.transport != NoTransport ==> d.transport == s.transport)
            && (s.resolver != NoResolver ==> d.resolver == s.resolver)
            && (s.payload != 0 ==> d.payload == s.payload)
  {
  }

  /** A spec that leaves its family, transport, resolver and payload open. */
  function Brief(t: Target, layer: Layer, alpn: string, sni: string): Spec {
    Spec(t, layer, NoFamily, NoTransport, NoResolver, alpn, sni, 0)
  }

  /** Leaving a field open and giving its usual value is one experiment with one ID. */
  lemma OmittedIsUsual(ident: Ident, t: Target, alpn: string, sni: string)
    ensures Make(ident, Brief(t, LayerDNS, alpn, sni)) == Make(ident, Spec(t, LayerDNS, FamilyAny, UDP, ResolverSystem, alpn, sni, 0))
    ensures forall layer :: layer in [LayerTCP, LayerTLS, LayerHTTP] ==>
              Make(ident, Brief(t, layer, alpn, sni)) == Make(ident, Spec(t, layer, IPv4, TCP, NoResolver, alpn, sni, 0))
    ensures Make(ident, Brief(t, LayerUDP, alpn, sni)) == Make(ident, Spec(t, LayerUDP, IPv4, UDP, NoResolver, alpn, sni, 16))
    ensures Make(ident, Brief(t, LayerQUIC, alpn, sni)) == Make(ident, Spec(t, LayerQUIC, IPv4, QUIC, NoResolver, alpn, sni, 0))
  {
  }

  /** A target without a host is probed at its URL's. */
  lemma HostFromUrl(ident: Ident, url: Url, port: nat, s: Spec)
    requires url.hostname != ""
    ensures Make(ident, s.(target := Target(Some(url), "", port))) == Make(ident, s.(target := Target(Some(url), url.hostname, port)))
  {
  }

  lemma Filled(s: Spec)
    requires s.target.host != "" && s.family != NoFamily && s.transport != NoTransport
    requires s.layer == LayerDNS ==> s.resolver != NoResolver
    requires s.layer == LayerUDP ==> s.payload != 0
    ensures Defaults(s) == s
  {
  }

  /** What the constructors make, for a target with a host and an explicit family. */
  lemma ConstructorsMake(ident: Ident, t: Target, f: Family, alpn: string, sni: string, payload: int)
    requires t.host != "" && f != NoFamily && payload != 0
    ensures Make(ident, DnsSpec(t, ResolverSystem)).spec == Spec(t, LayerDNS, FamilyAny, UDP, ResolverSystem, "", "", 0)
    ensures Make(ident, DnsSpec(t, ResolverPublic)).spec == Spec(t, LayerDNS, FamilyAny, UDP, ResolverPublic, "", "", 0)
    ensures Make(ident, TcpSpec(t, f)).spec == Spec(t, LayerTCP, f, TCP, NoResolver, "", "", 0)
    ensures Make(ident, TlsSpec(t, f, alpn, sni)).spec == Spec(t, LayerTLS, f, TCP, NoResolver, alpn, sni, 0)
    ensures Make(ident, HttpSpec(t, f, alpn)).spec == Spec(t, LayerHTTP, f, TCP, NoResolver, alpn, "", 0)
    ensures Make(ident, UdpSpec(t, f, payload)).spec == Spec(t, LayerUDP, f, UDP, NoResolver, "", "", payload)
    ensures Make(ident, UdpSpec(t, f, 0)).spec == Spec(t, LayerUDP, f, UDP, NoResolver, "", "", 16)
    ensures Make(ident, QuicSpec(t, f, sni)).spec == Spec(t, LayerQUIC, f, QUIC, NoResolver, "h3", sni, 0)
  {
    UsualPayload(t, f);
    hide Defaults, Make;
    Filled(Spec(t, LayerDNS, FamilyAny, UDP, ResolverSystem, "", "", 0));
    Filled(Spec(t, LayerDNS, FamilyAny, UDP, ResolverPublic, "", "", 0));
    Filled(Spec(t, LayerTCP, f, TCP, NoResolver, "", "", 0));
    Filled(Spec(t, LayerTLS, f, TCP, NoResolver, alpn, sni, 0));
    Filled(Spec(t, LayerHTTP, f, TCP, NoResolver, alpn, "", 0));
    Filled(Spec(t, LayerUDP, f, UDP, NoResolver, "", "", payload));
    Filled(Spec(t, LayerQUIC, f, QUIC, NoResolver, "h3", sni, 0));
    MadeSpec(ident, DnsSpec(t, ResolverSystem));
    MadeSpec(ident, DnsSpec(t, ResolverPublic));
    MadeSpec(ident, TcpSpec(t, f));
    MadeSpec(ident, TlsSpec(t, f, alpn, sni));
    MadeSpec(ident, HttpSpec(t, f, alpn));
    MadeSpec(ident, UdpSpec(t, f, payload));
    MadeSpec(ident, UdpSpec(t, f, 0));
    MadeSpec(ident, QuicSpec(t, f, sni));
  }

  lemma UsualPayload(t: Target, f: Family)
    requires t.host != "" && f != NoFamily
    ensures UdpSpec(t, f, 0) == Spec(t, LayerUDP, f, UDP, NoResolver, "", "", 16)
  {
  }

  /** The experiment of a layer that a constructor makes when no variant is asked for. */
  function Ordinary(layer: Layer, t: Target, f: Family): Spec {
    match layer
    case LayerDNS => DnsSpec(t, NoResolver)
    case LayerTCP => TcpSpec(t, f)
    case LayerTLS => TlsSpec(t, f, "", "")
    case LayerHTTP => HttpSpec(t, f, "")
    case LayerUDP => UdpSpec(t, f, 0)
    case LayerQUIC => QuicSpec(t, f, "")
    case LayerOther(_) => Brief(t, layer, "", "")
  }

  /** The default variants are those that agree with the ordinary experiment of their layer: in the
      resolver for DNS, else in the ALPN, which QUIC may also leave open; and always in the server
      name. */
  lemma DefaultVariants(s: Spec)
    ensures var o := Ordinary(s.layer, s.target, s.family);
            IsCanonical(s) <==>
            && s.sni == o.sni
            && (if s.layer == LayerDNS then Defaults(s).resolver == o.resolver
                else s.alpn == o.alpn || (s.layer == LayerQUIC && s.alpn == ""))
  {
  }

  // ---------------------------------------------------------------------------------------
  // The canonical text

  lemma Ports()
    ensures Itoa(0) == "0" && Itoa(16) == "16" && Itoa(443) == "443" && Itoa(80) == "80"
  {
    assert Decimal(4) == "4" && Decimal(44) == "44" && Decimal(443) == "443";
    assert Decimal(1) == "1" && Decimal(8) == "8";
  }

  const SITE := Target(Some(Url("https", "example.com", "example.com", "/")), "example.com", 443)
  const HOST6 := Target(None, "2001:db8::1", 443)
  const HOST4 := Target(None, "192.0.2.1", 80)

  /** `parts` are the fields of the canonical text. */
  ghost predicate WrittenAs(s: Spec, parts: seq<string>) {
    CanonicalForm(s) == Join(parts, "|")
  }

  lemma TargetTexts()
    ensures TargetText(SITE) == "https://example.com/"
    ensures TargetText(HOST6) == "[2001:db8::1]:443" && TargetText(HOST4) == "192.0.2.1:80"
  {
    hide Decimal, Itoa;
    Ports();
    assert "2001:db8::1"[4] == ':';
    assert "https" + "://" + "example.com" + "/" == "https://example.com/";
    assert "[" + "2001:db8::1" + "]:" + "443" == "[2001:db8::1]:443";
    assert "192.0.2.1" + ":" + "80" == "192.0.2.1:80";
  }

  /** Worked examples of the canonical text: the version, the order of the fields, the names, and the URL
      or the host and port, bracketed when the host has a colon. */
  lemma CanonicalExamples()
    ensures WrittenAs(Spec(SITE, LayerDNS, FamilyAny, UDP, ResolverSystem, "", "", 0),
                      ["v1", "dns", "https://example.com/", "example.com", "443", "any", "udp", "system", "", "", "0"])
    ensures WrittenAs(Spec(SITE, LayerDNS, FamilyAny, UDP, ResolverPublic, "", "", 0),
                      ["v1", "dns", "https://example.com/", "example.com", "443", "any", "udp", "public", "", "", "0"])
    ensures WrittenAs(Spec(SITE, LayerTLS, IPv4, TCP, NoResolver, "h2", "none", 0),
                      ["v1", "tls", "https://example.com/", "example.com", "443", "ipv4", "tcp", "", "h2", "none", "0"])
    ensures WrittenAs(Spec(HOST6, LayerQUIC, IPv6, QUIC, NoResolver, "h3", "", 0),
                      ["v1", "quic", "[2001:db8::1]:443", "2001:db8::1", "443", "ipv6", "quic", "", "h3", "", "0"])
    ensures WrittenAs(Spec(HOST6, LayerUDP, IPv6, UDP, NoResolver, "", "", 16),
                      ["v1", "udp", "[2001:db8::1]:443", "2001:db8::1", "443", "ipv6", "udp", "", "", "", "16"])
    ensures WrittenAs(Spec(HOST4, LayerTCP, IPv4, TCP, NoResolver, "", "", 0),
                      ["v1", "tcp", "192.0.2.1:80", "192.0.2.1", "80", "ipv4", "tcp", "", "", "", "0"])
    ensures WrittenAs(Spec(HOST4, LayerHTTP, IPv4, TCP, NoResolver, "http/1.1", "", 0),
                      ["v1", "http", "192.0.2.1:80", "192.0.2.1", "80", "ipv4", "tcp", "", "http/1.1", "", "0"])
  {
    hide Join, Itoa, TargetText, WrittenAs;
    Ports();
    TargetTexts();
    Written(Spec(SITE, LayerDNS, FamilyAny, UDP, ResolverSystem, "", "", 0), "https://example.com/", "443", "0");
    Written(Spec(SITE, LayerDNS, FamilyAny, UDP, ResolverPublic, "", "", 0), "https://example.com/", "443", "0");
    Written(Spec(SITE, LayerTLS, IPv4, TCP, NoResolver, "h2", "none", 0), "https://example.com/", "443", "0");
    Written(Spec(HOST6, LayerQUIC, IPv6, QUIC, NoResolver, "h3", "", 0), "[2001:db8::1]:443", "443", "0");
    Written(Spec(HOST6, LayerUDP, IPv6, UDP, NoResolver, "", "", 16), "[2001:db8::1]:443", "443", "16");
    Written(Spec(HOST4, LayerTCP, IPv4, TCP, NoResolver, "", "", 0), "192.0.2.1:80", "80", "0");
    Written(Spec(HOST4, LayerHTTP, IPv4, TCP, NoResolver, "http/1.1", "", 0), "192.0.2.1:80", "80", "0");
  }

  lemma Written(s: Spec, target: string, port: string, payload: string)
    requires TargetText(s.target) == target && Itoa(s.target.port) == port && Itoa(s.payload) == payload
    ensures WrittenAs(s, ["v1", LayerName(s.layer), target, s.target.host, port, FamilyName(s.family), TransportName(s.transport),
                          ResolverName(s.resolver), s.alpn, s.sni, payload])
  {
    hide Join, Itoa, TargetText, LayerName, FamilyName, TransportName, ResolverName;
    assert ["v1"] + Fields(s) == ["v1", LayerName(s.layer), target, s.target.host, port, FamilyName(s.family),
                                  TransportName(s.transport), ResolverName(s.resolver), s.alpn, s.sni, payload];
  }
}
