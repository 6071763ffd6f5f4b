/** Which follow-ups the Adaptive policy considers and which it chooses, read off the record alone:
    no candidate list, no scores, no ranking. */
module AdaptiveExact {
  import opened Model
  import opened Selectors
  import opened Dedupe
  import opened Fast
  import opened FastRuns
  import opened FastExact
  import opened Adaptive
  import opened AdaptiveRuns
  import opened AdaptiveChoice
  import opened Canonical
  import Sorting
  import opened Text

  // ---------------------------------------------------------------------------------------
  // The candidates

  /** TCP passed on an announced family, and the leading family was tried. */
  ghost predicate Reachable(prefer6: bool, obs: seq<Observation>, d: Observation) {
    && (exists f :: Announced(d, f) && Passes(Latest(obs, LayerTCP, f)))
    && forall g :: Leads(prefer6, d, g) ==> HasKey(obs, LayerTCP, g)
  }

  /** TLS failed on an announced family that TCP passes on. */
  ghost predicate HandshakeFails(prefer6: bool, t: Target, obs: seq<Observation>, d: Observation, f: Family) {
    && Secure(t) && Reachable(prefer6, obs, d) && Announced(d, f)
    && Passes(Latest(obs, LayerTCP, f)) && Fails(Latest(obs, LayerTLS, f))
  }

  /** What a failure on one family asks for, and which explanation it would test. */
  ghost predicate IndicatedOn(prefer6: bool, t: Target, obs: seq<Observation>, d: Observation, f: Family, s: Spec, h: Hypothesis) {
    match h
    case ResolverAnomaly => false
    case FamilySpecific =>
      || (&& s == TcpSpec(t, Other(f)) && Leads(prefer6, d, f) && Announced(d, Other(f))
          && Fails(Latest(obs, LayerTCP, f)) && !HasKey(obs, LayerTCP, Other(f)))
      || (&& s == TlsSpec(t, Other(f), "", "") && HandshakeFails(prefer6, t, obs, d, f) && Announced(d, Other(f))
          && !HasKey(obs, LayerTLS, Other(f)))
    case PortSpecific =>
      && s == TcpSpec(WithPort(t, 80), f) && Leads(prefer6, d, f)
      && forall g :: Announced(d, g) ==> Fails(Latest(obs, LayerTCP, g))
    case SNIFiltering => s == TlsSpec(t, f, "", SNI_NONE) && HandshakeFails(prefer6, t, obs, d, f)
    case ALPNInterference => s == TlsSpec(t, f, "http/1.1", "") && HandshakeFails(prefer6, t, obs, d, f)
    case UDPBlocked =>
      && s == UdpSpec(t, f, 0) && Secure(t) && Reachable(prefer6, obs, d)
      && Leads(prefer6, d, f) && Fails(Latest(obs, LayerQUIC, f))
    case H2Broken =>
      && s == HttpSpec(t, f, "http/1.1") && Reachable(prefer6, obs, d) && Announced(d, f)
      && Fails(Latest(obs, LayerHTTP, f)) && (Secure(t) ==> Passes(Latest(obs, LayerTLS, f)))
  }

  /** What the record asks for: the public resolver when names do not resolve, else a follow-up of a
      failure on some family. */
  ghost predicate Indicated(prefer6: bool, t: Target, obs: seq<Observation>, s: Spec, h: Hypothesis) {
    match Latest(obs, LayerDNS, NoFamily)
    case None => false
    case Some(d) =>
      if d.status == Pass then exists f :: IndicatedOn(prefer6, t, obs, d, f, s, h)
      else
        && h == ResolverAnomaly && s == DnsSpec(t, ResolverPublic)
        && forall o :: o in obs && o.experiment.spec.layer == LayerDNS ==> o.experiment.spec.resolver != ResolverPublic
  }

  ghost predicate Kept(ident: Ident, obs: seq<Observation>, c: Candidate, s: Spec, h: Hypothesis) {
    c == Candidate(Make(ident, s), [h]) && !HasExperiment(obs, c.exp.id)
  }

  lemma KeepIs(ident: Ident, obs: seq<Observation>, c: Candidate, s: Spec, h: Hypothesis)
    ensures c in Keep(ident, obs, s, h) <==> Kept(ident, obs, c, s, h)
  {
    hide Make, HasExperiment;
  }

  lemma {:induction false} InTlsParts(ident: Ident, t: Target, obs: seq<Observation>, all: seq<Family>, fams: seq<Family>, c: Candidate)
    ensures c in TlsParts(ident, t, obs, all, fams) <==> exists f :: f in fams && c in TlsPart(ident, t, obs, all, f)
    decreases |fams|
  {
    hide TlsPart;
    if |fams| > 0 {
      InTlsParts(ident, t, obs, all, fams[1..], c);
      assert forall f :: f in fams <==> f == fams[0] || f in fams[1..];
    }
  }

  lemma {:induction false} InHttpParts(ident: Ident, t: Target, obs: seq<Observation>, fams: seq<Family>, c: Candidate)
    ensures c in HttpParts(ident, t, obs, fams) <==> exists f :: f in fams && c in HttpPart(ident, t, obs, f)
    decreases |fams|
  {
    hide HttpPart;
    if |fams| > 0 {
      InHttpParts(ident, t, obs, fams[1..], c);
      assert forall f :: f in fams <==> f == fams[0] || f in fams[1..];
    }
  }

  lemma AnyPassOfOne(obs: seq<Observation>, f: Family)
    ensures TcpAnyPass(obs, [f]) <==> Passes(Latest(obs, LayerTCP, f))
  {
    hide Latest;
    assert [f][1..] == [];
    assert !TcpAnyPass(obs, []);
  }

  lemma AnyPassOfTwo(obs: seq<Observation>, fams: seq<Family>)
    requires |fams| <= 2
    ensures TcpAnyPass(obs, fams) <==>
            fams != [] && HasKey(obs, LayerTCP, fams[0]) && exists f :: f in fams && Passes(Latest(obs, LayerTCP, f))
  {
    hide Latest, HasKey;
    if fams != [] {
      LatestIsThere(obs, LayerTCP, fams[0]);
      AnyPassOfOne(obs, fams[|fams| - 1]);
      assert |fams| == 1 ==> fams == [fams[0]];
      assert |fams| == 2 ==> fams[1..] == [fams[1]];
      assert forall f :: f in fams <==> f == fams[0] || (|fams| == 2 && f == fams[1]);
    }
  }

  lemma AnyPassIs(prefer6: bool, obs: seq<Observation>, d: Observation)
    ensures TcpAnyPass(obs, Families(d, prefer6)) <==> Reachable(prefer6, obs, d)
  {
    hide Latest, HasKey, Families, Announced, Leads, TcpAnyPass;
    FamiliesMeaning(d, prefer6);
    AnyPassOfTwo(obs, Families(d, prefer6));
    LeadsInto(d, prefer6);
  }

  lemma AllFailedIs(prefer6: bool, obs: seq<Observation>, d: Observation)
    ensures TcpAllFailed(obs, Families(d, prefer6)) <==>
            (exists f :: Announced(d, f)) && forall g :: Announced(d, g) ==> Fails(Latest(obs, LayerTCP, g))
  {
    hide Latest, Families, Announced, Leads;
    var fams := Families(d, prefer6);
    FamiliesMeaning(d, prefer6);
    assert fams != [] ==> fams[0] in fams;
    forall i | 0 <= i < |fams| ensures Announced(d, fams[i]) { assert fams[i] in fams; }
  }

  lemma OtherIs(d: Observation, prefer6: bool)
    ensures var fams := Families(d, prefer6);
            && (|fams| == 2 ==> fams[1] == Other(fams[0]))
            && (fams != [] ==> (Announced(d, Other(fams[0])) <==> |fams| == 2))
  {
    hide Announced, Leads;
    FamiliesMeaning(d, prefer6);
  }

  /** The parts of the candidate list, each as a condition on the record. */
  lemma FamilyPartIs(ident: Ident, prefer6: bool, t: Target, obs: seq<Observation>, d: Observation, c: Candidate)
    ensures c in FamilyPart(ident, t, obs, Families(d, prefer6)) <==>
            exists f :: && Leads(prefer6, d, f) && Announced(d, Other(f)) && Fails(Latest(obs, LayerTCP, f))
                        && !HasKey(obs, LayerTCP, Other(f)) && Kept(ident, obs, c, TcpSpec(t, Other(f)), FamilySpecific)
  {
    hide Latest, Families, Announced, Leads, HasKey, Keep, Kept, TcpSpec;
    var fams := Families(d, prefer6);
    FamiliesMeaning(d, prefer6);
    OtherIs(d, prefer6);
    if |fams| == 2 {
      LatestIsThere(obs, LayerTCP, fams[1]);
      KeepIs(ident, obs, c, TcpSpec(t, fams[1]), FamilySpecific);
    }
    LeadsInto(d, prefer6);
  }

  lemma LeadsInto(d: Observation, prefer6: bool)
    ensures forall f :: Leads(prefer6, d, f) ==> f in Families(d, prefer6) && f == Families(d, prefer6)[0]
  {
    hide Announced, Families;
    FamiliesMeaning(d, prefer6);
    forall f | Leads(prefer6, d, f) ensures f in Families(d, prefer6) { LeadIsAnnounced(prefer6, d, f); }
  }

  lemma TlsPartIs(ident: Ident, prefer6: bool, t: Target, obs: seq<Observation>, d: Observation, f: Family, c: Candidate)
    requires Secure(t) && Reachable(prefer6, obs, d) && Announced(d, f)
    ensures c in TlsPart(ident, t, obs, Families(d, prefer6), f) <==>
            && HandshakeFails(prefer6, t, obs, d, f)
            && (|| (Announced(d, Other(f)) && !HasKey(obs, LayerTLS, Other(f))
                    && Kept(ident, obs, c, TlsSpec(t, Other(f), "", ""), FamilySpecific))
                || Kept(ident, obs, c, TlsSpec(t, f, "", SNI_NONE), SNIFiltering)
                || Kept(ident, obs, c, TlsSpec(t, f, "http/1.1", ""), ALPNInterference))
  {
    hide Latest, Families, Announced, Leads, HasKey, Keep, Kept, TlsSpec, Reachable;
    FamiliesMeaning(d, prefer6);
    LatestIsThere(obs, LayerTLS, Other(f));
    KeepIs(ident, obs, c, TlsSpec(t, Other(f), "", ""), FamilySpecific);
    KeepIs(ident, obs, c, TlsSpec(t, f, "", SNI_NONE), SNIFiltering);
    KeepIs(ident, obs, c, TlsSpec(t, f, H1, ""), ALPNInterference);
  }

  lemma HttpPartIs(ident: Ident, t: Target, obs: seq<Observation>, f: Family, c: Candidate)
    ensures c in HttpPart(ident, t, obs, f) <==>
            && Fails(Latest(obs, LayerHTTP, f)) && (Secure(t) ==> Passes(Latest(obs, LayerTLS, f)))
            && Kept(ident, obs, c, HttpSpec(t, f, "http/1.1"), H2Broken)
  {
    hide Latest, Keep, Kept, HttpSpec;
    KeepIs(ident, obs, c, HttpSpec(t, f, H1), H2Broken);
  }

  lemma UdpPartIs(ident: Ident, t: Target, obs: seq<Observation>, f: Family, c: Candidate)
    ensures c in UdpPart(ident, t, obs, f) <==>
            Fails(Latest(obs, LayerQUIC, f)) && Kept(ident, obs, c, UdpSpec(t, f, 0), UDPBlocked)
  {
    hide Latest, Keep, Kept, UdpSpec;
    KeepIs(ident, obs, c, UdpSpec(t, f, 0), UDPBlocked);
  }

  // ---------------------------------------------------------------------------------------
  // All candidates

  lemma PortIs(ident: Ident, prefer6: bool, t: Target, obs: seq<Observation>, d: Observation, c: Candidate)
    ensures var fams := Families(d, prefer6);
            TcpAllFailed(obs, fams) && c in Keep(ident, obs, TcpSpec(WithPort(t, 80), fams[0]), PortSpecific)
            <==> exists f :: && Leads(prefer6, d, f) && (forall g :: Announced(d, g) ==> Fails(Latest(obs, LayerTCP, g)))
                             && Kept(ident, obs, c, TcpSpec(WithPort(t, 80), f), PortSpecific)
  {
    hide Latest, Families, Announced, Keep, Kept, TcpSpec, TcpAllFailed, WithPort, Leads;
    var fams := Families(d, prefer6);
    FamiliesMeaning(d, prefer6);
    AllFailedIs(prefer6, obs, d);
    LeadsInto(d, prefer6);
    AllFailedSome(obs, fams);
    if fams != [] { KeepIs(ident, obs, c, TcpSpec(WithPort(t, 80), fams[0]), PortSpecific); }
  }

  lemma AllFailedSome(obs: seq<Observation>, fams: seq<Family>)
    ensures TcpAllFailed(obs, fams) ==> fams != []
  {
    hide Latest;
  }

  /** Where TCP passes on an announced family, it does not fail on all of them. */
  lemma NotAllFailed(prefer6: bool, obs: seq<Observation>, d: Observation)
    ensures Reachable(prefer6, obs, d) ==> !TcpAllFailed(obs, Families(d, prefer6)) && Families(d, prefer6) != []
  {
    hide Latest, Families, Announced, Leads, TcpAllFailed, HasKey;
    AllFailedIs(prefer6, obs, d);
    FamiliesMeaning(d, prefer6);
  }

  /** Every follow-up on the list is indicated on some family. */
  lemma ListedIsIndicated(ident: Ident, prefer6: bool, t: Target, obs: seq<Observation>, d: Observation, c: Candidate)
    requires c in FollowUps(ident, t, obs, Families(d, prefer6))
    ensures exists f, s, h :: IndicatedOn(prefer6, t, obs, d, f, s, h) && Kept(ident, obs, c, s, h)
  {
    hide Latest, Families, Announced, Leads, HasKey, Keep, Kept, TcpSpec, TlsSpec, UdpSpec, HttpSpec, TcpAllFailed, TcpAnyPass, FamilyPart,
      TlsParts, HttpParts, TlsPart, HttpPart, UdpPart, WithPort, HandshakeFails, Reachable;
    var fams := Families(d, prefer6);
    FamiliesMeaning(d, prefer6);
    FamilyPartIs(ident, prefer6, t, obs, d, c);
    PortIs(ident, prefer6, t, obs, d, c);
    AnyPassIs(prefer6, obs, d);
    InTlsParts(ident, t, obs, fams, fams, c);
    InHttpParts(ident, t, obs, fams, c);
    if c in FamilyPart(ident, t, obs, fams) {
      var f :| && Leads(prefer6, d, f) && Announced(d, Other(f)) && Fails(Latest(obs, LayerTCP, f))
               && !HasKey(obs, LayerTCP, Other(f)) && Kept(ident, obs, c, TcpSpec(t, Other(f)), FamilySpecific);
      assert IndicatedOn(prefer6, t, obs, d, f, TcpSpec(t, Other(f)), FamilySpecific);
    } else if TcpAllFailed(obs, fams) {
      var f :| Leads(prefer6, d, f) && Kept(ident, obs, c, TcpSpec(WithPort(t, 80), f), PortSpecific);
      assert IndicatedOn(prefer6, t, obs, d, f, TcpSpec(WithPort(t, 80), f), PortSpecific);
    } else if Secure(t) && c in TlsParts(ident, t, obs, fams, fams) {
      var f :| f in fams && c in TlsPart(ident, t, obs, fams, f);
      ListedHandshake(ident, prefer6, t, obs, d, f, c);
    } else if c in HttpParts(ident, t, obs, fams) {
      var f :| f in fams && c in HttpPart(ident, t, obs, f);
      HttpPartIs(ident, t, obs, f, c);
      assert IndicatedOn(prefer6, t, obs, d, f, HttpSpec(t, f, "http/1.1"), H2Broken);
    } else {
      NotAllFailed(prefer6, obs, d);
      UdpPartIs(ident, t, obs, fams[0], c);
      assert IndicatedOn(prefer6, t, obs, d, fams[0], UdpSpec(t, fams[0], 0), UDPBlocked);
    }
  }

  lemma ListedHandshake(ident: Ident, prefer6: bool, t: Target, obs: seq<Observation>, d: Observation, f: Family, c: Candidate)
    requires Secure(t) && Reachable(prefer6, obs, d) && Announced(d, f)
    requires c in TlsPart(ident, t, obs, Families(d, prefer6), f)
    ensures exists f, s, h :: IndicatedOn(prefer6, t, obs, d, f, s, h) && Kept(ident, obs, c, s, h)
  {
    hide Latest, Families, Announced, Leads, HasKey, Kept, TcpSpec, TlsSpec, TlsPart, HandshakeFails, Reachable;
    TlsPartIs(ident, prefer6, t, obs, d, f, c);
    if Kept(ident, obs, c, TlsSpec(t, f, "", SNI_NONE), SNIFiltering) {
      assert IndicatedOn(prefer6, t, obs, d, f, TlsSpec(t, f, "", SNI_NONE), SNIFiltering);
    } else if Kept(ident, obs, c, TlsSpec(t, f, "http/1.1", ""), ALPNInterference) {
      assert IndicatedOn(prefer6, t, obs, d, f, TlsSpec(t, f, "http/1.1", ""), ALPNInterference);
    } else {
      assert IndicatedOn(prefer6, t, obs, d, f, TlsSpec(t, Other(f), "", ""), FamilySpecific);
    }
  }

  lemma HandshakeReaches(prefer6: bool, t: Target, obs: seq<Observation>, d: Observation, f: Family)
    ensures HandshakeFails(prefer6, t, obs, d, f) ==> Secure(t) && Reachable(prefer6, obs, d) && Announced(d, f)
  {
    hide Latest, Announced, Reachable;
  }

  /** Every indicated follow-up that is not recorded is on the list. */
  lemma IndicatedIsListed(ident: Ident, prefer6: bool, t: Target, obs: seq<Observation>, d: Observation, f: Family, s: Spec,
                          h: Hypothesis, c: Candidate)
    requires IndicatedOn(prefer6, t, obs, d, f, s, h) && Kept(ident, obs, c, s, h)
    ensures c in FollowUps(ident, t, obs, Families(d, prefer6))
  {
    hide Latest, Families, Announced, Leads, HasKey, Keep, Kept, TcpSpec, TlsSpec, UdpSpec, HttpSpec, TcpAllFailed, TcpAnyPass, FamilyPart,
      TlsParts, HttpParts, TlsPart, HttpPart, UdpPart, WithPort, HandshakeFails, Reachable;
    var fams := Families(d, prefer6);
    FamiliesMeaning(d, prefer6);
    FamilyPartIs(ident, prefer6, t, obs, d, c);
    PortIs(ident, prefer6, t, obs, d, c);
    AnyPassIs(prefer6, obs, d);
    NotAllFailed(prefer6, obs, d);
    InTlsParts(ident, t, obs, fams, fams, c);
    InHttpParts(ident, t, obs, fams, c);
    HandshakeReaches(prefer6, t, obs, d, f);
    if HandshakeFails(prefer6, t, obs, d, f) { TlsPartIs(ident, prefer6, t, obs, d, f, c); }
    HttpPartIs(ident, t, obs, f, c);
    if fams != [] { UdpPartIs(ident, t, obs, fams[0], c); }
    LeadsInto(d, prefer6);
  }

  /** The candidates are exactly what the record asks for and has not recorded yet. */
  lemma CandidateIff(ident: Ident, prefer6: bool, t: Target, obs: seq<Observation>, c: Candidate)
    ensures c in Candidates(ident, prefer6, t, obs) <==>
            exists s, h :: Indicated(prefer6, t, obs, s, h) && Kept(ident, obs, c, s, h)
  {
    hide Latest, Families, Keep, Kept, DnsSpec, FollowUps, IndicatedOn;
    var dns := Latest(obs, LayerDNS, NoFamily);
    if dns.Some? {
      var d := dns.value;
      if d.status == Pass {
        if c in FollowUps(ident, t, obs, Families(d, prefer6)) {
          ListedIsIndicated(ident, prefer6, t, obs, d, c);
          var f, s, h :| IndicatedOn(prefer6, t, obs, d, f, s, h) && Kept(ident, obs, c, s, h);
          assert Indicated(prefer6, t, obs, s, h);
        }
        if s, h :| Indicated(prefer6, t, obs, s, h) && Kept(ident, obs, c, s, h) {
          var f :| IndicatedOn(prefer6, t, obs, d, f, s, h);
          IndicatedIsListed(ident, prefer6, t, obs, d, f, s, h, c);
        }
      } else {
        KeepIs(ident, obs, c, DnsSpec(t, ResolverPublic), ResolverAnomaly);
        PublicIs(obs);
        if c in Keep(ident, obs, DnsSpec(t, ResolverPublic), ResolverAnomaly) && !PublicDnsRecorded(obs) {
          assert Indicated(prefer6, t, obs, DnsSpec(t, ResolverPublic), ResolverAnomaly);
        }
      }
    }
  }

  lemma PublicIs(obs: seq<Observation>)
    ensures PublicDnsRecorded(obs) <==>
            exists o :: o in obs && o.experiment.spec.layer == LayerDNS && o.experiment.spec.resolver == ResolverPublic
  {
    if o :| o in obs && o.experiment.spec.layer == LayerDNS && o.experiment.spec.resolver == ResolverPublic {
      var i :| 0 <= i < |obs| && obs[i] == o;
    }
  }

  /** The other port changes nothing but the port, in the target and in the URL's text. */
  lemma OtherPort(t: Target, port: nat)
    ensures var u := WithPort(t, port);
            && u.host == t.host && u.port == port && (u.url.Some? <==> t.url.Some?)
            && (t.url.Some? && Free(':', t.host) ==>
                  u.url.value.Text() == t.url.value.scheme + "://" + t.host + ":" + Itoa(port) + t.url.value.rest)
            && (t.url.Some? && !Free(':', t.host) ==>
                  u.url.value.Text() == t.url.value.scheme + "://[" + t.host + "]:" + Itoa(port) + t.url.value.rest)
  {
    hide Itoa;
    if t.url.Some? {
      var a, b, c := t.url.value.scheme, Itoa(port), t.url.value.rest;
      assert a + "://" + (t.host + ":" + b) + c == a + "://" + t.host + ":" + b + c;
      assert a + "://" + ("[" + t.host + "]:" + b) + c == a + "://[" + t.host + "]:" + b + c;
    }
  }

  // ---------------------------------------------------------------------------------------
  // No experiment is a candidate twice

  ghost predicate Apart(cs: seq<Candidate>) {
    forall i, j :: 0 <= i < j < |cs| ==> cs[i].exp.spec != cs[j].exp.spec
  }

  ghost predicate Foreign(xs: seq<Candidate>, ys: seq<Candidate>) {
    forall x, y :: x in xs && y in ys ==> x.exp.spec != y.exp.spec
  }

  lemma ApartPlus(xs: seq<Candidate>, ys: seq<Candidate>)
    requires Apart(xs) && Apart(ys) && Foreign(xs, ys)
    ensures Apart(xs + ys)
  {
    forall i, j | 0 <= i < j < |xs + ys| ensures (xs + ys)[i].exp.spec != (xs + ys)[j].exp.spec {
      if i < |xs| <= j { assert xs[i] in xs && ys[j - |xs|] in ys; }
    }
  }

  ghost predicate AllOn(cs: seq<Candidate>, layer: Layer) {
    forall c :: c in cs ==> c.exp.spec.layer == layer
  }

  lemma LayersApart(xs: seq<Candidate>, ys: seq<Candidate>, a: Layer, b: Layer)
    requires AllOn(xs, a) && AllOn(ys, b) && a != b
    ensures Foreign(xs, ys)
  {
  }

  lemma KeepApart(ident: Ident, obs: seq<Observation>, s: Spec, h: Hypothesis)
    requires Defaults(s) == s
    ensures Apart(Keep(ident, obs, s, h)) && forall c :: c in Keep(ident, obs, s, h) ==> c.exp.spec == s
  {
    hide HasExperiment, Make;
    MadeSpec(ident, s);
  }

  /** The variants a failed handshake asks for on `f`, and the connect on the other family. */
  ghost predicate HandshakeSpec(t: Target, obs: seq<Observation>, f: Family, s: Spec) {
    || (s == TlsSpec(t, Other(f), "", "") && Latest(obs, LayerTLS, Other(f)).None?)
    || s == TlsSpec(t, f, "", SNI_NONE) || s == TlsSpec(t, f, H1, "")
  }

  lemma TlsPartApart(ident: Ident, t: Target, obs: seq<Observation>, all: seq<Family>, f: Family)
    requires f == IPv4 || f == IPv6
    ensures var part := TlsPart(ident, t, obs, all, f);
            && Apart(part) && (part != [] ==> Latest(obs, LayerTLS, f).Some?)
            && forall c :: c in part ==> HandshakeSpec(t, obs, f, c.exp.spec)
  {
    hide Latest, Keep, Apart, TlsSpec;
    var a, b, c := TlsSpec(t, Other(f), "", ""), TlsSpec(t, f, "", SNI_NONE), TlsSpec(t, f, H1, "");
    KeepApart(ident, obs, a, FamilySpecific);
    KeepApart(ident, obs, b, SNIFiltering);
    KeepApart(ident, obs, c, ALPNInterference);
    var xs, ys, zs := Keep(ident, obs, a, FamilySpecific), Keep(ident, obs, b, SNIFiltering), Keep(ident, obs, c, ALPNInterference);
    assert a != b && a != c && b != c by { assert a.family != b.family && b.sni != c.sni && a.family != c.family; }
    ApartPlus(xs, ys);
    ApartPlus(xs + ys, zs);
    NothingApart();
    ApartPlus([], ys);
    ApartPlus([] + ys, zs);
  }

  lemma NothingApart()
    ensures Apart([])
  {
  }

  lemma HandshakesForeign(ident: Ident, t: Target, obs: seq<Observation>, all: seq<Family>, f: Family)
    requires f == IPv4 || f == IPv6
    ensures Foreign(TlsPart(ident, t, obs, all, f), TlsPart(ident, t, obs, all, Other(f)))
  {
    hide Latest, TlsPart, TlsSpec, Apart;
    var g := Other(f);
    TlsPartApart(ident, t, obs, all, f);
    TlsPartApart(ident, t, obs, all, g);
    forall x, y | x in TlsPart(ident, t, obs, all, f) && y in TlsPart(ident, t, obs, all, g)
      ensures x.exp.spec != y.exp.spec
    {
      assert HandshakeSpec(t, obs, f, x.exp.spec) && HandshakeSpec(t, obs, g, y.exp.spec);
    }
  }

  lemma TlsPartsApart(ident: Ident, t: Target, obs: seq<Observation>, fams: seq<Family>)
    requires fams == [] || fams == [IPv4] || fams == [IPv6] || fams == [IPv4, IPv6] || fams == [IPv6, IPv4]
    ensures Apart(TlsParts(ident, t, obs, fams, fams)) && AllOn(TlsParts(ident, t, obs, fams, fams), LayerTLS)
  {
    hide Latest, TlsPart, TlsParts, Foreign, Apart;
    forall c | c in TlsParts(ident, t, obs, fams, fams) ensures c.exp.spec.layer == LayerTLS {
      TlsPartsLayer(ident, t, obs, fams, fams, c);
    }
    TlsPartsList(ident, t, obs, fams, fams);
    NothingApart();
    if fams != [] {
      TlsPartApart(ident, t, obs, fams, fams[0]);
      if |fams| == 2 {
        TlsPartApart(ident, t, obs, fams, fams[1]);
        HandshakesForeign(ident, t, obs, fams, fams[0]);
        ApartPlus(TlsPart(ident, t, obs, fams, fams[0]), TlsPart(ident, t, obs, fams, fams[1]));
      }
    }
  }

  lemma TlsPartsList(ident: Ident, t: Target, obs: seq<Observation>, all: seq<Family>, fams: seq<Family>)
    requires |fams| <= 2
    ensures TlsParts(ident, t, obs, all, fams) ==
            if |fams| == 0 then [] else if |fams| == 1 then TlsPart(ident, t, obs, all, fams[0])
            else TlsPart(ident, t, obs, all, fams[0]) + TlsPart(ident, t, obs, all, fams[1])
  {
    hide TlsPart;
    if |fams| > 0 {
      assert TlsParts(ident, t, obs, all, []) == [];
      if |fams| == 2 {
        assert fams[1..] == [fams[1]] && [fams[1]][1..] == [];
        assert TlsParts(ident, t, obs, all, [fams[1]]) == TlsPart(ident, t, obs, all, fams[1]) + [];
      }
    }
  }

  lemma HttpPartsApart(ident: Ident, t: Target, obs: seq<Observation>, fams: seq<Family>)
    requires fams == [] || fams == [IPv4] || fams == [IPv6] || fams == [IPv4, IPv6] || fams == [IPv6, IPv4]
    ensures Apart(HttpParts(ident, t, obs, fams)) && AllOn(HttpParts(ident, t, obs, fams), LayerHTTP)
  {
    hide Latest, HttpPart, HttpParts, Foreign, Apart;
    forall c | c in HttpParts(ident, t, obs, fams) ensures c.exp.spec.layer == LayerHTTP {
      HttpPartsLayer(ident, t, obs, fams, c);
    }
    HttpPartsList(ident, t, obs, fams);
    NothingApart();
    if fams != [] {
      HttpPartApart(ident, t, obs, fams[0]);
      if |fams| == 2 {
        HttpPartApart(ident, t, obs, fams[1]);
        var x, y := HttpPart(ident, t, obs, fams[0]), HttpPart(ident, t, obs, fams[1]);
        assert Foreign(x, y) by { FamiliesForeign(x, y, fams[0], fams[1]); }
        ApartPlus(x, y);
      }
    }
  }

  lemma FamiliesForeign(xs: seq<Candidate>, ys: seq<Candidate>, f: Family, g: Family)
    requires (forall c :: c in xs ==> c.exp.spec.family == f) && (forall c :: c in ys ==> c.exp.spec.family == g) && f != g
    ensures Foreign(xs, ys)
  {
  }

  lemma HttpPartApart(ident: Ident, t: Target, obs: seq<Observation>, f: Family)
    requires f == IPv4 || f == IPv6
    ensures Apart(HttpPart(ident, t, obs, f)) && forall c :: c in HttpPart(ident, t, obs, f) ==> c.exp.spec.family == f
  {
    hide Latest, Keep, HttpSpec;
    KeepApart(ident, obs, HttpSpec(t, f, H1), H2Broken);
  }

  lemma HttpPartsList(ident: Ident, t: Target, obs: seq<Observation>, fams: seq<Family>)
    requires |fams| <= 2
    ensures HttpParts(ident, t, obs, fams) ==
            if |fams| == 0 then [] else if |fams| == 1 then HttpPart(ident, t, obs, fams[0])
            else HttpPart(ident, t, obs, fams[0]) + HttpPart(ident, t, obs, fams[1])
  {
    hide HttpPart;
    if |fams| > 0 {
      assert HttpParts(ident, t, obs, []) == [];
      if |fams| == 2 {
        assert fams[1..] == [fams[1]] && [fams[1]][1..] == [];
        assert HttpParts(ident, t, obs, [fams[1]]) == HttpPart(ident, t, obs, fams[1]) + [];
      }
    }
  }

  lemma SinglesApart(ident: Ident, t: Target, obs: seq<Observation>, fams: seq<Family>)
    ensures Apart(FamilyPart(ident, t, obs, fams)) && AllOn(FamilyPart(ident, t, obs, fams), LayerTCP)
    ensures fams != [] ==>
              && Apart(UdpPart(ident, t, obs, fams[0])) && AllOn(UdpPart(ident, t, obs, fams[0]), LayerUDP)
              && Apart(Keep(ident, obs, TcpSpec(WithPort(t, 80), fams[0]), PortSpecific))
    ensures TcpAllFailed(obs, fams) ==> FamilyPart(ident, t, obs, fams) == []
  {
    hide Latest, Keep, TcpSpec, UdpSpec, WithPort, Apart;
    NothingApart();
    if |fams| > 1 { KeepApart(ident, obs, TcpSpec(t, fams[1]), FamilySpecific); }
    if fams != [] {
      KeepApart(ident, obs, UdpSpec(t, fams[0], 0), UDPBlocked);
      KeepApart(ident, obs, TcpSpec(WithPort(t, 80), fams[0]), PortSpecific);
    }
  }

  lemma FollowUpsApart(ident: Ident, t: Target, obs: seq<Observation>, fams: seq<Family>)
    requires fams == [] || fams == [IPv4] || fams == [IPv6] || fams == [IPv4, IPv6] || fams == [IPv6, IPv4]
    ensures Apart(FollowUps(ident, t, obs, fams))
  {
    hide Latest, Keep, TlsParts, HttpParts, UdpPart, FamilyPart, TcpAllFailed, TcpAnyPass, TcpSpec, WithPort, Apart, Foreign;
    NothingApart();
    SinglesApart(ident, t, obs, fams);
    AllFailedSome(obs, fams);
    if TcpAllFailed(obs, fams) {
      var port := Keep(ident, obs, TcpSpec(WithPort(t, 80), fams[0]), PortSpecific);
      assert [] + port == port;
    } else {
      TlsPartsApart(ident, t, obs, fams);
      HttpPartsApart(ident, t, obs, fams);
      var tcp, tls, http := FamilyPart(ident, t, obs, fams), TlsParts(ident, t, obs, fams, fams), HttpParts(ident, t, obs, fams);
      LayersApart(tcp, http, LayerTCP, LayerHTTP);
      ApartPlus(tcp, http);
      assert tcp + [] == tcp && [] + http == http;
      if fams != [] {
        var udp := UdpPart(ident, t, obs, fams[0]);
        LayersApart(tls, udp, LayerTLS, LayerUDP);
        ApartPlus(tls, udp);
        ForeignPlus(tls, udp, http, LayerTLS, LayerUDP, LayerHTTP);
        ApartPlus(tls + udp, http);
        TcpForeign(tcp, tls, udp, http);
        ApartPlus(tcp, tls + udp + http);
      } else {
        assert !TcpAnyPass(obs, fams) by { NoFamilyPasses(obs); }
      }
    }
  }

  lemma NoFamilyPasses(obs: seq<Observation>)
    ensures !TcpAnyPass(obs, [])
  {
  }

  lemma ForeignPlus(xs: seq<Candidate>, ys: seq<Candidate>, zs: seq<Candidate>, a: Layer, b: Layer, c: Layer)
    requires AllOn(xs, a) && AllOn(ys, b) && AllOn(zs, c) && a != c && b != c
    ensures Foreign(xs + ys, zs)
  {
  }

  lemma TcpForeign(tcp: seq<Candidate>, tls: seq<Candidate>, udp: seq<Candidate>, http: seq<Candidate>)
    requires AllOn(tcp, LayerTCP) && AllOn(tls, LayerTLS) && AllOn(udp, LayerUDP) && AllOn(http, LayerHTTP)
    ensures Foreign(tcp, tls + udp + http)
  {
  }

  /** No experiment is a candidate twice. */
  lemma CandidatesApart(ident: Ident, prefer6: bool, t: Target, obs: seq<Observation>)
    ensures Apart(Candidates(ident, prefer6, t, obs))
  {
    hide Latest, Keep, FollowUps, Families, DnsSpec, Apart;
    NothingApart();
    KeepApart(ident, obs, DnsSpec(t, ResolverPublic), ResolverAnomaly);
    var dns := Latest(obs, LayerDNS, NoFamily);
    if dns.Some? { FollowUpsApart(ident, t, obs, Families(dns.value, prefer6)); }
  }

  // ---------------------------------------------------------------------------------------
  // The choice

  /** What a probe of a layer is taken to cost. */
  function Price(layer: Layer): nat {
    match layer
    case LayerDNS | LayerTCP | LayerUDP => 1
    case LayerTLS | LayerHTTP => 2
    case LayerQUIC => 3
    case LayerOther(_) => 1
  }

  /** `a` is cheaper than `b`, or as cheap and not behind it in canonical form. */
  ghost predicate NotWorse(a: Experiment, b: Experiment) {
    || Price(a.spec.layer) < Price(b.spec.layer)
    || (&& Price(a.spec.layer) == Price(b.spec.layer)
        && !Less(CanonicalForm(b.spec), CanonicalForm(a.spec)))
  }

  function Least(a: nat, b: nat): nat { if a < b then a else b }

  lemma NotBefore(obs: seq<Observation>, c: Candidate, d: Candidate)
    requires |c.hyps| == 1 == |d.hyps| && !HasExperiment(obs, c.exp.id) && !HasExperiment(obs, d.exp.id)
    requires !Before(ScoreOf(obs, d), ScoreOf(obs, c))
    ensures NotWorse(c.exp, d.exp)
  {
    hide CanonicalForm, HasExperiment, Less;
  }

  /** `order` lists every candidate once, none of them worse than a later one. */
  ghost predicate IsRanking(cs: seq<Candidate>, order: seq<Experiment>) {
    && |order| == |cs|
    && (forall e :: e in order <==> exists c :: c in cs && c.exp == e)
    && (forall i, j :: 0 <= i < j < |order| ==> NotWorse(order[i], order[j]))
    && (forall i, j :: 0 <= i < j < |order| ==> order[i].spec != order[j].spec)
  }

  /** The score is of a candidate. */
  ghost predicate Standing(obs: seq<Observation>, cs: seq<Candidate>, r: Scored) {
    exists c :: c in cs && r == ScoreOf(obs, c)
  }

  lemma ScoredOnce(obs: seq<Observation>, cs: seq<Candidate>, ranked: seq<Scored>)
    requires multiset(ranked) == multiset(ScoreAll(obs, cs))
    ensures |ranked| == |cs|
    ensures forall r :: r in ranked <==> Standing(obs, cs, r)
  {
    hide ScoreOf;
    var all := ScoreAll(obs, cs);
    SizeOf(ranked);
    SizeOf(all);
    forall r ensures r in ranked <==> Standing(obs, cs, r) {
      assert r in ranked <==> r in multiset(all);
      if r in all {
        var k :| 0 <= k < |all| && all[k] == r;
        assert cs[k] in cs;
      }
      if c :| c in cs && r == ScoreOf(obs, c) {
        var k :| 0 <= k < |cs| && cs[k] == c;
        assert all[k] == r;
      }
    }
  }

  lemma {:induction false} ScoresDiffer(obs: seq<Observation>, cs: seq<Candidate>)
    requires Apart(cs)
    ensures Sorting.Distinct(ScoreAll(obs, cs))
  {
    hide ScoreOf;
    forall i, j | 0 <= i < j < |cs| ensures ScoreAll(obs, cs)[i] != ScoreAll(obs, cs)[j] {
      ScoreKeepsExperiment(obs, cs[i]);
      ScoreKeepsExperiment(obs, cs[j]);
    }
  }

  ghost predicate AllNew(obs: seq<Observation>, cs: seq<Candidate>) {
    forall c :: c in cs ==> |c.hyps| == 1 && !HasExperiment(obs, c.exp.id)
  }

  lemma RankedExperiment(obs: seq<Observation>, c: Candidate, r: Scored)
    requires r == ScoreOf(obs, c)
    ensures r.exp == c.exp
  {
  }

  lemma ApartMembers(cs: seq<Candidate>, c: Candidate, d: Candidate)
    requires Apart(cs) && c in cs && d in cs && c != d
    ensures c.exp.spec != d.exp.spec
  {
    var k :| 0 <= k < |cs| && cs[k] == c;
    var l :| 0 <= l < |cs| && cs[l] == d;
    assert k < l || l < k;
  }

  /** The ranked scores are the candidates', each once, and ascend in rank. */
  ghost predicate Ranks(obs: seq<Observation>, cs: seq<Candidate>, ranked: seq<Scored>) {
    && |ranked| == |cs| && Sorting.Sorted(Before, ranked) && Sorting.Distinct(ranked)
    && forall r :: r in ranked <==> Standing(obs, cs, r)
  }

  lemma RankedRanks(obs: seq<Observation>, cs: seq<Candidate>)
    requires Apart(cs)
    ensures Ranks(obs, cs, Ranked(obs, cs))
  {
    hide ScoreOf, ScoreAll, Before, Apart, Standing, Sorting.Sorted, Sorting.Distinct, Sorting.Sort;
    ByScoreThenForm();
    Sorting.SortCorrect(Before, ScoreAll(obs, cs));
    ScoredOnce(obs, cs, Ranked(obs, cs));
    ScoresDiffer(obs, cs);
    Sorting.PermutedDistinct(ScoreAll(obs, cs), Ranked(obs, cs));
  }

  lemma OrderMembers(obs: seq<Observation>, cs: seq<Candidate>, ranked: seq<Scored>, e: Experiment)
    requires Ranks(obs, cs, ranked)
    ensures e in ExpsOf(ranked) <==> exists c :: c in cs && c.exp == e
  {
    hide ScoreOf, Before, Sorting.Sorted, Sorting.Distinct;
    var order := ExpsOf(ranked);
    if e in order {
      var i :| 0 <= i < |order| && order[i] == e;
      assert ranked[i] in ranked;
      var c :| c in cs && ranked[i] == ScoreOf(obs, c);
      RankedExperiment(obs, c, ranked[i]);
    }
    if c :| c in cs && c.exp == e {
      assert Standing(obs, cs, ScoreOf(obs, c));
      var i :| 0 <= i < |ranked| && ranked[i] == ScoreOf(obs, c);
      RankedExperiment(obs, c, ranked[i]);
      assert order[i] == e;
    }
  }

  lemma OrderPair(obs: seq<Observation>, cs: seq<Candidate>, ranked: seq<Scored>, i: nat, j: nat)
    requires Ranks(obs, cs, ranked) && Apart(cs) && AllNew(obs, cs) && i < j < |ranked|
    ensures NotWorse(ranked[i].exp, ranked[j].exp) && ranked[i].exp.spec != ranked[j].exp.spec
  {
    hide ScoreOf, Before, NotWorse, Apart;
    assert ranked[i] in ranked && ranked[j] in ranked;
    assert Standing(obs, cs, ranked[i]) && Standing(obs, cs, ranked[j]);
    var c :| c in cs && ranked[i] == ScoreOf(obs, c);
    var d :| d in cs && ranked[j] == ScoreOf(obs, d);
    RankedExperiment(obs, c, ranked[i]);
    RankedExperiment(obs, d, ranked[j]);
    NotBefore(obs, c, d);
    ApartMembers(cs, c, d);
  }

  lemma RankingIs(obs: seq<Observation>, cs: seq<Candidate>)
    requires Apart(cs) && AllNew(obs, cs)
    ensures IsRanking(cs, ExpsOf(Ranked(obs, cs)))
  {
    hide Ranked, Ranks, Apart, NotWorse, AllNew;
    var ranked := Ranked(obs, cs);
    var order := ExpsOf(ranked);
    RankedRanks(obs, cs);
    RanksAll(obs, cs, ranked);
    forall e ensures e in order <==> exists c :: c in cs && c.exp == e { OrderMembers(obs, cs, ranked, e); }
    forall i, j | 0 <= i < j < |order| ensures NotWorse(order[i], order[j]) && order[i].spec != order[j].spec {
      OrderPair(obs, cs, ranked, i, j);
    }
  }

  lemma RanksAll(obs: seq<Observation>, cs: seq<Candidate>, ranked: seq<Scored>)
    requires Ranks(obs, cs, ranked)
    ensures |ranked| == |cs|
  {
    hide Standing, Before, Sorting.Sorted, Sorting.Distinct;
  }

  lemma CandidatesAreNew(ident: Ident, prefer6: bool, t: Target, obs: seq<Observation>)
    ensures AllNew(obs, Candidates(ident, prefer6, t, obs))
    ensures forall c :: c in Candidates(ident, prefer6, t, obs) ==>
              Normalize(ident, c.exp) == c.exp && c.exp.id == ident(c.exp.spec)
  {
    hide Candidates, Universe, HasExperiment, Normalize, Answers, IsFollowUp;
    forall c | c in Candidates(ident, prefer6, t, obs)
      ensures |c.hyps| == 1 && !HasExperiment(obs, c.exp.id) && Normalize(ident, c.exp) == c.exp && c.exp.id == ident(c.exp.spec)
    {
      CandidateSound(ident, prefer6, t, obs, c);
      FollowUpsAnswerFailures(ident, prefer6, t, obs, c);
      OneHypothesis(obs, c);
    }
  }

  lemma OneHypothesis(obs: seq<Observation>, c: Candidate)
    requires Answers(obs, c)
    ensures |c.hyps| == 1
  {
    hide HasFailure;
  }

  /** What the policy proposes once the tree is exhausted: the first of a ranking. */
  ghost predicate TakesBest(cs: seq<Candidate>, out: seq<Experiment>, budget: nat) {
    exists order: seq<Experiment> :: IsRanking(cs, order) && |out| <= |order| && out == order[..|out|]
      && (|out| == Least(Least(2, budget), |cs|)
          || (|out| == 1 && Least(2, budget) == 2 && |order| >= 2 && order[0].id == order[1].id))
  }

  lemma ProposeRanked(ident: Ident, prefer6: bool, t: Target, s: Survey, budget: nat)
    requires s.target == Some(t) && PlanOf(ident, prefer6, s) == []
    ensures TakesBest(CandidatesOf(ident, prefer6, s), Propose(ident, prefer6, s, budget), budget)
  {
    hide Candidates, PlanOf, Ranked, IsRanking, Normalize, HasExperiment;
    var obs := s.observations;
    var cs := Candidates(ident, prefer6, t, obs);
    CandidatesApart(ident, prefer6, t, obs);
    CandidatesAreNew(ident, prefer6, t, obs);
    RankingIs(obs, cs);
    var ranked := Ranked(obs, cs);
    var order := ExpsOf(ranked);
    var take := Least(Least(2, budget), |cs|);
    OrderIsNew(ident, obs, cs, order);
    assert Best(ranked, budget) == order[..take];
    assert Fresh(ident, obs, {}, [], budget) == [];
    FreshOfTwo(ident, obs, order[..take], budget);
    var out := Propose(ident, prefer6, s, budget);
    assert out == order[..|out|];
  }

  lemma OrderIsNew(ident: Ident, obs: seq<Observation>, cs: seq<Candidate>, order: seq<Experiment>)
    requires IsRanking(cs, order) && AllNew(obs, cs)
    requires forall c :: c in cs ==> Normalize(ident, c.exp) == c.exp && c.exp.id == ident(c.exp.spec)
    ensures |order| == |cs|
    ensures forall e :: e in order ==> Normalize(ident, e) == e && e.id != "" && !HasExperiment(obs, e.id)
  {
    hide NotWorse, Normalize, HasExperiment;
  }

  lemma FreshOfSeen(ident: Ident, obs: seq<Observation>, e: Experiment, seen: set<string>, budget: nat)
    requires Normalize(ident, e).id in seen
    ensures Fresh(ident, obs, seen, [e], budget) == []
  {
    hide Normalize, HasExperiment;
    assert [e][1..] == [];
    assert Fresh(ident, obs, seen, [], budget) == [];
  }

  lemma FreshOfTwo(ident: Ident, obs: seq<Observation>, best: seq<Experiment>, budget: nat)
    requires |best| <= budget && |best| <= 2
    requires forall e :: e in best ==> Normalize(ident, e) == e && e.id != "" && !HasExperiment(obs, e.id)
    ensures Fresh(ident, obs, {}, best, budget) ==
            if |best| == 2 && best[0].id == best[1].id then best[..1] else best
  {
    hide Normalize, HasExperiment;
    if |best| == 2 && best[0].id == best[1].id {
      assert best[1..] == [best[1]] && best[1..][1..] == [];
      assert best[0] in best && best[1] in best;
      assert Fresh(ident, obs, {} + {best[0].id}, best[1..], budget - 1) == [] by {
        FreshOfSeen(ident, obs, best[1], {} + {best[0].id}, budget - 1);
      }
      assert best[..1] == [best[0]];
    } else {
      FreshKeeps(ident, obs, {}, best, budget);
      assert best[..|best|] == best;
    }
  }

  /** Different candidates have different IDs. */
  ghost predicate OwnIds(cs: seq<Candidate>) {
    forall c, d :: c in cs && d in cs && c.exp.id == d.exp.id ==> c.exp == d.exp
  }

  /** Once the tree is exhausted the best candidates are chosen: at most two and as many as there
      are and the budget allows, as long as IDs tell candidates apart; none that is left out is
      cheaper than a chosen one, or as cheap and earlier in canonical form; and they are proposed in
      that order. */
  lemma ChoiceIsBest(ident: Ident, prefer6: bool, t: Target, s: Survey, budget: nat)
    requires s.target == Some(t) && PlanOf(ident, prefer6, s) == []
    ensures var cs, out := CandidatesOf(ident, prefer6, s), Propose(ident, prefer6, s, budget);
            && (forall e :: e in out ==> exists c :: c in cs && c.exp == e)
            && (OwnIds(cs) ==> |out| == Least(Least(2, budget), |cs|))
            && (forall e, c :: e in out && c in cs && c.exp.id !in IdsOf(out) ==> NotWorse(e, c.exp))
            && (forall i, j :: 0 <= i < j < |out| ==> NotWorse(out[i], out[j]))
  {
    hide CandidatesOf, Propose, IsRanking, NotWorse, PlanOf;
    ProposeRanked(ident, prefer6, t, s, budget);
    var cs, out := CandidatesOf(ident, prefer6, s), Propose(ident, prefer6, s, budget);
    var order: seq<Experiment> :| IsRanking(cs, order) && |out| <= |order| && out == order[..|out|]
      && (|out| == Least(Least(2, budget), |cs|)
          || (|out| == 1 && Least(2, budget) == 2 && |order| >= 2 && order[0].id == order[1].id));
    ChosenOf(cs, order, |out|);
  }

  lemma ChosenOf(cs: seq<Candidate>, order: seq<Experiment>, n: nat)
    requires IsRanking(cs, order) && n <= |order|
    ensures var out := order[..n];
            && (forall e :: e in out ==> exists c :: c in cs && c.exp == e)
            && (OwnIds(cs) && |order| >= 2 ==> order[0].id != order[1].id)
            && (forall e, c :: e in out && c in cs && c.exp.id !in IdsOf(out) ==> NotWorse(e, c.exp))
            && (forall i, j :: 0 <= i < j < |out| ==> NotWorse(out[i], out[j]))
  {
    hide NotWorse;
    var out := order[..n];
    forall e | e in out ensures exists c :: c in cs && c.exp == e { assert e in order; }
    if OwnIds(cs) && |order| >= 2 {
      assert order[0] in order && order[1] in order;
    }
    forall e, c | e in out && c in cs && c.exp.id !in IdsOf(out) ensures NotWorse(e, c.exp) {
      var i :| 0 <= i < |out| && out[i] == e;
      assert c.exp in order;
      var j :| 0 <= j < |order| && order[j] == c.exp;
      TakenId(order, n, j);
    }
  }

  lemma TakenId(order: seq<Experiment>, n: nat, j: nat)
    requires n <= |order| && j < |order|
    ensures j < n ==> order[j].id in IdsOf(order[..n])
  {
    if j < n { assert order[..n][j] in order[..n]; }
  }
}
